/** The customer reconciler: Create, Read, Update and Delete of a vendor
    customer record, against a gateway given as an oracle. Each operation
    returns the gateway calls it made, in order, and what it leaves for the
    framework. */
module CustomerResource {
  import opened Framework
  import opened CompositeId
  import opened Entitlements

  /** The ten license capability flags a customer carries. */
  datatype Flag =
    | AirgapEnabled
    | EmbeddedClusterDownloadEnabled
    | GeoaxisSupported
    | GitopsSupported
    | HelmvmDownloadEnabled
    | IdentityServiceSupported
    | InstallerSupportEnabled
    | KotsInstallEnabled
    | SnapshotSupported
    | SupportBundleUploadEnabled

  /** A customer's declared configuration and its persisted state (the same
      record serves both). `enabled` holds the flags that are true; a null or
      unknown string attribute reads as "", except `expiresAt`, whose absence
      is kept. */
  datatype CustomerModel = CustomerModel(
    id: string,
    appId: string,
    channelId: string,
    email: string,
    entitlementValues: map<string, string>,
    expiresAt: Option<string>,
    enabled: set<Flag>,
    name: string,
    licenseType: string)

  datatype Channel = Channel(id: string)

  /** A customer record as the gateway returns it. `expires` is the expiry
      already formatted as a timestamp string, when the record has one. */
  datatype Customer = Customer(
    id: string,
    name: string,
    email: string,
    channels: seq<Channel>,
    entitlements: seq<EntitlementValue>,
    expires: Option<string>,
    enabled: set<Flag>,
    licenseType: string)

  /** The options of a create request. */
  datatype CreateCustomerOpts = CreateCustomerOpts(
    appId: string,
    channels: seq<Channel>,
    email: string,
    entitlementValues: seq<EntitlementValue>,
    expiresAt: string,
    enabled: set<Flag>,
    name: string,
    licenseType: string)

  /** The options of an update request. The installer-support flag is never
      assigned by Update, so it never appears in `enabled`. */
  datatype UpdateCustomerOpts = UpdateCustomerOpts(
    appId: string,
    channels: seq<Channel>,
    email: string,
    entitlementValues: seq<EntitlementValue>,
    expiresAt: string,
    enabled: set<Flag>,
    name: string,
    licenseType: string)

  /** One call made to the gateway. */
  datatype CustomerCall =
    | CreateCustomer(createOpts: CreateCustomerOpts)
    | GetCustomerByNameOrId(appId: string, customerId: string)
    | UpdateCustomer(customerId: string, updateOpts: UpdateCustomerOpts)
    | ArchiveCustomer(customerId: string)

  /** The remote gateway as an oracle: what each call returns. Archive gives
      back the text of its error, if any. */
  datatype CustomerApi = CustomerApi(
    createCustomer: CreateCustomerOpts -> Result<Customer>,
    getCustomerByNameOrId: (string, string) -> Result<Customer>,
    updateCustomer: (string, UpdateCustomerOpts) -> Result<Customer>,
    archiveCustomer: string -> Option<string>)

  /** The exact error text by which Read recognises a deleted customer. */
  const NotFoundMessage: string := "Customer not found"

  /** The state a response is turned into for an app: id rebuilt from the
      app id and the response's customer id, the first channel, the
      entitlement list folded into a map, and every other field copied. */
  predicate ReflectsResponse(m: CustomerModel, appId: string, c: Customer) {
    && |c.channels| > 0
    && m.id == Encode(appId, c.id)
    && m.appId == appId
    && m.channelId == c.channels[0].id
    && m.email == c.email
    && m.entitlementValues == Folded(c.entitlements)
    && m.expiresAt == c.expires
    && m.enabled == c.enabled
    && m.name == c.name
    && m.licenseType == c.licenseType
  }

  /** The create options Create builds from the plan: every declared field,
      the entitlement map as a listing and the one declared channel. */
  predicate CreateOptsFromPlan(opts: CreateCustomerOpts, plan: CustomerModel) {
    && opts.appId == plan.appId
    && opts.channels == [Channel(plan.channelId)]
    && opts.email == plan.email
    && IsListing(opts.entitlementValues, plan.entitlementValues)
    && opts.expiresAt == ValueString(plan.expiresAt)
    && opts.enabled == plan.enabled
    && opts.name == plan.name
    && opts.licenseType == plan.licenseType
  }

  /** The update options Update builds from the plan: the same as Create's,
      except that the installer-support flag is left out. */
  predicate UpdateOptsFromPlan(opts: UpdateCustomerOpts, plan: CustomerModel) {
    && opts.appId == plan.appId
    && opts.channels == [Channel(plan.channelId)]
    && opts.email == plan.email
    && IsListing(opts.entitlementValues, plan.entitlementValues)
    && opts.expiresAt == ValueString(plan.expiresAt)
    && opts.enabled == plan.enabled - {InstallerSupportEnabled}
    && opts.name == plan.name
    && opts.licenseType == plan.licenseType
  }

  /** The state built from a gateway response. The response must carry a
      channel: the Go code reads the first one unguarded. */
  method ModelFromCustomer(appId: string, c: Customer) returns (m: CustomerModel)
    requires |c.channels| > 0
    ensures ReflectsResponse(m, appId, c)
    ensures m.entitlementValues.Keys == Names(c.entitlements)
    ensures forall i :: 0 <= i < |c.entitlements| && (forall j :: i < j < |c.entitlements| ==> c.entitlements[j].name != c.entitlements[i].name)
              ==> m.entitlementValues[c.entitlements[i].name] == c.entitlements[i].value
  {
    var entitlements := Fold(c.entitlements);
    FoldedKeys(c.entitlements);
    forall i | 0 <= i < |c.entitlements| && (forall j :: i < j < |c.entitlements| ==> c.entitlements[j].name != c.entitlements[i].name)
      ensures entitlements[c.entitlements[i].name] == c.entitlements[i].value
    {
      FoldedLastWins(c.entitlements, i);
    }
    m := CustomerModel(Encode(appId, c.id), appId, c.channels[0].id, c.email,
                       entitlements, None, c.enabled, c.name, c.licenseType);
    if c.expires.Some? {
      m := m.(expiresAt := c.expires);
    }
  }

  /** The detail text of a "Server Error" diagnostic. */
  function ServerError(action: string, err: string): Diagnostic {
    Diagnostic("Server Error", "Unable to " + action + " customer, got error: " + err)
  }

  /** Create: one create call carrying the plan, then the state rebuilt
      from the response for the declared app id. */
  method Create(api: CustomerApi, plan: CustomerModel)
    returns (calls: seq<CustomerCall>, outcome: Outcome<CustomerModel>)
    ensures |calls| == 1 && calls[0].CreateCustomer?
    ensures CreateOptsFromPlan(calls[0].createOpts, plan)
    ensures Folded(calls[0].createOpts.entitlementValues) == plan.entitlementValues
    ensures var r := api.createCustomer(calls[0].createOpts);
            && (r.Err? ==> outcome == Failed(ServerError("create", r.message)))
            && (r.Ok? && |r.value.channels| == 0 ==> outcome == Panicked)
            && (r.Ok? && |r.value.channels| > 0 ==>
                  outcome.SetState? && ReflectsResponse(outcome.state, plan.appId, r.value))
  {
    var entitlementValues := Flatten(plan.entitlementValues);
    FoldListing(entitlementValues, plan.entitlementValues);
    var opts := CreateCustomerOpts(plan.appId, [], plan.email, entitlementValues,
                                   ValueString(plan.expiresAt), plan.enabled, plan.name, plan.licenseType);
    opts := opts.(channels := [Channel(plan.channelId)]);
    calls := [CreateCustomer(opts)];
    var r := api.createCustomer(opts);
    if r.Err? {
      outcome := Failed(ServerError("create", r.message));
      return;
    }
    if |r.value.channels| == 0 {
      outcome := Panicked;
      return;
    }
    var data := ModelFromCustomer(plan.appId, r.value);
    outcome := SetState(data);
  }

  /** Read: only the prior state's id is consulted. The gateway is asked
      for pieces 1 and 3 of it; the exact not-found text drops the resource,
      any other error is reported, and a record becomes the new state. */
  method Read(api: CustomerApi, stateId: string)
    returns (calls: seq<CustomerCall>, outcome: Outcome<CustomerModel>)
    ensures Decode(stateId).None? ==> calls == [] && outcome == Panicked
    ensures Decode(stateId).Some? ==>
              var ref := Decode(stateId).value;
              var r := api.getCustomerByNameOrId(ref.appId, ref.customerId);
              && calls == [GetCustomerByNameOrId(ref.appId, ref.customerId)]
              && (outcome == RemoveResource <==> r.Err? && r.message == NotFoundMessage)
              && (r.Err? && r.message != NotFoundMessage ==> outcome == Failed(ServerError("get", r.message)))
              && (r.Ok? && |r.value.channels| == 0 ==> outcome == Panicked)
              && (r.Ok? && |r.value.channels| > 0 ==>
                    outcome.SetState? && ReflectsResponse(outcome.state, ref.appId, r.value))
  {
    var ref := Decode(stateId);
    if ref.None? {
      calls, outcome := [], Panicked;
      return;
    }
    var appId, id := ref.value.appId, ref.value.customerId;
    calls := [GetCustomerByNameOrId(appId, id)];
    var r := api.getCustomerByNameOrId(appId, id);
    if r.Err? {
      if r.message == NotFoundMessage {
        outcome := RemoveResource;
        return;
      }
      outcome := Failed(ServerError("get", r.message));
      return;
    }
    if |r.value.channels| == 0 {
      outcome := Panicked;
      return;
    }
    var data := ModelFromCustomer(appId, r.value);
    outcome := SetState(data);
  }

  /** Update: a full-replace update of the customer named by piece 3 of the
      prior id, then the state rebuilt from the response for the declared
      app id. */
  method Update(api: CustomerApi, priorId: string, plan: CustomerModel)
    returns (calls: seq<CustomerCall>, outcome: Outcome<CustomerModel>)
    ensures Decode(priorId).None? ==> calls == [] && outcome == Panicked
    ensures Decode(priorId).Some? ==>
              && |calls| == 1 && calls[0].UpdateCustomer?
              && calls[0].customerId == Decode(priorId).value.customerId
              && UpdateOptsFromPlan(calls[0].updateOpts, plan)
              && Folded(calls[0].updateOpts.entitlementValues) == plan.entitlementValues
              && var r := api.updateCustomer(calls[0].customerId, calls[0].updateOpts);
                 && (r.Err? ==> outcome == Failed(ServerError("update", r.message)))
                 && (r.Ok? && |r.value.channels| == 0 ==> outcome == Panicked)
                 && (r.Ok? && |r.value.channels| > 0 ==>
                       outcome.SetState? && ReflectsResponse(outcome.state, plan.appId, r.value))
  {
    var entitlementValues := Flatten(plan.entitlementValues);
    FoldListing(entitlementValues, plan.entitlementValues);
    var opts := UpdateCustomerOpts("", [], "", [], "", {}, "", "");
    opts := opts.(appId := plan.appId);
    opts := opts.(channels := [Channel(plan.channelId)]);
    opts := opts.(email := plan.email);
    opts := opts.(entitlementValues := entitlementValues);
    opts := opts.(expiresAt := ValueString(plan.expiresAt));
    opts := opts.(enabled := plan.enabled - {InstallerSupportEnabled});
    opts := opts.(name := plan.name);
    opts := opts.(licenseType := plan.licenseType);
    var ref := Decode(priorId);
    if ref.None? {
      calls, outcome := [], Panicked;
      return;
    }
    var customerId := ref.value.customerId;
    calls := [UpdateCustomer(customerId, opts)];
    var r := api.updateCustomer(customerId, opts);
    if r.Err? {
      outcome := Failed(ServerError("update", r.message));
      return;
    }
    if |r.value.channels| == 0 {
      outcome := Panicked;
      return;
    }
    var data := ModelFromCustomer(plan.appId, r.value);
    outcome := SetState(data);
  }

  /** Delete: archive the customer named by piece 3 of the prior id, and
      nothing else; an archive error is reported. */
  method Delete(api: CustomerApi, priorId: string)
    returns (calls: seq<CustomerCall>, outcome: Outcome<CustomerModel>)
    ensures Decode(priorId).None? ==> calls == [] && outcome == Panicked
    ensures Decode(priorId).Some? ==>
              var customerId := Decode(priorId).value.customerId;
              && calls == [ArchiveCustomer(customerId)]
              && (api.archiveCustomer(customerId).None? ==> outcome == Done)
              && (api.archiveCustomer(customerId).Some? ==>
                    outcome == Failed(ServerError("archive", api.archiveCustomer(customerId).value)))
  {
    var ref := Decode(priorId);
    if ref.None? {
      calls, outcome := [], Panicked;
      return;
    }
    var customerId := ref.value.customerId;
    calls := [ArchiveCustomer(customerId)];
    var err := api.archiveCustomer(customerId);
    if err.Some? {
      outcome := Failed(ServerError("archive", err.value));
      return;
    }
    outcome := Done;
  }

  /** The id of a state built from a response gives back, through Decode,
      the declared app id and the customer id the gateway returned. */
  lemma StateIdDecodes(m: CustomerModel, appId: string, c: Customer)
    requires ReflectsResponse(m, appId, c)
    requires Separator !in appId && Separator !in c.id
    ensures Decode(m.id) == Some(CustomerRef(appId, c.id))
  {
    DecodeEncode(appId, c.id);
  }
}
