/** The cluster reconciler: Create (with its optional wait for the cluster
    to come up), Read, Update and Delete of an on-demand test cluster,
    against a gateway given as an oracle. Durations and the clock are in
    nanoseconds, like Go's `time.Duration`; the clock only moves forward by
    the five-second sleeps between polls. */
module ClusterResource {
  import opened Framework

  const Second: int := 1_000_000_000
  /** The fixed sleep between two polls of the wait loop. */
  const PollInterval: int := 5 * Second

  /** A cluster's status as the reconciler distinguishes it: the three
      statuses it tests for, and every other status string, which all count
      alike as still in progress. */
  datatype ClusterStatus = Running | Error | UpgradeError | InProgress

  /** A cluster record as the gateway returns it. */
  datatype Cluster = Cluster(
    id: string,
    name: string,
    distribution: string,
    version: string,
    diskGiB: int,
    nodeCount: int,
    status: ClusterStatus)

  /** A cluster's declared configuration and its persisted state (the same
      record serves both). Null or unknown strings read as "" and numbers as
      0, except `kubeconfig`, which is None while it has no value (the plan
      leaves this computed attribute unknown). */
  datatype ClusterModel = ClusterModel(
    id: string,
    name: string,
    distribution: string,
    version: string,
    instanceType: string,
    disk: int,
    nodes: int,
    ttl: string,
    waitDuration: string,
    kubeconfig: Option<string>)

  /** The options of a create request; `None` marks a field that is not
      sent, so that the server's default applies. */
  datatype CreateClusterOpts = CreateClusterOpts(
    name: Option<string>,
    kubernetesDistribution: string,
    kubernetesVersion: Option<string>,
    instanceType: Option<string>,
    diskGiB: Option<int>,
    nodeCount: Option<int>,
    ttl: Option<string>)

  /** What a create call gives back: an error, or a cluster possibly
      accompanied by validation feedback. */
  datatype CreateClusterResult =
    | CreateFailed(err: string)
    | Created(cluster: Cluster, validation: Option<string>)

  /** One call made to the gateway; `GetCluster` records the clock reading. */
  datatype ClusterCall =
    | CreateCluster(opts: CreateClusterOpts)
    | GetCluster(id: string, at: int)
    | GetClusterKubeconfig(kubeconfigOf: string)
    | RemoveCluster(removed: string)

  /** The remote gateway as an oracle. What GetCluster returns depends on
      the cluster and on the time of the call; RemoveCluster gives back the
      text of its error, if any. */
  datatype ClusterApi = ClusterApi(
    createCluster: CreateClusterOpts -> CreateClusterResult,
    getCluster: (string, int) -> Result<Cluster>,
    getClusterKubeconfig: string -> Result<string>,
    removeCluster: string -> Option<string>)

  const FailedToProvision: string := "cluster failed to provision"

  predicate IsFailedStatus(s: ClusterStatus) {
    s == Error || s == UpgradeError
  }

  /** The outcome of a wait and the number of polls it took. */
  datatype WaitRun = WaitRun(result: Result<Cluster>, polls: nat)

  /** The wait protocol, polling from clock reading `now` on: a running
      cluster ends it with that cluster, an error status ends it with an
      error, a poll after the deadline ends it with the cluster last seen,
      and a failed poll aborts it. Otherwise it sleeps and polls again. */
  function Wait(getCluster: (string, int) -> Result<Cluster>, id: string, deadline: int, now: int): (run: WaitRun)
    ensures run.polls >= 1
    ensures now <= deadline ==> run.polls <= (deadline - now) / PollInterval + 2
    ensures now > deadline ==> run.polls == 1
    decreases if now > deadline then 0 else deadline - now + 1
  {
    match getCluster(id, now)
    case Err(e) => WaitRun(Err("get cluster: " + e), 1)
    case Ok(c) =>
      if c.status == Running then WaitRun(Ok(c), 1)
      else if IsFailedStatus(c.status) then WaitRun(Err(FailedToProvision), 1)
      else if now > deadline then WaitRun(Ok(c), 1)
      else
        var rest := Wait(getCluster, id, deadline, now + PollInterval);
        WaitRun(rest.result, rest.polls + 1)
  }

  /** The GetCluster calls of `n` polls five seconds apart from `start` on. */
  function Polls(id: string, start: int, n: nat): (calls: seq<ClusterCall>)
    ensures |calls| == n
    ensures forall k :: 0 <= k < n ==> calls[k] == GetCluster(id, start + k * PollInterval)
  {
    seq(n, k => GetCluster(id, start + k * PollInterval))
  }

  /** `waitForCluster`: poll until the cluster runs, fails, or the deadline
      `start + duration` has passed, sleeping five seconds between polls. */
  method WaitForCluster(api: ClusterApi, id: string, duration: int, start: int)
    returns (result: Result<Cluster>, calls: seq<ClusterCall>)
    ensures var run := Wait(api.getCluster, id, start + duration, start);
            result == run.result && calls == Polls(id, start, run.polls)
  {
    var now := start;
    calls := [];
    while true
      invariant now == start + |calls| * PollInterval
      invariant calls == Polls(id, start, |calls|)
      invariant var run := Wait(api.getCluster, id, start + duration, start);
                var rest := Wait(api.getCluster, id, start + duration, now);
                run.result == rest.result && run.polls == |calls| + rest.polls
      decreases if now > start + duration then 0 else start + duration - now + 1
    {
      calls := calls + [GetCluster(id, now)];
      var r := api.getCluster(id, now);
      if r.Err? {
        result := Err("get cluster: " + r.message);
        return;
      }
      var cluster := r.value;
      if cluster.status == Running {
        result := Ok(cluster);
        return;
      } else if IsFailedStatus(cluster.status) {
        result := Err(FailedToProvision);
        return;
      } else if now > start + duration {
        result := Ok(cluster);
        return;
      }
      now := now + PollInterval;
    }
  }

  /** A successful wait returns the cluster observed at its last poll, at
      `now` plus one interval per earlier poll: either running, or past the
      deadline in a status that is not an error. */
  lemma {:induction false} WaitOkObserved(getCluster: (string, int) -> Result<Cluster>, id: string, deadline: int, now: int)
    returns (t: int)
    requires Wait(getCluster, id, deadline, now).result.Ok?
    ensures t == now + (Wait(getCluster, id, deadline, now).polls - 1) * PollInterval
    ensures getCluster(id, t) == Wait(getCluster, id, deadline, now).result
    ensures var c := Wait(getCluster, id, deadline, now).result.value;
            c.status == Running || (t > deadline && !IsFailedStatus(c.status))
    decreases if now > deadline then 0 else deadline - now + 1
  {
    var r := getCluster(id, now);
    if r.Ok? && r.value.status != Running && !IsFailedStatus(r.value.status) && now <= deadline {
      var rest := Wait(getCluster, id, deadline, now + PollInterval);
      t := WaitOkObserved(getCluster, id, deadline, now + PollInterval);
      assert now + PollInterval + (rest.polls - 1) * PollInterval == now + rest.polls * PollInterval;
    } else {
      t := now;
    }
  }

  /** A failed wait ends at its last poll, at `now` plus one interval per
      earlier poll, and that poll either failed (its error reported wrapped)
      or observed the cluster in an error status. */
  lemma {:induction false} WaitErrObserved(getCluster: (string, int) -> Result<Cluster>, id: string, deadline: int, now: int)
    returns (t: int)
    requires Wait(getCluster, id, deadline, now).result.Err?
    ensures t == now + (Wait(getCluster, id, deadline, now).polls - 1) * PollInterval
    ensures var e := Wait(getCluster, id, deadline, now).result.message;
            || (getCluster(id, t).Err? && e == "get cluster: " + getCluster(id, t).message)
            || (getCluster(id, t).Ok? && IsFailedStatus(getCluster(id, t).value.status) && e == FailedToProvision)
    decreases if now > deadline then 0 else deadline - now + 1
  {
    var r := getCluster(id, now);
    if r.Ok? && r.value.status != Running && !IsFailedStatus(r.value.status) && now <= deadline {
      var rest := Wait(getCluster, id, deadline, now + PollInterval);
      t := WaitErrObserved(getCluster, id, deadline, now + PollInterval);
      assert now + PollInterval + (rest.polls - 1) * PollInterval == now + rest.polls * PollInterval;
    } else {
      t := now;
    }
  }

  /** Every poll before the last was undecided: the cluster was still in
      progress and the deadline had not passed. So the wait ends at the
      first poll that fails, sees the cluster running or failed, or comes
      after the deadline. */
  lemma {:induction false} WaitEarlierPollsUndecided(getCluster: (string, int) -> Result<Cluster>, id: string, deadline: int, now: int, k: nat)
    requires k + 1 < Wait(getCluster, id, deadline, now).polls
    ensures var t := now + k * PollInterval;
            getCluster(id, t).Ok? && getCluster(id, t).value.status == InProgress && t <= deadline
    decreases if now > deadline then 0 else deadline - now + 1
  {
    if k > 0 {
      WaitEarlierPollsUndecided(getCluster, id, deadline, now + PollInterval, k - 1);
      assert now + PollInterval + (k - 1) * PollInterval == now + k * PollInterval;
    }
  }

  /** A cluster that never leaves an in-progress status does not make the
      wait hang or fail: it ends, without error, on that cluster. */
  lemma {:induction false} WaitTimesOut(getCluster: (string, int) -> Result<Cluster>, id: string, deadline: int, now: int, c: Cluster)
    requires c.status.InProgress?
    requires forall t :: getCluster(id, t) == Ok(c)
    ensures Wait(getCluster, id, deadline, now).result == Ok(c)
    decreases if now > deadline then 0 else deadline - now + 1
  {
    assert getCluster(id, now) == Ok(c);
    if now <= deadline {
      WaitTimesOut(getCluster, id, deadline, now + PollInterval, c);
    }
  }

  /** The parsed value of an optional duration attribute: zero when it is
      empty, the parse result otherwise. */
  function DurationOf(parseDuration: string -> Result<int>, s: string): Result<int> {
    if s == "" then Ok(0) else parseDuration(s)
  }

  /** The create options Create sends: the distribution always; name,
      version and instance type exactly when non-empty; disk and node count
      exactly when positive; the TTL text exactly when the parsed TTL is
      positive. Whatever is sent is the declared value. */
  predicate OptsFromPlan(opts: CreateClusterOpts, plan: ClusterModel, ttl: int) {
    && opts.kubernetesDistribution == plan.distribution
    && (opts.name.Some? <==> plan.name != "") && (opts.name.Some? ==> opts.name.value == plan.name)
    && (opts.kubernetesVersion.Some? <==> plan.version != "")
    && (opts.kubernetesVersion.Some? ==> opts.kubernetesVersion.value == plan.version)
    && (opts.instanceType.Some? <==> plan.instanceType != "")
    && (opts.instanceType.Some? ==> opts.instanceType.value == plan.instanceType)
    && (opts.diskGiB.Some? <==> plan.disk > 0) && (opts.diskGiB.Some? ==> opts.diskGiB.value == plan.disk)
    && (opts.nodeCount.Some? <==> plan.nodes > 0) && (opts.nodeCount.Some? ==> opts.nodeCount.value == plan.nodes)
    && (opts.ttl.Some? <==> ttl > 0) && (opts.ttl.Some? ==> opts.ttl.value == plan.ttl)
  }

  /** The plan with what the gateway assigned on creation copied in. */
  function CopiedBack(plan: ClusterModel, cl: Cluster): ClusterModel {
    plan.(id := cl.id, name := cl.name, version := cl.version, disk := cl.diskGiB, nodes := cl.nodeCount)
  }

  /** The prior state refreshed from a gateway record; instance type, TTL
      and wait duration are kept from the prior state. */
  function Refreshed(state: ClusterModel, cl: Cluster): ClusterModel {
    state.(id := cl.id, name := cl.name, distribution := cl.distribution, version := cl.version,
           disk := cl.diskGiB, nodes := cl.nodeCount)
  }

  function ServerError(detail: string): Diagnostic {
    Diagnostic("Server Error", detail)
  }

  /** What Create does once the cluster exists: `calls` are the calls made
      after the create call. Without a positive wait duration the kubeconfig
      is set to "" and nothing more is called. With one, the wait polls from
      clock reading `now` with deadline `now + wait`; an aborted or failed
      wait is reported, a timed-out wait leaves the kubeconfig as the plan
      had it, and a running cluster has its kubeconfig fetched. */
  predicate Finished(api: ClusterApi, plan: ClusterModel, cl: Cluster, wait: int, now: int,
                     calls: seq<ClusterCall>, outcome: Outcome<ClusterModel>)
  {
    var data := CopiedBack(plan, cl);
    if wait <= 0 then
      calls == [] && outcome == SetState(data.(kubeconfig := Some("")))
    else
      var run := Wait(api.getCluster, cl.id, now + wait, now);
      && |calls| >= run.polls
      && calls[..run.polls] == Polls(cl.id, now, run.polls)
      && match run.result
         case Err(e) =>
           calls == calls[..run.polls] &&
           outcome == Failed(ServerError("Unable to create cluster, got error: " + e))
         case Ok(c) =>
           if c.status != Running then
             calls == calls[..run.polls] && outcome == SetState(data)
           else
             var k := api.getClusterKubeconfig(c.id);
             && calls == calls[..run.polls] + [GetClusterKubeconfig(c.id)]
             && (k.Err? ==> outcome == Failed(ServerError("Unable to get cluster kubeconfig, got error: " + k.message)))
             && (k.Ok? ==> outcome == SetState(data.(kubeconfig := Some(k.value))))
  }

  /** The create options, built field by field from the plan and the
      parsed TTL. */
  method BuildCreateOpts(plan: ClusterModel, ttl: int) returns (opts: CreateClusterOpts)
    ensures OptsFromPlan(opts, plan, ttl)
  {
    opts := CreateClusterOpts(None, plan.distribution, None, None, None, None, None);
    if plan.name != "" {
      opts := opts.(name := Some(plan.name));
    }
    if plan.version != "" {
      opts := opts.(kubernetesVersion := Some(plan.version));
    }
    if plan.instanceType != "" {
      opts := opts.(instanceType := Some(plan.instanceType));
    }
    if plan.disk > 0 {
      opts := opts.(diskGiB := Some(plan.disk));
    }
    if plan.nodes > 0 {
      opts := opts.(nodeCount := Some(plan.nodes));
    }
    if ttl > 0 {
      opts := opts.(ttl := Some(plan.ttl));
    }
  }

  /** The part of Create after a successful create call: copy-back, then
      the wait and kubeconfig policy. */
  method FinishCreate(api: ClusterApi, plan: ClusterModel, cl: Cluster, wait: int, now: int)
    returns (calls: seq<ClusterCall>, outcome: Outcome<ClusterModel>)
    ensures Finished(api, plan, cl, wait, now, calls, outcome)
  {
    var data := plan;
    data := data.(id := cl.id);
    data := data.(name := cl.name);
    data := data.(version := cl.version);
    data := data.(disk := cl.diskGiB);
    data := data.(nodes := cl.nodeCount);

    calls := [];
    if wait > 0 {
      var waited, polls := WaitForCluster(api, cl.id, wait, now);
      calls := polls;
      if waited.Err? {
        outcome := Failed(ServerError("Unable to create cluster, got error: " + waited.message));
        return;
      }
      var c := waited.value;
      if c.status == Running {
        calls := calls + [GetClusterKubeconfig(c.id)];
        var k := api.getClusterKubeconfig(c.id);
        if k.Err? {
          outcome := Failed(ServerError("Unable to get cluster kubeconfig, got error: " + k.message));
          return;
        }
        data := data.(kubeconfig := Some(k.value));
      }
    } else {
      data := data.(kubeconfig := Some(""));
    }
    outcome := SetState(data);
  }

  /** Create. Both duration attributes are validated before any call; a
      parse failure is reported and nothing is called. Then one create call
      with the options built from the plan: an error, or validation feedback
      returned with the cluster, is reported and nothing is saved; otherwise
      Create finishes as `Finished` describes, starting its wait at clock
      reading `now`. */
  method Create(api: ClusterApi, parseDuration: string -> Result<int>, plan: ClusterModel, now: int)
    returns (calls: seq<ClusterCall>, outcome: Outcome<ClusterModel>)
    ensures var w := DurationOf(parseDuration, plan.waitDuration);
            w.Err? ==>
              (calls == [] &&
               outcome == Failed(Diagnostic("Invalid wait duration", "Unable to parse wait duration, got error: " + w.message)))
    ensures var w := DurationOf(parseDuration, plan.waitDuration);
            var t := DurationOf(parseDuration, plan.ttl);
            w.Ok? && t.Err? ==>
              (calls == [] && outcome == Failed(Diagnostic("Invalid ttl", "Unable to parse ttl, got error: " + t.message)))
    ensures var w := DurationOf(parseDuration, plan.waitDuration);
            var t := DurationOf(parseDuration, plan.ttl);
            w.Ok? && t.Ok? ==>
              (&& |calls| >= 1 && calls[0].CreateCluster?
               && OptsFromPlan(calls[0].opts, plan, t.value)
               && match api.createCluster(calls[0].opts)
                  case CreateFailed(e) =>
                    calls == calls[..1] && outcome == Failed(ServerError("Unable to create cluster, got error: " + e))
                  case Created(cl, validation) =>
                    if validation.Some? then
                      calls == calls[..1] &&
                      outcome == Failed(Diagnostic("Validation Error", "Unable to create cluster, got error: " + validation.value))
                    else
                      Finished(api, plan, cl, w.value, now, calls[1..], outcome))
  {
    calls := [];
    var waitDuration := 0;
    if plan.waitDuration != "" {
      var d := parseDuration(plan.waitDuration);
      if d.Err? {
        outcome := Failed(Diagnostic("Invalid wait duration", "Unable to parse wait duration, got error: " + d.message));
        return;
      }
      waitDuration := d.value;
    }
    var ttl := 0;
    if plan.ttl != "" {
      var t := parseDuration(plan.ttl);
      if t.Err? {
        outcome := Failed(Diagnostic("Invalid ttl", "Unable to parse ttl, got error: " + t.message));
        return;
      }
      ttl := t.value;
    }

    var opts := BuildCreateOpts(plan, ttl);
    calls := [CreateCluster(opts)];
    var created := api.createCluster(opts);
    if created.CreateFailed? {
      outcome := Failed(ServerError("Unable to create cluster, got error: " + created.err));
      return;
    }
    if created.validation.Some? {
      outcome := Failed(Diagnostic("Validation Error", "Unable to create cluster, got error: " + created.validation.value));
      return;
    }
    var rest;
    rest, outcome := FinishCreate(api, plan, created.cluster, waitDuration, now);
    calls := calls + rest;
    assert calls[1..] == rest;
  }

  /** Read: any error from GetCluster drops the resource; otherwise the
      state is refreshed from the record, and the kubeconfig is fetched
      exactly when the cluster runs and set to "" otherwise. */
  method Read(api: ClusterApi, state: ClusterModel, now: int)
    returns (calls: seq<ClusterCall>, outcome: Outcome<ClusterModel>)
    ensures |calls| >= 1 && calls[0] == GetCluster(state.id, now)
    ensures var r := api.getCluster(state.id, now);
            && (outcome == RemoveResource <==> r.Err?)
            && (r.Err? ==> calls == calls[..1])
            && (r.Ok? && r.value.status != Running ==>
                  (calls == calls[..1] && outcome == SetState(Refreshed(state, r.value).(kubeconfig := Some("")))))
            && (r.Ok? && r.value.status == Running ==>
                  var k := api.getClusterKubeconfig(r.value.id);
                  && calls == calls[..1] + [GetClusterKubeconfig(r.value.id)]
                  && (k.Err? ==> outcome == Failed(ServerError("Unable to get cluster kubeconfig, got error: " + k.message)))
                  && (k.Ok? ==> outcome == SetState(Refreshed(state, r.value).(kubeconfig := Some(k.value)))))
    ensures outcome.SetState? && outcome.state.kubeconfig != Some("") ==>
              api.getCluster(state.id, now).Ok? && api.getCluster(state.id, now).value.status == Running
  {
    calls := [GetCluster(state.id, now)];
    var r := api.getCluster(state.id, now);
    if r.Err? {
      outcome := RemoveResource;
      return;
    }
    var cl := r.value;
    var data := state;
    data := data.(id := cl.id);
    data := data.(name := cl.name);
    data := data.(distribution := cl.distribution);
    data := data.(version := cl.version);
    data := data.(disk := cl.diskGiB);
    data := data.(nodes := cl.nodeCount);

    if cl.status == Running {
      calls := calls + [GetClusterKubeconfig(cl.id)];
      var k := api.getClusterKubeconfig(cl.id);
      if k.Err? {
        outcome := Failed(ServerError("Unable to get cluster kubeconfig, got error: " + k.message));
        return;
      }
      data := data.(kubeconfig := Some(k.value));
    } else {
      data := data.(kubeconfig := Some(""));
    }
    outcome := SetState(data);
  }

  /** Update: no call to the gateway; the plan is persisted as declared. */
  method Update(plan: ClusterModel) returns (calls: seq<ClusterCall>, outcome: Outcome<ClusterModel>)
    ensures calls == [] && outcome == SetState(plan)
  {
    calls := [];
    outcome := SetState(plan);
  }

  /** Delete: one remove call with the state's id; its error is reported. */
  method Delete(api: ClusterApi, state: ClusterModel)
    returns (calls: seq<ClusterCall>, outcome: Outcome<ClusterModel>)
    ensures calls == [RemoveCluster(state.id)]
    ensures api.removeCluster(state.id).None? ==> outcome == Done
    ensures api.removeCluster(state.id).Some? ==>
              outcome == Failed(Diagnostic("Client Error", "Unable to delete cluster, got error: " + api.removeCluster(state.id).value))
  {
    calls := [RemoveCluster(state.id)];
    var err := api.removeCluster(state.id);
    if err.Some? {
      outcome := Failed(Diagnostic("Client Error", "Unable to delete cluster, got error: " + err.value));
      return;
    }
    outcome := Done;
  }
}
