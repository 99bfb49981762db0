/** The composite state id of a customer, `app/{appID}/customer/{customerID}`:
    how the customer resource builds it and how it takes it apart again with
    Go's `strings.Split(id, "/")` followed by indexing. */
module CompositeId {
  import opened Framework

  const Separator: char := '/'

  /** The number of separators in `s`. */
  function Separators(s: string): nat {
    if s == [] then 0
    else (if s[0] == Separator then 1 else 0) + Separators(s[1..])
  }

  /** Go's `strings.Split(s, "/")`: the maximal separator-free pieces of `s`,
      in order. Like Go, the empty string splits into one empty piece and a
      string with k separators into k + 1 pieces. */
  function Split(s: string): (parts: seq<string>)
    ensures |parts| == Separators(s) + 1
    ensures forall i :: 0 <= i < |parts| ==> Separator !in parts[i]
    decreases |s|
  {
    if s == [] then [""]
    else
      var rest := Split(s[1..]);
      if s[0] == Separator then [""] + rest
      else [[s[0]] + rest[0]] + rest[1..]
  }

  /** The pieces glued back together with one separator between neighbours. */
  function Join(parts: seq<string>): string
    requires |parts| >= 1
  {
    if |parts| == 1 then parts[0] else parts[0] + "/" + Join(parts[1..])
  }

  /** Splitting loses nothing: the pieces rejoin to the original string. */
  lemma {:induction false} JoinSplit(s: string)
    ensures Join(Split(s)) == s
    decreases |s|
  {
    if s != [] {
      JoinSplit(s[1..]);
      var rest := Split(s[1..]);
      if s[0] == Separator {
        assert Split(s) == [""] + rest;
        assert Split(s)[1..] == rest;
        assert [s[0]] + s[1..] == s;
      } else {
        assert Split(s) == [[s[0]] + rest[0]] + rest[1..];
        if |rest| == 1 {
          assert [s[0]] + s[1..] == s;
        } else {
          assert Split(s)[1..] == rest[1..];
          assert Join(rest) == rest[0] + "/" + Join(rest[1..]);
          assert [s[0]] + rest[0] + "/" + Join(rest[1..]) == [s[0]] + (rest[0] + "/" + Join(rest[1..]));
          assert [s[0]] + s[1..] == s;
        }
      }
    }
  }

  /** A separator-free prefix sticks to the first piece of what follows it. */
  lemma {:induction false} SplitPrefix(a: string, t: string)
    requires Separator !in a
    ensures Split(a + t) == [a + Split(t)[0]] + Split(t)[1..]
    decreases |a|
  {
    if a == [] {
      assert a + t == t;
      assert a + Split(t)[0] == Split(t)[0];
      assert Split(t) == [Split(t)[0]] + Split(t)[1..];
    } else {
      SplitPrefix(a[1..], t);
      assert (a + t)[0] == a[0];
      assert (a + t)[1..] == a[1..] + t;
      assert [a[0]] + (a[1..] + Split(t)[0]) == a + Split(t)[0];
    }
  }

  /** Joining separator-free pieces and splitting again gives the pieces back. */
  lemma {:induction false} SplitJoin(parts: seq<string>)
    requires |parts| >= 1
    requires forall i :: 0 <= i < |parts| ==> Separator !in parts[i]
    ensures Split(Join(parts)) == parts
    decreases |parts|
  {
    if |parts| == 1 {
      SplitPrefix(parts[0], "");
      assert parts[0] + "" == parts[0];
    } else {
      var tail := Join(parts[1..]);
      SplitJoin(parts[1..]);
      var t := "/" + tail;
      assert t[0] == Separator && t[1..] == tail;
      assert Split(t) == [""] + parts[1..];
      SplitPrefix(parts[0], t);
      assert parts[0] + "/" + tail == parts[0] + t;
      assert parts[0] + "" == parts[0];
    }
  }

  /** Joining a concatenation joins the two halves with one separator. */
  lemma {:induction false} JoinAppend(p: seq<string>, q: seq<string>)
    requires |p| >= 1 && |q| >= 1
    ensures Join(p + q) == Join(p) + "/" + Join(q)
    decreases |p|
  {
    if |p| == 1 {
      assert (p + q)[1..] == q;
    } else {
      JoinAppend(p[1..], q);
      assert (p + q)[1..] == p[1..] + q;
    }
  }

  /** The state id the customer resource writes for an app and a customer. */
  function Encode(appId: string, customerId: string): (id: string)
    ensures id == Join(["app", appId, "customer", customerId])
  {
    var id := "app/" + appId + "/customer/" + customerId;
    ghost var parts := ["app", appId, "customer", customerId];
    assert Join(parts[3..]) == customerId;
    assert parts[2..][1..] == parts[3..];
    assert Join(parts[2..]) == "customer" + "/" + customerId;
    assert parts[1..][1..] == parts[2..];
    assert Join(parts[1..]) == appId + "/" + ("customer" + "/" + customerId);
    assert id == "app" + "/" + (appId + "/" + ("customer" + "/" + customerId));
    id
  }

  /** The two ids a state id is taken apart into. */
  datatype CustomerRef = CustomerRef(appId: string, customerId: string)

  /** `strings.Split(id, "/")` indexed at 1 and at 3; `None` where Go's
      indexing panics because there are fewer than four pieces. Neither the
      literal pieces "app" and "customer" nor the number of extra pieces is
      checked. */
  function Decode(id: string): (r: Option<CustomerRef>)
    ensures r.None? <==> Separators(id) < 3
    ensures r.Some? ==> Separator !in r.value.appId && Separator !in r.value.customerId
  {
    var parts := Split(id);
    if |parts| < 4 then None else Some(CustomerRef(parts[1], parts[3]))
  }

  /** Decode on a joined id: pieces 1 and 3 whenever there are at least four
      pieces, whatever pieces 0 and 2 and whatever follows; nothing otherwise. */
  lemma DecodeJoin(parts: seq<string>)
    requires |parts| >= 1
    requires forall i :: 0 <= i < |parts| ==> Separator !in parts[i]
    ensures |parts| >= 4 ==> Decode(Join(parts)) == Some(CustomerRef(parts[1], parts[3]))
    ensures |parts| < 4 ==> Decode(Join(parts)) == None
  {
    SplitJoin(parts);
  }

  /** Round trip: an encoded id decodes to the app and customer it was built
      from, as long as neither contains a separator. */
  lemma DecodeEncode(appId: string, customerId: string)
    requires Separator !in appId && Separator !in customerId
    ensures Decode(Encode(appId, customerId)) == Some(CustomerRef(appId, customerId))
  {
    DecodeJoin(["app", appId, "customer", customerId]);
  }

  /** The other direction: an id of the exact `app/…/customer/…` shape is
      rebuilt unchanged from what it decodes to. */
  lemma EncodeDecode(id: string)
    requires |Split(id)| == 4 && Split(id)[0] == "app" && Split(id)[2] == "customer"
    ensures Decode(id).Some?
    ensures Encode(Decode(id).value.appId, Decode(id).value.customerId) == id
  {
    var p := Split(id);
    JoinSplit(id);
    assert p == ["app", p[1], "customer", p[3]];
  }

  /** Pieces past the fourth are ignored: an encoded id followed by any
      suffix still decodes to the same pair. */
  lemma DecodeIgnoresExtraPieces(appId: string, customerId: string, suffix: string)
    requires Separator !in appId && Separator !in customerId
    ensures Decode(Encode(appId, customerId) + "/" + suffix) == Some(CustomerRef(appId, customerId))
  {
    var p := ["app", appId, "customer", customerId];
    var q := Split(suffix);
    JoinSplit(suffix);
    JoinAppend(p, q);
    DecodeJoin(p + q);
  }

  /** An app id that itself contains a separator does not survive the round
      trip: `app/a1/a2/customer/c` decodes to app `a1` and to the literal
      piece "customer" as the customer id. */
  lemma SeparatorInAppIdBreaksRoundTrip(a1: string, a2: string, customerId: string)
    requires Separator !in a1 && Separator !in a2 && Separator !in customerId
    ensures Decode(Encode(a1 + "/" + a2, customerId)) == Some(CustomerRef(a1, "customer"))
  {
    var p := [ "app", a1, a2, "customer", customerId];
    assert Join(p[4..]) == customerId;
    assert p[3..][1..] == p[4..];
    assert p[2..][1..] == p[3..];
    assert p[1..][1..] == p[2..];
    assert Join(p[3..]) == "customer" + "/" + customerId;
    assert Join(p[2..]) == a2 + "/" + Join(p[3..]);
    assert Join(p[1..]) == a1 + "/" + Join(p[2..]);
    assert Join(p) == "app" + "/" + Join(p[1..]);
    assert Encode(a1 + "/" + a2, customerId)
        == "app" + "/" + (a1 + "/" + (a2 + "/" + ("customer" + "/" + customerId)));
    DecodeJoin(p);
  }

  /** Empty app and customer pieces are accepted: `app//customer/` decodes
      to two empty ids rather than being refused. */
  lemma EmptyPiecesAreAccepted()
    ensures Decode("app//customer/") == Some(CustomerRef("", ""))
  {
    var p := ["app", "", "customer", ""];
    assert Join(p) == "app//customer/";
    DecodeJoin(p);
  }

  /** Ids with fewer than four pieces make the Go indexing panic. */
  lemma ShortIdsDoNotDecode()
    ensures Decode("bogus") == None
    ensures Decode("app/only") == None
  {
    DecodeJoin(["bogus"]);
    var p := ["app", "only"];
    assert Join(p) == "app/only";
    DecodeJoin(p);
  }
}
