/** Translation of a customer's entitlement values between the declared
    name -> value map and the list of name/value pairs the gateway speaks. */
module Entitlements {

  /** One entitlement as the gateway sends and receives it. */
  datatype EntitlementValue = EntitlementValue(name: string, value: string)

  /** The names occurring in a list of pairs. */
  function Names(list: seq<EntitlementValue>): set<string> {
    set i | 0 <= i < |list| :: list[i].name
  }

  /** `list` lists the map `m`: one pair per key, carrying that key's value,
      and no name twice. */
  predicate IsListing(list: seq<EntitlementValue>, m: map<string, string>) {
    && |list| == |m|
    && (forall i :: 0 <= i < |list| ==> list[i].name in m && m[list[i].name] == list[i].value)
    && (forall i, j :: 0 <= i < j < |list| ==> list[i].name != list[j].name)
  }

  /** Part way through flattening `m`: `list` lists `m` restricted to the
      keys already visited, and `pending` holds the keys still to visit. */
  predicate PartlyListed(list: seq<EntitlementValue>, m: map<string, string>, pending: set<string>) {
    && pending <= m.Keys
    && Names(list) == m.Keys - pending
    && |list| + |pending| == |m|
    && (forall i :: 0 <= i < |list| ==> list[i].name in m && m[list[i].name] == list[i].value)
    && (forall i, j :: 0 <= i < j < |list| ==> list[i].name != list[j].name)
  }

  /** Visiting one pending key keeps the flattening partly listed. */
  lemma ListStep(list: seq<EntitlementValue>, m: map<string, string>, pending: set<string>, name: string)
    requires PartlyListed(list, m, pending)
    requires name in pending
    ensures PartlyListed(list + [EntitlementValue(name, m[name])], m, pending - {name})
  {
    var e := EntitlementValue(name, m[name]);
    var next := list + [e];
    assert name !in Names(list);
    NamesAppend(list, e);
    forall i | 0 <= i < |next|
      ensures next[i].name in m && m[next[i].name] == next[i].value
    {
      if i < |list| {
        assert next[i] == list[i];
      }
    }
    forall i, j | 0 <= i < j < |next|
      ensures next[i].name != next[j].name
    {
      assert next[i] == list[i];
      if j == |list| {
        assert list[i].name in Names(list);
      } else {
        assert next[j] == list[j];
      }
    }
    assert |pending - {name}| == |pending| - 1;
  }

  /** The outbound direction: the declared map becomes a list of pairs by
      ranging over the map and appending one pair per key. The order is
      whatever order the range visits the keys in (unspecified in Go, an
      arbitrary choice here). */
  method Flatten(m: map<string, string>) returns (list: seq<EntitlementValue>)
    ensures IsListing(list, m)
    ensures Names(list) == m.Keys
  {
    list := [];
    var pending := m.Keys;
    while pending != {}
      invariant PartlyListed(list, m, pending)
      decreases pending
    {
      var name :| name in pending;
      ListStep(list, m, pending, name);
      list := list + [EntitlementValue(name, m[name])];
      pending := pending - {name};
    }
  }

  /** Appending a pair adds its name to the names. */
  lemma NamesAppend(list: seq<EntitlementValue>, e: EntitlementValue)
    ensures Names(list + [e]) == Names(list) + {e.name}
  {
    var next := list + [e];
    assert forall i :: 0 <= i < |list| ==> next[i] == list[i];
    assert next[|list|] == e;
  }

  /** The map obtained by writing the pairs into an empty map in order, so
      that a later pair overwrites an earlier pair of the same name. */
  function Folded(list: seq<EntitlementValue>): map<string, string> {
    if list == [] then map[]
    else
      var last := list[|list| - 1];
      Folded(list[..|list| - 1])[last.name := last.value]
  }

  /** The inbound direction: the response's list is written into a fresh
      map, one pair after the other. */
  method Fold(list: seq<EntitlementValue>) returns (m: map<string, string>)
    ensures m == Folded(list)
  {
    m := map[];
    for i := 0 to |list|
      invariant m == Folded(list[..i])
    {
      assert list[..i + 1][..i] == list[..i];
      m := m[list[i].name := list[i].value];
    }
    assert list[..|list|] == list;
  }

  /** The folded map has exactly the names that occur in the list. */
  lemma {:induction false} FoldedKeys(list: seq<EntitlementValue>)
    ensures Folded(list).Keys == Names(list)
    decreases |list|
  {
    if list != [] {
      var init := list[..|list| - 1];
      FoldedKeys(init);
      assert Names(list) == Names(init) + {list[|list| - 1].name} by {
        assert forall i :: 0 <= i < |init| ==> init[i] == list[i];
      }
    }
  }

  /** Last write wins: a name's value in the folded map is the value of the
      last pair with that name. */
  lemma {:induction false} FoldedLastWins(list: seq<EntitlementValue>, i: nat)
    requires i < |list|
    requires forall j :: i < j < |list| ==> list[j].name != list[i].name
    ensures list[i].name in Folded(list)
    ensures Folded(list)[list[i].name] == list[i].value
    decreases |list|
  {
    var init := list[..|list| - 1];
    if i < |list| - 1 {
      FoldedLastWins(init, i);
    }
  }

  /** Round trip: folding any listing of a map gives that map back, so the
      pairs Create and Update send describe exactly the declared map. */
  lemma {:induction false} FoldListing(list: seq<EntitlementValue>, m: map<string, string>)
    requires IsListing(list, m)
    ensures Folded(list) == m
    decreases |list|
  {
    if list == [] {
      assert |m.Keys| == 0;
    } else {
      var init := list[..|list| - 1];
      var last := list[|list| - 1];
      var rest := m - {last.name};
      assert last.name in m;
      assert |rest| == |m| - 1 by {
        assert rest.Keys == m.Keys - {last.name};
      }
      forall i | 0 <= i < |init|
        ensures init[i].name in rest && rest[init[i].name] == init[i].value
      {
        assert init[i] == list[i];
      }
      assert IsListing(init, rest);
      FoldListing(init, rest);
      assert Folded(list) == rest[last.name := last.value];
    }
  }
}
