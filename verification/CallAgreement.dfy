/** When a generated call passes its arguments in the places the derived interface declares. */
module CallAgreement {
  import opened SequenceDsl
  import opened CallOrder

  // ----- the arguments are the inputs -----

  lemma {:induction false} SuppliedDistinct(order: seq<string>, inputs: map<string, string>)
    requires NoDuplicates(order)
    ensures NoDuplicates(Supplied(order, inputs))
  {
    if order != [] {
      SuppliedDistinct(order[1..], inputs);
      SuppliedContains(order[1..], inputs);
      assert forall k :: k in order[1..] ==> k != order[0];
    }
  }

  lemma ConcatDistinct(a: seq<string>, b: seq<string>)
    requires NoDuplicates(a) && NoDuplicates(b) && forall k :: k in a ==> k !in b
    ensures NoDuplicates(a + b)
  {
    var c := a + b;
    forall i, j | 0 <= i < j < |c| ensures c[i] != c[j] {
      if i < |a| <= j {
        assert c[i] == a[i] && c[j] == b[j - |a|];
        assert a[i] in a && b[j - |a|] in b;
      }
    }
  }

  lemma KeysCover(inputs: map<string, string>, order: seq<string>)
    requires order != [] || |QueryKeys(inputs)| <= 1
    ensures forall k :: k in CallKeys(inputs, order) <==> k in inputs
  {
    if order != [] {
      SuppliedContains(order, inputs);
      SortedKeysAre(inputs.Keys - Elements(order));
    } else {
      SortedKeysAre(inputs.Keys - QueryKeys(inputs));
      LastQueryKeyIs(inputs);
      OneQueryKey(inputs);
    }
  }

  lemma OneQueryKey(inputs: map<string, string>)
    requires |QueryKeys(inputs)| <= 1
    ensures forall k :: k in LastQueryKey(inputs) <==> k in QueryKeys(inputs)
  {
    LastQueryKeyIs(inputs);
    if QueryKeys(inputs) != {} {
      var q := LastQueryKey(inputs)[0];
      assert |QueryKeys(inputs) - {q}| == 0;
      assert QueryKeys(inputs) == {q} && LastQueryKey(inputs) == [q];
    }
  }

  /** With duplicate-free parameters and at most one query value, every input is passed exactly once. */
  lemma ArgumentsAreInputs(inputs: map<string, string>, order: seq<string>)
    requires NoDuplicates(order) && |QueryKeys(inputs)| <= 1
    ensures NoDuplicates(CallKeys(inputs, order))
    ensures forall k :: k in CallKeys(inputs, order) <==> k in inputs
  {
    KeysCover(inputs, order);
    if order != [] {
      SuppliedDistinct(order, inputs);
      SuppliedContains(order, inputs);
      SortedKeysAscending(inputs.Keys - Elements(order));
      ConcatDistinct(Supplied(order, inputs), SortedKeys(inputs.Keys - Elements(order)));
    } else {
      SortedKeysAscending(inputs.Keys - QueryKeys(inputs));
      LastQueryKeyIs(inputs);
      OneQueryKey(inputs);
      ConcatDistinct(SortedKeys(inputs.Keys - QueryKeys(inputs)), LastQueryKey(inputs));
    }
  }

  // ----- call and interface -----

  /** The interface has the same slots as the call, whichever way its map iteration goes. */
  ghost predicate Agree(inputs: map<string, string>, order: seq<string>) {
    forall listed :: IsListing(listed, inputs.Keys - Elements(order))
      ==> InterfaceSlots(inputs, order, listed) == CallSlots(inputs, order)
  }

  /** Keys outside the parameter list whose value is not the query. */
  function PlainExtras(inputs: map<string, string>, order: seq<string>): set<string> {
    inputs.Keys - Elements(order) - QueryKeys(inputs)
  }

  /** No parameter after this one is supplied. */
  predicate SuppliedLast(q: string, inputs: map<string, string>, order: seq<string>) {
    forall i, j :: 0 <= i < j < |order| && order[i] == q ==> order[j] !in inputs
  }

  /** There is at most one query value, and it is the last supplied parameter with nothing outside the list,
      or it is outside the list and sorts after everything else outside. */
  predicate QueryLast(inputs: map<string, string>, order: seq<string>) {
    && |QueryKeys(inputs)| <= 1
    && forall q :: q in QueryKeys(inputs) ==>
         if q in Elements(order) then inputs.Keys <= Elements(order) && SuppliedLast(q, inputs, order)
         else forall k :: k in PlainExtras(inputs, order) ==> Leq(k, q)
  }

  /** The same about the arguments: `opts` is passed last or not at all. */
  predicate OptsLast(slots: seq<Slot>) {
    forall i :: 0 <= i < |slots| - 1 ==> slots[i].Param?
  }

  // ----- slots of a key list -----

  lemma IndexOfKey(keys: seq<string>, k: string) returns (i: nat)
    requires k in keys
    ensures i < |keys| && keys[i] == k
  {
    i :| 0 <= i < |keys| && keys[i] == k;
  }


  lemma {:induction false} ArgSlotsAt(keys: seq<string>, inputs: map<string, string>)
    ensures |ArgSlots(keys, inputs)| == |keys|
    ensures forall i :: 0 <= i < |keys| ==>
              ArgSlots(keys, inputs)[i] == if ValueAt(inputs, keys[i]) == "query" then Opts else Param(keys[i])
  {
    if keys != [] {
      ArgSlotsAt(keys[1..], inputs);
      assert ArgSlots(keys, inputs)[1..] == ArgSlots(keys[1..], inputs);
    }
  }

  lemma {:induction false} ArgSlotsConcat(a: seq<string>, b: seq<string>, inputs: map<string, string>)
    ensures ArgSlots(a + b, inputs) == ArgSlots(a, inputs) + ArgSlots(b, inputs)
  {
    if a == [] {
      assert a + b == b;
    } else {
      assert (a + b)[1..] == a[1..] + b;
      ArgSlotsConcat(a[1..], b, inputs);
    }
  }

  lemma OptsLastTail(slots: seq<Slot>)
    requires OptsLast(slots) && |slots| >= 2
    ensures slots[0].Param? && OptsLast(slots[1..])
  {
    assert forall i :: 0 <= i < |slots| - 1 ==> slots[1..][i] == slots[i + 1];
  }

  /** Slots of a key list in which only the last key may be the query. */
  lemma {:induction false} DropQueryIsArgs(keys: seq<string>, inputs: map<string, string>)
    requires OptsLast(ArgSlots(keys, inputs))
    ensures DropQuery(keys, inputs) + (if keys != [] && ValueAt(inputs, keys[|keys| - 1]) == "query" then [Opts] else [])
      == ArgSlots(keys, inputs)
  {
    if |keys| == 1 {
      assert DropQuery(keys[1..], inputs) == [] && ArgSlots(keys[1..], inputs) == [];
    } else if keys != [] {
      var rest := keys[1..];
      ArgSlotsAt(rest, inputs);
      OptsLastTail(ArgSlots(keys, inputs));
      DropQueryIsArgs(rest, inputs);
      assert keys[|keys| - 1] == rest[|rest| - 1];
      PlainFirst(keys, inputs, if ValueAt(inputs, rest[|rest| - 1]) == "query" then [Opts] else []);
    }
  }

  lemma PlainFirst(keys: seq<string>, inputs: map<string, string>, last: seq<Slot>)
    requires keys != [] && ArgSlots(keys, inputs)[0].Param?
    requires DropQuery(keys[1..], inputs) + last == ArgSlots(keys[1..], inputs)
    ensures DropQuery(keys, inputs) + last == ArgSlots(keys, inputs)
  {
    assert [Param(keys[0])] + DropQuery(keys[1..], inputs) + last == [Param(keys[0])] + (DropQuery(keys[1..], inputs) + last);
  }

  lemma {:induction false} DropQueryParams(keys: seq<string>, inputs: map<string, string>)
    ensures forall i :: 0 <= i < |DropQuery(keys, inputs)| ==> DropQuery(keys, inputs)[i].Param?
  {
    if keys != [] { DropQueryParams(keys[1..], inputs); }
  }

  lemma {:induction false} DropSorted(s: set<string>, inputs: map<string, string>)
    requires s <= inputs.Keys
    ensures DropQuery(SortedKeys(s), inputs) == ArgSlots(SortedKeys(s - QueryKeys(inputs)), inputs)
  {
    if s != {} {
      var m, plain := Least(s), s - QueryKeys(inputs);
      var rest := SortedKeys(s - {m});
      DropSorted(s - {m}, inputs);
      assert SortedKeys(s) == [m] + rest && SortedKeys(s)[1..] == rest;
      if m in QueryKeys(inputs) {
        assert s - {m} - QueryKeys(inputs) == plain;
      } else {
        LeastOfPart(m, s, plain);
        assert s - {m} - QueryKeys(inputs) == plain - {m};
        assert SortedKeys(plain)[1..] == SortedKeys(plain - {m});
      }
    }
  }

  lemma LeastOfPart(m: string, s: set<string>, part: set<string>)
    requires IsLeast(m, s) && m in part && part <= s
    ensures Least(part) == m
  {
    LeastUnique(m, Least(part), part);
  }

  lemma ListingTail(listed: seq<string>, s: set<string>)
    requires IsListing(listed, s) && listed != []
    ensures listed[0] in s && IsListing(listed[1..], s - {listed[0]})
  {
    var rest := listed[1..];
    assert forall i :: 0 <= i < |rest| ==> rest[i] == listed[i + 1] && rest[i] != listed[0];
    assert listed == [listed[0]] + rest;
  }

  lemma SortedOfOne(s: set<string>, k: string)
    requires k in s && |s| <= 1
    ensures s == {k} && SortedKeys(s) == [k]
  {
    assert |s - {k}| == |s| - 1;
    assert s == {k} && Least(s) == k;
    assert s - {k} == {};
  }

  /** At most one plain key: any listing of the keys leaves the same slots. */
  lemma {:induction false} OnePlainKey(listed: seq<string>, s: set<string>, inputs: map<string, string>)
    requires IsListing(listed, s) && s <= inputs.Keys && |s - QueryKeys(inputs)| <= 1
    ensures DropQuery(listed, inputs) == ArgSlots(SortedKeys(s - QueryKeys(inputs)), inputs)
  {
    var plain := s - QueryKeys(inputs);
    if listed == [] {
      assert forall x :: x in s ==> x in listed;
      assert plain == {};
    } else {
      var k := listed[0];
      ListingTail(listed, s);
      var plainRest := s - {k} - QueryKeys(inputs);
      if inputs[k] == "query" {
        assert plainRest == plain;
      } else {
        SortedOfOne(plain, k);
        assert plainRest == {};
      }
      OnePlainKey(listed[1..], s - {k}, inputs);
    }
  }

  lemma SortedIsListing(s: set<string>)
    ensures IsListing(SortedKeys(s), s)
  {
    SortedKeysAscending(s);
  }

  // ----- sufficient -----

  lemma AgreesWithoutParams(inputs: map<string, string>)
    ensures DropQuery(SortedKeys(inputs.Keys), inputs) + (if HasQuery(inputs) then [Opts] else []) == CallSlots(inputs, [])
  {
    var plain, last := SortedKeys(inputs.Keys - QueryKeys(inputs)), LastQueryKey(inputs);
    DropSorted(inputs.Keys, inputs);
    ArgSlotsConcat(plain, last, inputs);
    LastQueryKeyIs(inputs);
    QueryPresent(inputs);
    assert QueryKeys(inputs) != {} ==> last == [last[0]];
  }

  lemma QueryPresent(inputs: map<string, string>)
    ensures HasQuery(inputs) <==> QueryKeys(inputs) != {}
  {
    if k :| k in inputs && inputs[k] == "query" { assert k in QueryKeys(inputs); }
  }

  lemma AgreesWithParams(inputs: map<string, string>, order: seq<string>, listed: seq<string>)
    requires order != [] && IsListing(listed, inputs.Keys - Elements(order))
    requires |PlainExtras(inputs, order)| <= 1 && OptsLast(CallSlots(inputs, order))
    ensures InterfaceSlots(inputs, order, listed) == CallSlots(inputs, order)
  {
    var extra, supplied, keys := inputs.Keys - Elements(order), Supplied(order, inputs), CallKeys(inputs, order);
    SortedIsListing(extra);
    OnePlainKey(listed, extra, inputs);
    OnePlainKey(SortedKeys(extra), extra, inputs);
    DropQueryConcat(supplied, listed, inputs);
    DropQueryConcat(supplied, SortedKeys(extra), inputs);
    DropQueryIsArgs(keys, inputs);
    LastIsQuery(inputs, order);
  }

  lemma LastIsQuery(inputs: map<string, string>, order: seq<string>)
    requires order != [] && OptsLast(CallSlots(inputs, order))
    ensures
      var keys := CallKeys(inputs, order);
      HasQuery(inputs) <==> keys != [] && ValueAt(inputs, keys[|keys| - 1]) == "query"
  {
    KeysCover(inputs, order);
    LastOfKeys(inputs, CallKeys(inputs, order));
  }

  lemma LastOfKeys(inputs: map<string, string>, keys: seq<string>)
    requires OptsLast(ArgSlots(keys, inputs)) && forall k :: k in keys <==> k in inputs
    ensures HasQuery(inputs) <==> keys != [] && ValueAt(inputs, keys[|keys| - 1]) == "query"
  {
    ArgSlotsAt(keys, inputs);
    if HasQuery(inputs) {
      var k :| k in inputs && inputs[k] == "query";
      var i := IndexOfKey(keys, k);
    }
    if keys != [] { assert keys[|keys| - 1] in keys; }
  }

  // ----- necessary -----

  /** A listing that starts with a given key. */
  lemma ListingFrom(k: string, s: set<string>)
    requires k in s
    ensures IsListing([k] + SortedKeys(s - {k}), s)
  {
    SortedIsListing(s - {k});
    ConcatDistinct([k], SortedKeys(s - {k}));
  }

  lemma FirstSlot(inputs: map<string, string>, order: seq<string>, k: string) returns (listed: seq<string>)
    requires order != [] && k in PlainExtras(inputs, order)
    ensures IsListing(listed, inputs.Keys - Elements(order))
    ensures
      var slots, n := InterfaceSlots(inputs, order, listed), |DropQuery(Supplied(order, inputs), inputs)|;
      |slots| > n && slots[n] == Param(k)
  {
    var extra := inputs.Keys - Elements(order);
    listed := [k] + SortedKeys(extra - {k});
    ListingFrom(k, extra);
    DropQueryConcat(Supplied(order, inputs), listed, inputs);
    assert listed[0] == k && DropQuery(listed, inputs)[0] == Param(k);
  }

  lemma TwoPlainExtras(inputs: map<string, string>, order: seq<string>)
    requires order != [] && |PlainExtras(inputs, order)| > 1
    ensures !Agree(inputs, order)
  {
    var plain := PlainExtras(inputs, order);
    var j :| j in plain;
    assert |plain - {j}| == |plain| - 1;
    var k :| k in plain - {j};
    var listedJ := FirstSlot(inputs, order, j);
    var listedK := FirstSlot(inputs, order, k);
    assert InterfaceSlots(inputs, order, listedJ) != InterfaceSlots(inputs, order, listedK);
  }

  /** In the interface only the last slot can be `opts`. */
  lemma OptsOnlyLast(inputs: map<string, string>, order: seq<string>, listed: seq<string>)
    requires order != [] && IsListing(listed, inputs.Keys - Elements(order))
    ensures OptsLast(InterfaceSlots(inputs, order, listed))
  {
    DropQueryParams(Supplied(order, inputs) + listed, inputs);
  }

  // ----- the condition on the inputs -----

  /** Supplied keeps the order of the parameters. */
  lemma {:induction false} SuppliedInOrder(order: seq<string>, inputs: map<string, string>, i: nat, j: nat) returns (a: nat, b: nat)
    requires i < j < |order| && order[i] in inputs && order[j] in inputs
    ensures a < b < |Supplied(order, inputs)| && Supplied(order, inputs)[a] == order[i] && Supplied(order, inputs)[b] == order[j]
  {
    var rest := order[1..];
    var supplied := Supplied(rest, inputs);
    if i > 0 {
      var c, d := SuppliedInOrder(rest, inputs, i - 1, j - 1);
      var n := if order[0] in inputs then 1 else 0;
      a, b := c + n, d + n;
    } else {
      SuppliedContains(rest, inputs);
      assert rest[j - 1] in rest;
      a := 0;
      var c := IndexOfKey(supplied, order[j]);
      b := c + 1;
      assert Supplied(order, inputs) == [order[0]] + supplied;
    }
  }

  /** And comes from it in that order. */
  lemma {:induction false} SuppliedFrom(order: seq<string>, inputs: map<string, string>, a: nat, b: nat) returns (i: nat, j: nat)
    requires a < b < |Supplied(order, inputs)|
    ensures i < j < |order| && order[i] == Supplied(order, inputs)[a] && order[j] == Supplied(order, inputs)[b] && order[j] in inputs
  {
    var rest := order[1..];
    var n := if order[0] in inputs then 1 else 0;
    assert Supplied(order, inputs)[n..] == Supplied(rest, inputs);
    if a >= n {
      i, j := SuppliedFrom(rest, inputs, a - n, b - n);
      i, j := i + 1, j + 1;
    } else {
      SuppliedContains(rest, inputs);
      assert Supplied(rest, inputs)[b - 1] in Supplied(rest, inputs);
      i := 0;
      var c :| 0 <= c < |rest| && rest[c] == Supplied(rest, inputs)[b - 1];
      j := c + 1;
    }
  }

  lemma SuppliedThenSupplied(inputs: map<string, string>, order: seq<string>, i: nat)
    requires i + 1 < |Supplied(order, inputs)| && Supplied(order, inputs)[i] in QueryKeys(inputs)
    ensures !QueryLast(inputs, order)
  {
    var a, b := SuppliedFrom(order, inputs, i, i + 1);
    assert order[a] in Elements(order) && !SuppliedLast(order[a], inputs, order);
  }

  lemma SuppliedThenExtra(inputs: map<string, string>, order: seq<string>, q: string)
    requires q in Supplied(order, inputs) && q in QueryKeys(inputs) && SortedKeys(inputs.Keys - Elements(order)) != []
    ensures !QueryLast(inputs, order)
  {
    var extra := inputs.Keys - Elements(order);
    SuppliedContains(order, inputs);
    SortedKeysAre(extra);
    assert SortedKeys(extra)[0] in SortedKeys(extra);
    var i :| 0 <= i < |order| && order[i] == q;
    assert q in Elements(order);
  }

  /** A query value that is not the last argument breaks the condition on the inputs. */
  lemma QueryEarly(inputs: map<string, string>, order: seq<string>, i: nat)
    requires order != [] && i < |CallKeys(inputs, order)| - 1 && CallKeys(inputs, order)[i] in QueryKeys(inputs)
    ensures !QueryLast(inputs, order)
  {
    var keys, supplied, extras := CallKeys(inputs, order), Supplied(order, inputs), SortedKeys(inputs.Keys - Elements(order));
    assert keys == supplied + extras;
    if i + 1 < |supplied| {
      SuppliedThenSupplied(inputs, order, i);
    } else if i < |supplied| {
      assert keys[i] == supplied[i] && supplied[i] in supplied;
      SuppliedThenExtra(inputs, order, keys[i]);
    } else {
      NextAfterQuery(inputs, order, keys[i], keys[i + 1], i - |supplied|);
    }
  }

  lemma NextAfterQuery(inputs: map<string, string>, order: seq<string>, q: string, next: string, a: nat)
    requires
      var keys := SortedKeys(inputs.Keys - Elements(order));
      a + 1 < |keys| && keys[a] == q && keys[a + 1] == next
    requires q in QueryKeys(inputs)
    ensures !QueryLast(inputs, order)
  {
    var extra := inputs.Keys - Elements(order);
    SortedKeysAscending(extra);
    assert SortedKeys(extra)[a] in SortedKeys(extra) && SortedKeys(extra)[a + 1] in SortedKeys(extra);
    assert next != q && next in extra;
    if next in QueryKeys(inputs) {
      TwoElements(QueryKeys(inputs), q, next);
    } else if Leq(next, q) {
      LeqAntisymmetric(q, next);
    }
    assert next !in QueryKeys(inputs) ==> next in PlainExtras(inputs, order);
  }

  lemma TwoElements(s: set<string>, a: string, b: string)
    requires a in s && b in s && a != b
    ensures |s| >= 2
  {
    assert |s - {a}| == |s| - 1 && b in s - {a};
  }

  /** A query value is the last argument: then there is one at most. */
  lemma QueryIsLast(inputs: map<string, string>, order: seq<string>, q: string)
    requires order != [] && OptsLast(CallSlots(inputs, order)) && q in QueryKeys(inputs)
    ensures CallKeys(inputs, order) != [] && CallKeys(inputs, order)[|CallKeys(inputs, order)| - 1] == q
  {
    KeysCover(inputs, order);
    LastArg(CallKeys(inputs, order), inputs, q);
  }

  lemma LastArg(keys: seq<string>, inputs: map<string, string>, q: string)
    requires OptsLast(ArgSlots(keys, inputs)) && q in keys && ValueAt(inputs, q) == "query"
    ensures keys[|keys| - 1] == q
  {
    ArgSlotsAt(keys, inputs);
    var i := IndexOfKey(keys, q);
  }

  lemma OneQueryOnly(inputs: map<string, string>, order: seq<string>)
    requires order != [] && OptsLast(CallSlots(inputs, order))
    ensures |QueryKeys(inputs)| <= 1
  {
    if q :| q in QueryKeys(inputs) {
      QueryIsLast(inputs, order, q);
      forall r | r in QueryKeys(inputs) ensures r == q { QueryIsLast(inputs, order, r); }
      assert QueryKeys(inputs) == {q};
    }
  }

  lemma QueryNotEarly(inputs: map<string, string>, order: seq<string>, i: nat)
    requires order != [] && OptsLast(CallSlots(inputs, order))
    requires i < |Supplied(order, inputs)| && Supplied(order, inputs)[i] in QueryKeys(inputs)
    ensures i == |CallKeys(inputs, order)| - 1
  {
    var keys := CallKeys(inputs, order);
    ArgSlotsAt(keys, inputs);
    assert keys[i] == Supplied(order, inputs)[i];
  }

  lemma SuppliedQueryLast(inputs: map<string, string>, order: seq<string>, q: string)
    requires order != [] && OptsLast(CallSlots(inputs, order)) && q in QueryKeys(inputs) && q in Elements(order)
    ensures inputs.Keys <= Elements(order) && SuppliedLast(q, inputs, order)
  {
    var keys, supplied, extra := CallKeys(inputs, order), Supplied(order, inputs), inputs.Keys - Elements(order);
    ArgSlotsAt(keys, inputs);
    SuppliedContains(order, inputs);
    SortedKeysAre(extra);
    var i := IndexOfKey(supplied, q);
    assert keys[i] == q;
    if a, b :| 0 <= a < b < |order| && order[a] == q && order[b] in inputs {
      var c, d := SuppliedInOrder(order, inputs, a, b);
      QueryNotEarly(inputs, order, c);
      assert false;
    }
    assert |SortedKeys(extra)| == 0;
    assert extra == {};
  }

  lemma ExtraQueryLast(inputs: map<string, string>, order: seq<string>, q: string, k: string)
    requires order != [] && OptsLast(CallSlots(inputs, order)) && q in QueryKeys(inputs) && q !in Elements(order)
    requires k in PlainExtras(inputs, order)
    ensures Leq(k, q)
  {
    var keys, supplied, extra := CallKeys(inputs, order), Supplied(order, inputs), inputs.Keys - Elements(order);
    ArgSlotsAt(keys, inputs);
    SortedKeysAscending(extra);
    var i := IndexOfKey(SortedKeys(extra), q);
    var j := IndexOfKey(SortedKeys(extra), k);
    assert keys[|supplied| + i] == q;
  }

  /** `opts` is the last argument exactly under the condition on the inputs. */
  lemma QueryLastExact(inputs: map<string, string>, order: seq<string>)
    requires order != [] && |PlainExtras(inputs, order)| <= 1
    ensures QueryLast(inputs, order) <==> OptsLast(CallSlots(inputs, order))
  {
    var keys := CallKeys(inputs, order);
    ArgSlotsAt(keys, inputs);
    if !OptsLast(CallSlots(inputs, order)) {
      var i :| 0 <= i < |keys| - 1 && !CallSlots(inputs, order)[i].Param?;
      KeysCover(inputs, order);
      assert keys[i] in keys;
      QueryEarly(inputs, order, i);
    } else {
      OneQueryOnly(inputs, order);
      forall q | q in QueryKeys(inputs)
        ensures if q in Elements(order) then inputs.Keys <= Elements(order) && SuppliedLast(q, inputs, order)
                else forall k :: k in PlainExtras(inputs, order) ==> Leq(k, q)
      {
        if q in Elements(order) {
          SuppliedQueryLast(inputs, order, q);
        } else {
          forall k | k in PlainExtras(inputs, order) ensures Leq(k, q) { ExtraQueryLast(inputs, order, q, k); }
        }
      }
    }
  }

  // ----- main results -----

  lemma AgreeOnlyIfLast(inputs: map<string, string>, order: seq<string>)
    requires order != [] && !OptsLast(CallSlots(inputs, order))
    ensures !Agree(inputs, order)
  {
    var extra := inputs.Keys - Elements(order);
    SortedIsListing(extra);
    OptsOnlyLast(inputs, order, SortedKeys(extra));
  }

  /** Exactly when call and interface agree for every iteration order of the map. */
  lemma AgreeExact(inputs: map<string, string>, order: seq<string>)
    ensures Agree(inputs, order) <==> order == [] || (|PlainExtras(inputs, order)| <= 1 && QueryLast(inputs, order))
  {
    if order == [] {
      AgreesWithoutParams(inputs);
    } else if |PlainExtras(inputs, order)| > 1 {
      TwoPlainExtras(inputs, order);
    } else {
      QueryLastExact(inputs, order);
      if !OptsLast(CallSlots(inputs, order)) {
        AgreeOnlyIfLast(inputs, order);
      } else {
        forall listed | IsListing(listed, inputs.Keys - Elements(order))
          ensures InterfaceSlots(inputs, order, listed) == CallSlots(inputs, order)
        {
          AgreesWithParams(inputs, order, listed);
        }
      }
    }
  }

  /** The documented situation: at most one key outside the parameters, and no query among them. */
  lemma AgreeWhenOneExtra(inputs: map<string, string>, order: seq<string>)
    requires |inputs.Keys - Elements(order)| <= 1 && QueryKeys(inputs) !! Elements(order)
    ensures Agree(inputs, order)
  {
    var extra, query := inputs.Keys - Elements(order), QueryKeys(inputs);
    FewOf(PlainExtras(inputs, order), extra);
    FewOf(query, extra);
    if q :| q in query { FewOf({q}, extra); }
    AgreeExact(inputs, order);
  }

  lemma FewOf(some: set<string>, s: set<string>)
    requires some <= s && |s| <= 1
    ensures |some| <= 1 && (some != {} ==> some == s)
  {
    if x :| x in some {
      assert |s - {x}| == |s| - 1;
      assert some == {x} == s;
    }
  }

  /** Two keys outside the parameters: the interface may list them either way. */
  lemma TwoExtrasDisagree()
    ensures !Agree(map["ID" := "request.ID", "Name" := "request.Name", "Role" := "request.Role"], ["ID"])
  {
    var inputs, order := map["ID" := "request.ID", "Name" := "request.Name", "Role" := "request.Role"], ["ID"];
    assert order[0] == "ID" && Elements(order) == {"ID"};
    assert QueryKeys(inputs) == {} && PlainExtras(inputs, order) == {"Name", "Role"};
    AgreeExact(inputs, order);
  }

  /** A query listed before another parameter: the interface moves it to the end, the call does not. */
  lemma QueryFirstDisagrees()
    ensures !Agree(map["Opts" := "query", "ID" := "request.ID"], ["Opts", "ID"])
  {
    var inputs, order := map["Opts" := "query", "ID" := "request.ID"], ["Opts", "ID"];
    assert order[0] == "Opts" && order[1] == "ID" && "Opts" in Elements(order);
    assert "Opts" in QueryKeys(inputs) && !SuppliedLast("Opts", inputs, order);
    AgreeExact(inputs, order);
  }
}
