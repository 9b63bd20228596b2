/** Which of two arguments of a generated call comes first. */
module CallPrecedence {
  import opened SequenceDsl
  import opened CallOrder
  import opened CallAgreement

  /** Ascending order of texts: a proper beginning first, otherwise by the first character that differs. */
  predicate Ascends(a: string, b: string) {
    a < b || exists k :: 0 <= k < |a| && k < |b| && a[..k] == b[..k] && a[k] < b[k]
  }

  lemma {:induction false} LeqMeans(a: string, b: string)
    ensures Leq(a, b) <==> a == b || Ascends(a, b)
  {
    if a == [] {
      assert a <= b;
    } else if b == [] {
    } else if a[0] != b[0] {
      DifferFirst(a, b);
    } else {
      LeqMeans(a[1..], b[1..]);
      SameFirst(a, b);
    }
  }

  lemma SameBeginning(a: string, b: string, k: nat)
    requires k <= |a| && k <= |b| && a[..k] == b[..k]
    ensures k > 0 ==> a[0] == b[0]
  {
    if k > 0 { assert a[..k][0] == b[..k][0]; }
  }

  lemma DifferFirst(a: string, b: string)
    requires a != [] && b != [] && a[0] != b[0]
    ensures Ascends(a, b) <==> a[0] < b[0]
  {
    if a[0] < b[0] { assert a[..0] == b[..0]; }
    if k :| 0 <= k < |a| && k < |b| && a[..k] == b[..k] && a[k] < b[k] {
      SameBeginning(a, b, k);
    }
  }

  lemma SameFirst(a: string, b: string)
    requires a != [] && b != [] && a[0] == b[0]
    ensures Ascends(a, b) <==> Ascends(a[1..], b[1..])
    ensures a == b <==> a[1..] == b[1..]
  {
    var c, d := a[1..], b[1..];
    assert a == [a[0]] + c && b == [b[0]] + d;
    if k :| 0 <= k < |a| && k < |b| && a[..k] == b[..k] && a[k] < b[k] {
      assert a[..k][1..] == c[..k - 1] && b[..k][1..] == d[..k - 1];
      assert c[k - 1] < d[k - 1];
    }
    if k :| 0 <= k < |c| && k < |d| && c[..k] == d[..k] && c[k] < d[k] {
      assert a[..k + 1] == [a[0]] + c[..k] && b[..k + 1] == [b[0]] + d[..k];
      assert a[k + 1] < b[k + 1];
    }
  }

  // ----- positions -----

  predicate Precedes(keys: seq<string>, a: string, b: string) {
    exists i, j :: 0 <= i < j < |keys| && keys[i] == a && keys[j] == b
  }

  /** The rule: parameters in their own order, before all other keys; the others ascending; and where the parameters
      are not known, ascending with the query last. */
  predicate ComesFirst(inputs: map<string, string>, order: seq<string>, a: string, b: string)
    requires a in inputs && b in inputs
  {
    if order == [] then inputs[a] != "query" && (inputs[b] == "query" || Ascends(a, b))
    else if b in order then Precedes(order, a, b)
    else a in order || Ascends(a, b)
  }

  lemma SortedPrecedes(s: set<string>, a: string, b: string)
    requires a in s && b in s && Ascends(a, b)
    ensures Precedes(SortedKeys(s), a, b)
  {
    SortedKeysAscending(s);
    var keys := SortedKeys(s);
    var i := IndexOfKey(keys, a);
    var j := IndexOfKey(keys, b);
    NotBoth(a, b);
    LeqMeans(keys[j], keys[i]);
  }

  lemma NotBoth(a: string, b: string)
    requires Ascends(a, b)
    ensures a != b && !Ascends(b, a)
  {
    LeqMeans(a, b);
    LeqMeans(b, a);
    if k :| 0 <= k < |a| && k < |b| && a[..k] == b[..k] && a[k] < b[k] {
      assert a != b;
    }
    if Ascends(b, a) { LeqAntisymmetric(a, b); }
  }

  lemma InConcat(x: seq<string>, y: seq<string>, a: string, b: string)
    ensures Precedes(x, a, b) || Precedes(y, a, b) || (a in x && b in y) ==> Precedes(x + y, a, b)
  {
    var z := x + y;
    if i, j :| 0 <= i < j < |x| && x[i] == a && x[j] == b {
      assert z[i] == a && z[j] == b;
    }
    if i, j :| 0 <= i < j < |y| && y[i] == a && y[j] == b {
      assert z[|x| + i] == a && z[|x| + j] == b;
    }
    if a in x && b in y {
      var i := IndexOfKey(x, a);
      var j := IndexOfKey(y, b);
      assert z[i] == a && z[|x| + j] == b;
    }
  }

  lemma SuppliedPrecedes(inputs: map<string, string>, order: seq<string>, a: string, b: string)
    requires a in inputs && b in inputs && Precedes(order, a, b)
    ensures Precedes(Supplied(order, inputs), a, b)
  {
    var i, j :| 0 <= i < j < |order| && order[i] == a && order[j] == b;
    var p, q := SuppliedInOrder(order, inputs, i, j);
  }

  lemma InOrder(order: seq<string>, x: string)
    ensures x in order <==> x in Elements(order)
  {
    if x in order {
      var i := IndexOfKey(order, x);
    }
  }

  lemma FirstPrecedes(inputs: map<string, string>, order: seq<string>, a: string, b: string)
    requires |QueryKeys(inputs)| <= 1 && a in inputs && b in inputs && a != b && ComesFirst(inputs, order, a, b)
    ensures Precedes(CallKeys(inputs, order), a, b)
  {
    if order == [] {
      WithoutOrder(inputs, a, b);
    } else {
      var extras := inputs.Keys - Elements(order);
      SuppliedContains(order, inputs);
      SortedKeysAre(extras);
      InOrder(order, a);
      InOrder(order, b);
      if b in order {
        SuppliedPrecedes(inputs, order, a, b);
      } else if a !in order {
        SortedPrecedes(extras, a, b);
      }
      InConcat(Supplied(order, inputs), SortedKeys(extras), a, b);
    }
  }

  lemma WithoutOrder(inputs: map<string, string>, a: string, b: string)
    requires |QueryKeys(inputs)| <= 1 && a in inputs && b in inputs && a != b && ComesFirst(inputs, [], a, b)
    ensures Precedes(CallKeys(inputs, []), a, b)
  {
    var plain := inputs.Keys - QueryKeys(inputs);
    SortedKeysAre(plain);
    OneQueryKey(inputs);
    if inputs[b] != "query" {
      SortedPrecedes(plain, a, b);
    }
    InConcat(SortedKeys(plain), LastQueryKey(inputs), a, b);
  }

  /** Of two different keys one comes first. */
  lemma OneComesFirst(inputs: map<string, string>, order: seq<string>, a: string, b: string)
    requires |QueryKeys(inputs)| <= 1 && a in inputs && b in inputs && a != b
    ensures ComesFirst(inputs, order, a, b) || ComesFirst(inputs, order, b, a)
  {
    LeqTotal(a, b);
    LeqMeans(a, b);
    LeqMeans(b, a);
    if order == [] {
      if inputs[a] == "query" && inputs[b] == "query" { TwoElements(QueryKeys(inputs), a, b); }
    } else if a in order && b in order {
      var i := IndexOfKey(order, a);
      var j := IndexOfKey(order, b);
      assert Precedes(order, a, b) || Precedes(order, b, a);
    }
  }

  /** The arguments of a call come exactly in the order of the rule. */
  lemma OrderExact(inputs: map<string, string>, order: seq<string>, a: string, b: string)
    requires NoDuplicates(order) && |QueryKeys(inputs)| <= 1 && a in inputs && b in inputs && a != b
    ensures Precedes(CallKeys(inputs, order), a, b) <==> ComesFirst(inputs, order, a, b)
  {
    ArgumentsAreInputs(inputs, order);
    OneComesFirst(inputs, order, a, b);
    if ComesFirst(inputs, order, a, b) {
      FirstPrecedes(inputs, order, a, b);
    } else {
      FirstPrecedes(inputs, order, b, a);
    }
  }

  // ----- the derived interface -----

  predicate SlotPrecedes(slots: seq<Slot>, a: Slot, b: Slot) {
    exists i, j :: 0 <= i < j < |slots| && slots[i] == a && slots[j] == b
  }

  lemma {:induction false} DropQueryAre(keys: seq<string>, inputs: map<string, string>, k: string)
    ensures Param(k) in DropQuery(keys, inputs) <==> k in keys && ValueAt(inputs, k) != "query"
    ensures Opts !in DropQuery(keys, inputs)
  {
    if keys != [] {
      DropQueryAre(keys[1..], inputs, k);
      assert keys == [keys[0]] + keys[1..];
    }
  }

  lemma SlotsInConcat(x: seq<Slot>, y: seq<Slot>, a: Slot, b: Slot)
    ensures SlotPrecedes(y, a, b) || (x == [a] && b in y) ==> SlotPrecedes(x + y, a, b)
  {
    var z := x + y;
    if i, j :| 0 <= i < j < |y| && y[i] == a && y[j] == b {
      assert z[|x| + i] == a && z[|x| + j] == b;
    }
    if x == [a] && b in y {
      var j :| 0 <= j < |y| && y[j] == b;
      assert z[0] == a && z[1 + j] == b;
    }
  }

  lemma {:induction false} DropQueryPrecedes(keys: seq<string>, inputs: map<string, string>, i: nat, j: nat)
    requires i < j < |keys| && ValueAt(inputs, keys[i]) != "query" && ValueAt(inputs, keys[j]) != "query"
    ensures SlotPrecedes(DropQuery(keys, inputs), Param(keys[i]), Param(keys[j]))
  {
    var rest := keys[1..];
    if i > 0 {
      DropQueryPrecedes(rest, inputs, i - 1, j - 1);
    } else {
      DropQueryAre(rest, inputs, keys[j]);
      assert rest[j - 1] == keys[j];
    }
    SlotsInConcat(if ValueAt(inputs, keys[0]) == "query" then [] else [Param(keys[0])], DropQuery(rest, inputs), Param(keys[i]), Param(keys[j]));
  }

  /** The parameters of a derived interface method: one for every input that is no query, listed ones in the order of
      the parameter list, and `opts` exactly when there is a query, after all of them. */
  lemma InterfaceExact(inputs: map<string, string>, order: seq<string>, listed: seq<string>, k: string)
    requires IsListing(listed, inputs.Keys - Elements(order))
    ensures
      var slots := InterfaceSlots(inputs, order, listed);
      && (Param(k) in slots <==> k in inputs && inputs[k] != "query")
      && (Opts in slots <==> exists q :: q in inputs && inputs[q] == "query")
      && (forall i :: 0 <= i < |slots| - 1 ==> slots[i] != Opts)
  {
    var keys := if order != [] then Supplied(order, inputs) + listed else SortedKeys(inputs.Keys);
    SuppliedContains(order, inputs);
    SortedKeysAre(inputs.Keys);
    InOrder(order, k);
    DropQueryAre(keys, inputs, k);
    assert k in keys <==> k in inputs;
  }

  lemma InterfaceOrder(inputs: map<string, string>, order: seq<string>, listed: seq<string>, a: string, b: string)
    requires order != [] && IsListing(listed, inputs.Keys - Elements(order)) && Precedes(order, a, b)
    requires a in inputs && b in inputs && inputs[a] != "query" && inputs[b] != "query"
    ensures SlotPrecedes(InterfaceSlots(inputs, order, listed), Param(a), Param(b))
  {
    var keys := Supplied(order, inputs) + listed;
    SuppliedPrecedes(inputs, order, a, b);
    InConcat(Supplied(order, inputs), listed, a, b);
    var i, j :| 0 <= i < j < |keys| && keys[i] == a && keys[j] == b;
    DropQueryPrecedes(keys, inputs, i, j);
    var front := DropQuery(keys, inputs);
    var p, q :| 0 <= p < q < |front| && front[p] == Param(a) && front[q] == Param(b);
    var slots := InterfaceSlots(inputs, order, listed);
    assert slots[p] == front[p] && slots[q] == front[q];
  }
}
