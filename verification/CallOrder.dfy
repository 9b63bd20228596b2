/** Order of positional arguments: at the call site, and in the model interface derived
    separately from the same inputs. */
module CallOrder {
  import opened SequenceDsl

  // ----- sorted keys -----

  predicate Leq(a: string, b: string) {
    if a == [] then true
    else if b == [] then false
    else if a[0] != b[0] then a[0] < b[0]
    else Leq(a[1..], b[1..])
  }

  lemma {:induction a, b} LeqTotal(a: string, b: string)
    ensures Leq(a, b) || Leq(b, a)
  {
  }

  lemma {:induction a, b} LeqAntisymmetric(a: string, b: string)
    requires Leq(a, b) && Leq(b, a)
    ensures a == b
  {
    if a != [] {
      LeqAntisymmetric(a[1..], b[1..]);
      assert a == [a[0]] + a[1..] && b == [b[0]] + b[1..];
    }
  }

  lemma {:induction false} LeqTransitive(a: string, b: string, c: string)
    requires Leq(a, b) && Leq(b, c)
    ensures Leq(a, c)
  {
    if a != [] && a[0] == b[0] && b[0] == c[0] {
      LeqTransitive(a[1..], b[1..], c[1..]);
    }
  }

  predicate IsLeast(m: string, s: set<string>) {
    m in s && forall x :: x in s ==> Leq(m, x)
  }

  lemma {:induction false} LeastExists(s: set<string>)
    requires s != {}
    ensures exists m :: IsLeast(m, s)
  {
    var m :| m in s;
    LeqTotal(m, m);
    if s == {m} {
      assert IsLeast(m, s);
    } else {
      LeastExists(s - {m});
      var n :| IsLeast(n, s - {m});
      LeqTotal(m, n);
      if Leq(n, m) {
        assert IsLeast(n, s);
      } else {
        forall x | x in s ensures Leq(m, x) {
          if x != m { LeqTransitive(m, n, x); }
        }
        assert IsLeast(m, s);
      }
    }
  }

  ghost function Least(s: set<string>): (m: string)
    requires s != {}
    ensures IsLeast(m, s)
  {
    LeastExists(s);
    var m :| IsLeast(m, s);
    m
  }

  lemma LeastUnique(m: string, n: string, s: set<string>)
    requires IsLeast(m, s) && IsLeast(n, s)
    ensures m == n
  {
    LeqAntisymmetric(m, n);
  }

  /** What sort.Strings makes of the keys of a map, in whatever order they were collected. */
  ghost function SortedKeys(s: set<string>): seq<string> {
    if s == {} then [] else [Least(s)] + SortedKeys(s - {Least(s)})
  }

  predicate NoDuplicates(keys: seq<string>) {
    forall i, j :: 0 <= i < j < |keys| ==> keys[i] != keys[j]
  }

  lemma {:induction false} SortedKeysAre(s: set<string>)
    ensures forall k :: k in SortedKeys(s) <==> k in s
    ensures |SortedKeys(s)| == |s|
  {
    if s != {} { SortedKeysAre(s - {Least(s)}); }
  }

  lemma {:induction false} SortedKeysAscending(s: set<string>)
    ensures forall k :: k in SortedKeys(s) <==> k in s
    ensures NoDuplicates(SortedKeys(s))
    ensures forall i, j :: 0 <= i < j < |SortedKeys(s)| ==> Leq(SortedKeys(s)[i], SortedKeys(s)[j])
  {
    SortedKeysAre(s);
    if s != {} {
      var rest := s - {Least(s)};
      SortedKeysAscending(rest);
      var keys := SortedKeys(s);
      assert keys[1..] == SortedKeys(rest);
      forall i, j | 0 <= i < j < |keys|
        ensures keys[i] != keys[j] && Leq(keys[i], keys[j])
      {
        assert keys[j] == SortedKeys(rest)[j - 1] && keys[j] in SortedKeys(rest);
        if i > 0 { assert keys[i] == SortedKeys(rest)[i - 1]; }
      }
    }
  }

  method SortKeys(s: set<string>) returns (keys: seq<string>)
    ensures keys == SortedKeys(s)
  {
    keys := [];
    var rest := s;
    while rest != {}
      invariant keys + SortedKeys(rest) == SortedKeys(s)
      decreases rest
    {
      var k := LeastKey(rest);
      LeastUnique(k, Least(rest), rest);
      keys := keys + [k];
      rest := rest - {k};
    }
  }

  method LeastKey(s: set<string>) returns (m: string)
    requires s != {}
    ensures IsLeast(m, s)
  {
    m :| m in s;
    LeqTotal(m, m);
    var rest := s - {m};
    while rest != {}
      invariant m in s && rest <= s
      invariant forall x :: x in s - rest ==> Leq(m, x)
      decreases rest
    {
      var k :| k in rest;
      if !Leq(m, k) {
        LeqTotal(m, k);
        LeqTotal(k, k);
        forall x | x in s - rest ensures Leq(k, x) { LeqTransitive(k, m, x); }
        m := k;
      }
      rest := rest - {k};
    }
  }

  // ----- the call site -----

  /** Reading a Go map: the empty text for a missing key. */
  function ValueAt(inputs: map<string, string>, key: string): string {
    if key in inputs then inputs[key] else ""
  }


  /** Parameters that the inputs supply, in parameter order. */
  function Supplied(order: seq<string>, inputs: map<string, string>): seq<string> {
    if order == [] then []
    else (if order[0] in inputs then [order[0]] else []) + Supplied(order[1..], inputs)
  }

  function Elements(order: seq<string>): set<string> {
    set i | 0 <= i < |order| :: order[i]
  }

  function QueryKeys(inputs: map<string, string>): set<string> {
    set k | k in inputs && inputs[k] == "query"
  }

  /** With no parameter order only one query key is kept. The code keeps the one its map iteration
      meets last; the model keeps the last in string order. */
  ghost function LastQueryKey(inputs: map<string, string>): seq<string> {
    var keys := SortedKeys(QueryKeys(inputs));
    if keys == [] then [] else [keys[|keys| - 1]]
  }

  /** Keys of the inputs in the order the generated call passes their values. */
  ghost function CallKeys(inputs: map<string, string>, order: seq<string>): seq<string> {
    if order != [] then Supplied(order, inputs) + SortedKeys(inputs.Keys - Elements(order))
    else SortedKeys(inputs.Keys - QueryKeys(inputs)) + LastQueryKey(inputs)
  }

  lemma {:induction false} SuppliedContains(order: seq<string>, inputs: map<string, string>)
    ensures forall k :: k in Supplied(order, inputs) <==> k in order && k in inputs
  {
    if order != [] {
      SuppliedContains(order[1..], inputs);
      assert order == [order[0]] + order[1..];
    }
  }

  lemma CallKeysAreInputs(inputs: map<string, string>, order: seq<string>)
    ensures forall k :: k in CallKeys(inputs, order) ==> k in inputs
  {
    SuppliedContains(order, inputs);
    SortedKeysAre(inputs.Keys - Elements(order));
    SortedKeysAre(inputs.Keys - QueryKeys(inputs));
    LastQueryKeyIs(inputs);
  }

  lemma LastQueryKeyIs(inputs: map<string, string>)
    ensures if QueryKeys(inputs) == {} then LastQueryKey(inputs) == []
            else |LastQueryKey(inputs)| == 1 && LastQueryKey(inputs)[0] in QueryKeys(inputs)
  {
    var keys := SortedKeys(QueryKeys(inputs));
    SortedKeysAre(QueryKeys(inputs));
    if keys != [] { assert keys[|keys| - 1] in keys; }
  }

  lemma {:induction false} SuppliedAppend(order: seq<string>, p: string, inputs: map<string, string>)
    ensures Supplied(order + [p], inputs) == Supplied(order, inputs) + (if p in inputs then [p] else [])
  {
    if order == [] {
      assert [p][1..] == [];
    } else {
      assert (order + [p])[1..] == order[1..] + [p];
      SuppliedAppend(order[1..], p, inputs);
    }
  }

  method CollectSupplied(order: seq<string>, inputs: map<string, string>) returns (keys: seq<string>, used: set<string>)
    ensures keys == Supplied(order, inputs)
    ensures used == Elements(order) * inputs.Keys
  {
    keys, used := [], {};
    for i := 0 to |order|
      invariant keys == Supplied(order[..i], inputs)
      invariant used == Elements(order[..i]) * inputs.Keys
    {
      SuppliedAppend(order[..i], order[i], inputs);
      assert order[..i + 1] == order[..i] + [order[i]];
      assert Elements(order[..i + 1]) == Elements(order[..i]) + {order[i]};
      if order[i] in inputs {
        keys := keys + [order[i]];
        used := used + {order[i]};
      }
    }
    assert order[..|order|] == order;
  }

  /** buildArgsCodeFromInputs: the order of the arguments. */
  method BuildCallKeys(inputs: map<string, string>, order: seq<string>) returns (keys: seq<string>)
    ensures keys == CallKeys(inputs, order)
  {
    if |order| > 0 {
      var used;
      keys, used := CollectSupplied(order, inputs);
      var extra := SortKeys(inputs.Keys - used);
      assert inputs.Keys - used == inputs.Keys - Elements(order);
      keys := keys + extra;
    } else {
      keys := SortKeys(inputs.Keys - QueryKeys(inputs));
      var queryKeys := SortKeys(QueryKeys(inputs));
      if |queryKeys| > 0 {
        keys := keys + [queryKeys[|queryKeys| - 1]];
      }
    }
  }

  // ----- the derived interface -----

  /** A parameter of the interface method comes from an input key, or is the trailing `opts`. */
  datatype Slot = Param(key: string) | Opts

  function DropQuery(keys: seq<string>, inputs: map<string, string>): seq<Slot> {
    if keys == [] then []
    else (if ValueAt(inputs, keys[0]) == "query" then [] else [Param(keys[0])]) + DropQuery(keys[1..], inputs)
  }

  /** `listed` is an order in which ranging over the map may produce the keys outside `order`. */
  ghost predicate IsListing(listed: seq<string>, keys: set<string>) {
    NoDuplicates(listed) && forall k :: k in listed <==> k in keys
  }

  /** Parameters of the interface method derived from the inputs. */
  ghost function InterfaceSlots(inputs: map<string, string>, order: seq<string>, listed: seq<string>): seq<Slot>
    requires IsListing(listed, inputs.Keys - Elements(order))
  {
    var keys := if order != [] then Supplied(order, inputs) + listed else SortedKeys(inputs.Keys);
    DropQuery(keys, inputs) + (if HasQuery(inputs) then [Opts] else [])
  }

  /** Arguments of the call: a query value is passed as `opts`. */
  function ArgSlots(keys: seq<string>, inputs: map<string, string>): seq<Slot> {
    if keys == [] then []
    else [if ValueAt(inputs, keys[0]) == "query" then Opts else Param(keys[0])] + ArgSlots(keys[1..], inputs)
  }

  ghost function CallSlots(inputs: map<string, string>, order: seq<string>): seq<Slot> {
    ArgSlots(CallKeys(inputs, order), inputs)
  }

  lemma {:induction false} DropQueryConcat(a: seq<string>, b: seq<string>, inputs: map<string, string>)
    ensures DropQuery(a + b, inputs) == DropQuery(a, inputs) + DropQuery(b, inputs)
  {
    if a == [] {
      assert a + b == b;
    } else {
      assert (a + b)[1..] == a[1..] + b;
      DropQueryConcat(a[1..], b, inputs);
    }
  }

  /** Ranging over the map: the keys not used yet, in whatever order they come. */
  method ListKeys(s: set<string>) returns (listed: seq<string>)
    ensures IsListing(listed, s)
  {
    listed := [];
    var rest := s;
    while rest != {}
      invariant rest <= s
      invariant IsListing(listed, s - rest)
      decreases rest
    {
      var k :| k in rest;
      listed, rest := listed + [k], rest - {k};
    }
  }

  method SlotsOf(keys: seq<string>, inputs: map<string, string>) returns (slots: seq<Slot>)
    requires forall k :: k in keys <==> k in inputs
    ensures slots == DropQuery(keys, inputs) + (if HasQuery(inputs) then [Opts] else [])
  {
    slots := [];
    var hasQueryOpts := false;
    for i := 0 to |keys|
      invariant slots == DropQuery(keys[..i], inputs)
      invariant hasQueryOpts <==> exists j :: 0 <= j < i && inputs[keys[j]] == "query"
    {
      DropQueryConcat(keys[..i], [keys[i]], inputs);
      assert keys[..i + 1] == keys[..i] + [keys[i]];
      assert [keys[i]][1..] == [];
      if inputs[keys[i]] == "query" {
        hasQueryOpts := true;
      } else {
        slots := slots + [Param(keys[i])];
      }
    }
    assert keys[..|keys|] == keys;
    if hasQueryOpts {
      slots := slots + [Opts];
    }
  }

  /** deriveInterfaces, for one method: parameters in order, `opts` last. */
  method DeriveSlots(inputs: map<string, string>, order: seq<string>) returns (slots: seq<Slot>, ghost listed: seq<string>)
    ensures IsListing(listed, inputs.Keys - Elements(order))
    ensures slots == InterfaceSlots(inputs, order, listed)
  {
    SuppliedContains(order, inputs);
    var keys, extra;
    if |order| > 0 {
      var used;
      keys, used := CollectSupplied(order, inputs);
      assert inputs.Keys - used == inputs.Keys - Elements(order);
      extra := ListKeys(inputs.Keys - used);
      keys := keys + extra;
    } else {
      assert inputs.Keys - Elements(order) == inputs.Keys;
      SortedKeysAscending(inputs.Keys);
      keys := SortKeys(inputs.Keys);
      extra := keys;
    }
    listed := extra;
    slots := SlotsOf(keys, inputs);
  }
}
