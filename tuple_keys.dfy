/** The structural naming of tuple types shared by the tuple registries: a tuple's key is
    `"("`, the comma-joined keys of its components that are themselves tuples, and `")"`.
    Registration walks a tuple bottom-up, registering every nested tuple before the tuple
    itself, and never replaces an entry that is already there. */
module TupleKeys {
  import opened Abi
  import opened Strings

  /** The keys of the nested tuples among `ps`, in order: one per parameter whose
      `components` is present. */
  function ChildKeys(ps: seq<Parameter>): (keys: seq<string>)
    decreases ListSize(ps), 0
  {
    if ps == [] then []
    else
      var last := ps[|ps| - 1];
      ChildKeys(ps[..|ps| - 1]) + (if last.components.Present? then [TupleKey(last.components.params)] else [])
  }

  /** `format!("({})", els.join(","))` over the child keys. */
  function TupleKey(ps: seq<Parameter>): (key: string)
    decreases ListSize(ps), 1
  {
    "(" + Join(",", ChildKeys(ps)) + ")"
  }

  /** Insert `k := v` unless `k` is already mapped (`if !contains_key { insert }`). */
  function AddIfAbsent<V>(m: map<string, V>, k: string, v: V): (r: map<string, V>)
    ensures k in r && r.Keys == m.Keys + {k}
    ensures k in m ==> r == m
    ensures k !in m ==> r[k] == v && forall j :: j in m ==> r[j] == m[j]
  {
    if k in m then m else m[k := v]
  }

  /** The registry after registering, in order, every nested tuple among `ps`. */
  function RegisterChildren(m: map<string, seq<Parameter>>, ps: seq<Parameter>): map<string, seq<Parameter>>
    decreases ListSize(ps), 0
  {
    if ps == [] then m
    else
      var before := RegisterChildren(m, ps[..|ps| - 1]);
      var last := ps[|ps| - 1];
      if last.components.Present? then Registered(before, last.components.params) else before
  }

  /** The registry after registering the tuple `ps`: its nested tuples first, then `ps` itself
      under its key. */
  function Registered(m: map<string, seq<Parameter>>, ps: seq<Parameter>): map<string, seq<Parameter>>
    decreases ListSize(ps), 1
  {
    AddIfAbsent(RegisterChildren(m, ps), TupleKey(ps), ps)
  }

  /** Every key registering the tuple `ps` produces: its own and those of all nested tuples. */
  function AllKeys(ps: seq<Parameter>): set<string>
    decreases ListSize(ps), 1
  {
    {TupleKey(ps)} + NestedKeys(ps)
  }

  function NestedKeys(ps: seq<Parameter>): set<string>
    decreases ListSize(ps), 0
  {
    if ps == [] then {}
    else
      var last := ps[|ps| - 1];
      NestedKeys(ps[..|ps| - 1]) + (if last.components.Present? then AllKeys(last.components.params) else {})
  }

  /** `m2` keeps every entry of `m1` unchanged. */
  predicate Extends<V(==)>(m1: map<string, V>, m2: map<string, V>)
  {
    forall k :: k in m1 ==> k in m2 && m2[k] == m1[k]
  }

  /** Each entry is stored under the key of the parameter list it holds. */
  predicate WellFormed(m: map<string, seq<Parameter>>)
  {
    forall k :: k in m ==> TupleKey(m[k]) == k
  }

  lemma ExtendsTransitive<V>(m1: map<string, V>, m2: map<string, V>, m3: map<string, V>)
    requires Extends(m1, m2) && Extends(m2, m3)
    ensures Extends(m1, m3)
  {
  }

  /** Registration is first-writer-wins: no existing entry is ever replaced. */
  lemma {:induction false} RegisteredExtends(m: map<string, seq<Parameter>>, ps: seq<Parameter>)
    ensures Extends(m, Registered(m, ps))
    decreases ListSize(ps), 1
  {
    RegisterChildrenExtends(m, ps);
  }

  lemma {:induction false} RegisterChildrenExtends(m: map<string, seq<Parameter>>, ps: seq<Parameter>)
    ensures Extends(m, RegisterChildren(m, ps))
    decreases ListSize(ps), 0
  {
    if ps != [] {
      var init := ps[..|ps| - 1];
      var last := ps[|ps| - 1];
      RegisterChildrenExtends(m, init);
      if last.components.Present? {
        RegisteredExtends(RegisterChildren(m, init), last.components.params);
      }
    }
  }

  /** Registering a tuple adds exactly its own key and the keys of all its nested tuples:
      afterwards the returned key and every nested key are present. */
  lemma {:induction false} RegisteredKeys(m: map<string, seq<Parameter>>, ps: seq<Parameter>)
    ensures Registered(m, ps).Keys == m.Keys + AllKeys(ps)
    decreases ListSize(ps), 1
  {
    RegisterChildrenKeys(m, ps);
  }

  lemma {:induction false} RegisterChildrenKeys(m: map<string, seq<Parameter>>, ps: seq<Parameter>)
    ensures RegisterChildren(m, ps).Keys == m.Keys + NestedKeys(ps)
    decreases ListSize(ps), 0
  {
    if ps != [] {
      var init := ps[..|ps| - 1];
      var last := ps[|ps| - 1];
      RegisterChildrenKeys(m, init);
      if last.components.Present? {
        RegisteredKeys(RegisterChildren(m, init), last.components.params);
      }
    }
  }

  /** Registration keeps every entry stored under its own structural key. */
  lemma {:induction false} RegisteredWellFormed(m: map<string, seq<Parameter>>, ps: seq<Parameter>)
    requires WellFormed(m)
    ensures WellFormed(Registered(m, ps))
    decreases ListSize(ps), 1
  {
    RegisterChildrenWellFormed(m, ps);
  }

  lemma {:induction false} RegisterChildrenWellFormed(m: map<string, seq<Parameter>>, ps: seq<Parameter>)
    requires WellFormed(m)
    ensures WellFormed(RegisterChildren(m, ps))
    decreases ListSize(ps), 0
  {
    if ps != [] {
      var init := ps[..|ps| - 1];
      var last := ps[|ps| - 1];
      RegisterChildrenWellFormed(m, init);
      if last.components.Present? {
        RegisteredWellFormed(RegisterChildren(m, init), last.components.params);
      }
    }
  }

  /** Registering a tuple whose keys are all present already changes nothing. */
  lemma {:induction false} RegisteredPresent(m: map<string, seq<Parameter>>, ps: seq<Parameter>)
    requires AllKeys(ps) <= m.Keys
    ensures Registered(m, ps) == m
    decreases ListSize(ps), 1
  {
    RegisterChildrenPresent(m, ps);
  }

  lemma {:induction false} RegisterChildrenPresent(m: map<string, seq<Parameter>>, ps: seq<Parameter>)
    requires NestedKeys(ps) <= m.Keys
    ensures RegisterChildren(m, ps) == m
    decreases ListSize(ps), 0
  {
    if ps != [] {
      var init := ps[..|ps| - 1];
      var last := ps[|ps| - 1];
      RegisterChildrenPresent(m, init);
      if last.components.Present? {
        RegisteredPresent(m, last.components.params);
      }
    }
  }

  /** Registering the same tuple twice is the same as registering it once. */
  lemma RegisteredIdempotent(m: map<string, seq<Parameter>>, ps: seq<Parameter>)
    ensures Registered(Registered(m, ps), ps) == Registered(m, ps)
  {
    RegisteredKeys(m, ps);
    RegisteredPresent(Registered(m, ps), ps);
  }

  /** Only parameters with components contribute a child key. */
  lemma {:induction false} ChildKeysEmpty(ps: seq<Parameter>)
    ensures ChildKeys(ps) == [] <==> forall i :: 0 <= i < |ps| ==> ps[i].components.Absent?
    decreases |ps|
  {
    if ps != [] {
      var init := ps[..|ps| - 1];
      ChildKeysEmpty(init);
      assert forall i :: 0 <= i < |init| ==> init[i] == ps[i];
    }
  }

  /** A tuple whose parameters carry no components gets the key `()`, and only such a tuple. */
  lemma ScalarTupleKey(ps: seq<Parameter>)
    ensures TupleKey(ps) == "()" <==> forall i :: 0 <= i < |ps| ==> ps[i].components.Absent?
  {
    ChildKeysEmpty(ps);
    var keys := ChildKeys(ps);
    if keys != [] {
      var k := keys[0];
      assert |TupleKey(ps)| >= 2 + |k| by {
        JoinCoversFirst(",", keys);
      }
      ChildKeysFromKeys(ps, 0);
    }
  }

  /** Every child key is itself the key of some tuple, so it is at least `()` long. */
  lemma {:induction false} ChildKeysFromKeys(ps: seq<Parameter>, j: nat)
    requires j < |ChildKeys(ps)|
    ensures |ChildKeys(ps)[j]| >= 2
    decreases |ps|
  {
    var init := ps[..|ps| - 1];
    if j < |ChildKeys(init)| {
      ChildKeysFromKeys(init, j);
    }
  }

  // ---- Registering several lists ----

  /** The registry after registering each list as a tuple, in order. */
  function RegisterLists(m: map<string, seq<Parameter>>, lists: seq<seq<Parameter>>): map<string, seq<Parameter>>
  {
    if lists == [] then m else Registered(RegisterLists(m, lists[..|lists| - 1]), lists[|lists| - 1])
  }

  /** The registry after registering the nested tuples of each list, in order. */
  function RegisterChildLists(m: map<string, seq<Parameter>>, lists: seq<seq<Parameter>>): map<string, seq<Parameter>>
  {
    if lists == [] then m else RegisterChildren(RegisterChildLists(m, lists[..|lists| - 1]), lists[|lists| - 1])
  }

  /** The keys registering a tuple per list produces. */
  function ListsKeys(lists: seq<seq<Parameter>>): set<string>
  {
    if lists == [] then {} else ListsKeys(lists[..|lists| - 1]) + AllKeys(lists[|lists| - 1])
  }

  /** The keys registering the nested tuples of every list produces. */
  function ChildListsKeys(lists: seq<seq<Parameter>>): set<string>
  {
    if lists == [] then {} else ChildListsKeys(lists[..|lists| - 1]) + NestedKeys(lists[|lists| - 1])
  }

  lemma RegisterOneList(m: map<string, seq<Parameter>>, a: seq<Parameter>)
    ensures RegisterLists(m, [a]) == Registered(m, a)
  {
    assert [a][..0] == [];
  }

  lemma RegisterTwoLists(m: map<string, seq<Parameter>>, a: seq<Parameter>, b: seq<Parameter>)
    ensures RegisterLists(m, [a, b]) == Registered(Registered(m, a), b)
  {
    assert [a, b][..1] == [a];
    RegisterOneList(m, a);
  }

  lemma RegisterOneChildList(m: map<string, seq<Parameter>>, a: seq<Parameter>)
    ensures RegisterChildLists(m, [a]) == RegisterChildren(m, a)
  {
    assert [a][..0] == [];
  }

  lemma RegisterTwoChildLists(m: map<string, seq<Parameter>>, a: seq<Parameter>, b: seq<Parameter>)
    ensures RegisterChildLists(m, [a, b]) == RegisterChildren(RegisterChildren(m, a), b)
  {
    assert [a, b][..1] == [a];
    RegisterOneChildList(m, a);
  }

  lemma {:induction false} RegisterListsAppend(m: map<string, seq<Parameter>>, a: seq<seq<Parameter>>, b: seq<seq<Parameter>>)
    ensures RegisterLists(m, a + b) == RegisterLists(RegisterLists(m, a), b)
    decreases |b|
  {
    if b == [] {
      assert a + b == a;
    } else {
      var init := b[..|b| - 1];
      AppendInit(a, b);
      RegisterListsAppend(m, a, init);
    }
  }

  lemma {:induction false} RegisterChildListsAppend(m: map<string, seq<Parameter>>, a: seq<seq<Parameter>>, b: seq<seq<Parameter>>)
    ensures RegisterChildLists(m, a + b) == RegisterChildLists(RegisterChildLists(m, a), b)
    decreases |b|
  {
    if b == [] {
      assert a + b == a;
    } else {
      var init := b[..|b| - 1];
      AppendInit(a, b);
      RegisterChildListsAppend(m, a, init);
    }
  }

  /** Registering whole lists adds exactly their keys, replaces no entry and keeps every
      entry under its own key. */
  lemma {:induction false} RegisterListsSound(m: map<string, seq<Parameter>>, lists: seq<seq<Parameter>>)
    ensures RegisterLists(m, lists).Keys == m.Keys + ListsKeys(lists)
    ensures Extends(m, RegisterLists(m, lists))
    ensures WellFormed(m) ==> WellFormed(RegisterLists(m, lists))
    decreases |lists|
  {
    if lists != [] {
      var init := lists[..|lists| - 1];
      var before := RegisterLists(m, init);
      RegisterListsSound(m, init);
      RegisteredKeys(before, lists[|lists| - 1]);
      RegisteredExtends(before, lists[|lists| - 1]);
      ExtendsTransitive(m, before, RegisterLists(m, lists));
      if WellFormed(m) { RegisteredWellFormed(before, lists[|lists| - 1]); }
    }
  }

  /** Registering the nested tuples of lists adds exactly their nested keys, replaces no
      entry and keeps every entry under its own key. */
  lemma {:induction false} RegisterChildListsSound(m: map<string, seq<Parameter>>, lists: seq<seq<Parameter>>)
    ensures RegisterChildLists(m, lists).Keys == m.Keys + ChildListsKeys(lists)
    ensures Extends(m, RegisterChildLists(m, lists))
    ensures WellFormed(m) ==> WellFormed(RegisterChildLists(m, lists))
    decreases |lists|
  {
    if lists != [] {
      var init := lists[..|lists| - 1];
      var before := RegisterChildLists(m, init);
      RegisterChildListsSound(m, init);
      RegisterChildrenKeys(before, lists[|lists| - 1]);
      RegisterChildrenExtends(before, lists[|lists| - 1]);
      ExtendsTransitive(m, before, RegisterChildLists(m, lists));
      if WellFormed(m) { RegisterChildrenWellFormed(before, lists[|lists| - 1]); }
    }
  }

  // ---- The key identifies the nesting shape ----

  /** The nesting shape of a tuple: one child shape per parameter that has components. */
  datatype Shape = Shape(children: seq<Shape>)

  function ShapeOf(ps: seq<Parameter>): Shape
    decreases ListSize(ps), 1
  {
    Shape(ChildShapes(ps))
  }

  function ChildShapes(ps: seq<Parameter>): seq<Shape>
    decreases ListSize(ps), 0
  {
    if ps == [] then []
    else
      var last := ps[|ps| - 1];
      ChildShapes(ps[..|ps| - 1]) + (if last.components.Present? then [ShapeOf(last.components.params)] else [])
  }

  /** The text of a shape, in the key's notation. */
  function Encode(s: Shape): string
    decreases s, 1
  {
    "(" + Join(",", Encodings(s.children)) + ")"
  }

  function Encodings(cs: seq<Shape>): (es: seq<string>)
    ensures |es| == |cs|
    decreases cs, 0
  {
    if cs == [] then [] else [Encode(cs[0])] + Encodings(cs[1..])
  }

  lemma {:induction false} EncodingsSnoc(cs: seq<Shape>, c: Shape)
    ensures Encodings(cs + [c]) == Encodings(cs) + [Encode(c)]
    decreases |cs|
  {
    if cs != [] {
      assert (cs + [c])[1..] == cs[1..] + [c];
      EncodingsSnoc(cs[1..], c);
    } else {
      assert [c][1..] == [];
    }
  }

  /** A tuple key is the encoding of the tuple's shape. */
  lemma {:induction false} KeyIsEncoding(ps: seq<Parameter>)
    ensures TupleKey(ps) == Encode(ShapeOf(ps))
    decreases ListSize(ps), 1
  {
    ChildKeysAreEncodings(ps);
  }

  lemma {:induction false} ChildKeysAreEncodings(ps: seq<Parameter>)
    ensures ChildKeys(ps) == Encodings(ChildShapes(ps))
    decreases ListSize(ps), 0
  {
    if ps != [] {
      var init := ps[..|ps| - 1];
      var last := ps[|ps| - 1];
      ChildKeysAreEncodings(init);
      if last.components.Present? {
        KeyIsEncoding(last.components.params);
        EncodingsSnoc(ChildShapes(init), ShapeOf(last.components.params));
      } else {
        assert ChildKeys(ps) == ChildKeys(init) + [];
        assert ChildShapes(ps) == ChildShapes(init) + [];
        assert ChildShapes(init) + [] == ChildShapes(init);
        assert ChildKeys(init) + [] == ChildKeys(init);
      }
    }
  }

  /** No shape's encoding is a proper prefix of another's, and equal encodings come from
      equal shapes. */
  lemma {:induction false} EncodePrefixFree(a: Shape, b: Shape, x: string, y: string)
    requires Encode(a) + x == Encode(b) + y
    ensures a == b && x == y
    decreases a, 2
  {
    var ja := Join(",", Encodings(a.children));
    var jb := Join(",", Encodings(b.children));
    assert Encode(a) + x == "(" + (ja + ")" + x) by {
      assert Encode(a) == ("(" + ja) + ")";
    }
    assert Encode(b) + y == "(" + (jb + ")" + y) by {
      assert Encode(b) == ("(" + jb) + ")";
    }
    assert ja + ")" + x == ("(" + (ja + ")" + x))[1..];
    assert jb + ")" + y == ("(" + (jb + ")" + y))[1..];
    EncodeListPrefixFree(a.children, b.children, x, y);
  }

  lemma {:induction false} EncodeListPrefixFree(left: seq<Shape>, right: seq<Shape>, x: string, y: string)
    requires Join(",", Encodings(left)) + ")" + x == Join(",", Encodings(right)) + ")" + y
    ensures left == right && x == y
    decreases left, 1
  {
    if left == [] || right == [] {
      EmptyListPrefixFree(left, right, x, y);
    } else {
      var ja := Join(",", Encodings(left));
      var jb := Join(",", Encodings(right));
      var ta := JoinTail(left);
      var tb := JoinTail(right);
      JoinSplit(left);
      JoinSplit(right);
      assert ja + ")" + x == Encode(left[0]) + (ta + ")" + x);
      assert jb + ")" + y == Encode(right[0]) + (tb + ")" + y);
      EncodePrefixFree(left[0], right[0], ta + ")" + x, tb + ")" + y);
      TailPrefixFree(left, right, x, y);
    }
  }

  /** The list case where one side is empty: `)` cannot start an encoding. */
  lemma EmptyListPrefixFree(left: seq<Shape>, right: seq<Shape>, x: string, y: string)
    requires left == [] || right == []
    requires Join(",", Encodings(left)) + ")" + x == Join(",", Encodings(right)) + ")" + y
    ensures left == right && x == y
  {
    var ja := Join(",", Encodings(left));
    var jb := Join(",", Encodings(right));
    if left == [] && right == [] {
      assert ja == "" && jb == "";
      assert ja + ")" + x == ")" + x;
      assert jb + ")" + y == ")" + y;
      assert x == (")" + x)[1..];
      assert y == (")" + y)[1..];
    } else {
      ListStart(left, x);
      ListStart(right, y);
      assert false;
    }
  }

  /** The list case after the first elements matched: both continue with a comma, or both end. */
  lemma {:induction false} TailPrefixFree(left: seq<Shape>, right: seq<Shape>, x: string, y: string)
    requires left != [] && right != [] && left[0] == right[0]
    requires JoinTail(left) + ")" + x == JoinTail(right) + ")" + y
    ensures left == right && x == y
    decreases left, 0
  {
    var ta := JoinTail(left);
    var tb := JoinTail(right);
    if |left| > 1 && |right| > 1 {
      var ra := Join(",", Encodings(left[1..]));
      var rb := Join(",", Encodings(right[1..]));
      assert ta + ")" + x == "," + (ra + ")" + x);
      assert tb + ")" + y == "," + (rb + ")" + y);
      assert ra + ")" + x == (ta + ")" + x)[1..];
      assert rb + ")" + y == (tb + ")" + y)[1..];
      EncodeListPrefixFree(left[1..], right[1..], x, y);
      assert left == [left[0]] + left[1..];
      assert right == [right[0]] + right[1..];
    } else if |left| > 1 || |right| > 1 {
      TailStart(left, x);
      TailStart(right, y);
      assert false;
    } else {
      assert ta + ")" + x == ")" + x;
      assert tb + ")" + y == ")" + y;
      assert x == (")" + x)[1..];
      assert left == [left[0]] && right == [right[0]];
    }
  }

  /** What follows the first encoding in the joined list: nothing, or a comma and the rest. */
  function JoinTail(cs: seq<Shape>): string
    requires cs != []
  {
    if |cs| > 1 then "," + Join(",", Encodings(cs[1..])) else ""
  }

  /** The text after a list's first encoding starts with `,` exactly when more elements follow. */
  lemma TailStart(cs: seq<Shape>, x: string)
    requires cs != []
    ensures (JoinTail(cs) + ")" + x)[0] == if |cs| > 1 then ',' else ')'
  {
  }

  lemma JoinSplit(cs: seq<Shape>)
    requires cs != []
    ensures Join(",", Encodings(cs)) == Encode(cs[0]) + JoinTail(cs)
  {
    var es := Encodings(cs);
    assert es[0] == Encode(cs[0]);
    if |cs| > 1 {
      assert es[1..] == Encodings(cs[1..]);
    }
  }

  /** A list's text starts with `(` unless the list is empty. */
  lemma ListStart(cs: seq<Shape>, x: string)
    ensures (Join(",", Encodings(cs)) + ")" + x)[0] == if cs == [] then ')' else '('
  {
    if cs != [] {
      JoinSplit(cs);
      assert Encode(cs[0])[0] == '(';
    }
  }

  /** Two tuples get the same key exactly when they have the same nesting shape: the key
      ignores names, scalar types and the position of scalar parameters. */
  lemma KeyDeterminesShape(ps1: seq<Parameter>, ps2: seq<Parameter>)
    ensures TupleKey(ps1) == TupleKey(ps2) <==> ShapeOf(ps1) == ShapeOf(ps2)
  {
    KeyIsEncoding(ps1);
    KeyIsEncoding(ps2);
    if TupleKey(ps1) == TupleKey(ps2) {
      assert Encode(ShapeOf(ps1)) + "" == Encode(ShapeOf(ps2)) + "";
      EncodePrefixFree(ShapeOf(ps1), ShapeOf(ps2), "", "");
    }
  }

  /** Consequence of the structural key and first-writer-wins: once one all-scalar tuple is
      registered, registering any other all-scalar tuple leaves the registry as it was, so
      `()` keeps naming the first one. */
  lemma ScalarTuplesCollide(m: map<string, seq<Parameter>>, a: seq<Parameter>, b: seq<Parameter>)
    requires forall i :: 0 <= i < |a| ==> a[i].components.Absent?
    requires forall i :: 0 <= i < |b| ==> b[i].components.Absent?
    requires "()" !in m
    ensures Registered(Registered(m, a), b) == Registered(m, a)
    ensures "()" in Registered(m, a) && Registered(m, a)["()"] == a
  {
    ScalarTupleKey(a);
    ScalarTupleKey(b);
    ChildKeysEmpty(a);
    ChildKeysEmpty(b);
    NestedKeysEmpty(a);
    NestedKeysEmpty(b);
    RegisterChildrenPresent(m, a);
    RegisteredKeys(m, a);
    RegisteredPresent(Registered(m, a), b);
  }

  lemma {:induction false} NestedKeysEmpty(ps: seq<Parameter>)
    requires forall i :: 0 <= i < |ps| ==> ps[i].components.Absent?
    ensures NestedKeys(ps) == {}
    decreases |ps|
  {
    if ps != [] {
      NestedKeysEmpty(ps[..|ps| - 1]);
    }
  }
}
