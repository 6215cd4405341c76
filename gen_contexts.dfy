/** The contract-scoped generation context of the crate's generator front end: the contract
    name and a tuple registry filled before generation starts, then walked to generate one
    tuple declaration per entry. */
module GenContexts {
  import opened Abi
  import opened Strings
  import opened TupleKeys
  import opened Protocol

  /** The generation context (`Context`). */
  class Context {
    var contractName: string
    var tuples: map<string, seq<Parameter>>

    /** `Context::default()`. */
    constructor()
      ensures contractName == "" && tuples == map[]
    {
      contractName := "";
      tuples := map[];
    }

    /** `reigster_tuple`: add the entry unless the name is taken. */
    method RegisterTuple(name: string, tuple: seq<Parameter>)
      modifies this
      ensures tuples == AddIfAbsent(old(tuples), name, tuple)
      ensures contractName == old(contractName)
    {
      if name !in tuples {
        tuples := tuples[name := tuple];
      }
    }
  }

  /** `generate_tuple_type_declare`: the structural key of `components`, after registering
      every nested tuple of it (each under its own key, innermost first) but not
      `components` itself. */
  method GenerateTupleTypeDeclare(ctx: Context, components: seq<Parameter>) returns (key: string)
    modifies ctx
    decreases ListSize(components)
    ensures key == TupleKey(components)
    ensures ctx.tuples == RegisterChildren(old(ctx.tuples), components)
    ensures ctx.contractName == old(ctx.contractName)
  {
    var els: seq<string> := [];
    for i := 0 to |components|
      invariant els == ChildKeys(components[..i])
      invariant ctx.tuples == RegisterChildren(old(ctx.tuples), components[..i])
      invariant ctx.contractName == old(ctx.contractName)
    {
      assert components[..i + 1][..i] == components[..i];
      var parm := components[i];
      if parm.components.Present? {
        ElementSmaller(components, i);
        var child := parm.components.params;
        var el := GenerateTupleTypeDeclare(ctx, child);
        ctx.RegisterTuple(el, child);
        els := els + [el];
      }
    }
    assert components[..|components|] == components;
    key := "(" + Join(",", els) + ")";
  }

  /** `handle_input_output_params`: register every parameter's components as a tuple,
      nested tuples first. */
  method HandleInputOutputParams(ctx: Context, parms: seq<Parameter>)
    modifies ctx
    ensures ctx.tuples == RegisterChildren(old(ctx.tuples), parms)
    ensures ctx.contractName == old(ctx.contractName)
  {
    for i := 0 to |parms|
      invariant ctx.tuples == RegisterChildren(old(ctx.tuples), parms[..i])
      invariant ctx.contractName == old(ctx.contractName)
    {
      assert parms[..i + 1][..i] == parms[..i];
      var param := parms[i];
      if param.components.Present? {
        var tuple := param.components.params;
        var el := GenerateTupleTypeDeclare(ctx, tuple);
        ctx.RegisterTuple(el, tuple);
      }
    }
    assert parms[..|parms|] == parms;
  }

  method HandleField(ctx: Context, f: AbiField)
    modifies ctx
    ensures ctx.tuples == RegisterChildLists(old(ctx.tuples), FieldLists(f))
    ensures ctx.contractName == old(ctx.contractName)
  {
    ghost var m := ctx.tuples;
    match f
    case ConstructorField(c) =>
      HandleInputOutputParams(ctx, c.inputs);
      RegisterOneChildList(m, c.inputs);
    case FunctionField(fn) =>
      HandleInputOutputParams(ctx, fn.inputs);
      HandleInputOutputParams(ctx, fn.outputs);
      RegisterTwoChildLists(m, fn.inputs, fn.outputs);
    case EventField(e) =>
      HandleInputOutputParams(ctx, e.inputs);
      RegisterOneChildList(m, e.inputs);
    case ErrorField(e) =>
      HandleInputOutputParams(ctx, e.inputs);
      RegisterOneChildList(m, e.inputs);
    case _ =>
  }

  /** The registry `create_context` builds for an ABI. */
  function ContextTuples(abi: seq<AbiField>): map<string, seq<Parameter>>
  {
    RegisterChildLists(map[], AbiLists(abi))
  }

  /** `create_context` for an ABI list: a fresh context named `name` holding the nested
      tuples of constructor inputs, function inputs then outputs, event inputs and error
      inputs. */
  method CreateContext(abi: seq<AbiField>, name: string) returns (ctx: Context)
    ensures fresh(ctx)
    ensures ctx.contractName == name
    ensures ctx.tuples == ContextTuples(abi)
  {
    ctx := new Context();
    ctx.contractName := name;
    for i := 0 to |abi|
      invariant ctx.tuples == RegisterChildLists(map[], AbiLists(abi[..i]))
      invariant ctx.contractName == name
    {
      AbiListsSnoc(abi, i);
      RegisterChildListsAppend(map[], AbiLists(abi[..i]), FieldLists(abi[i]));
      HandleField(ctx, abi[i]);
    }
    assert abi[..|abi|] == abi;
  }

  /** `create_context` for an artifact: its ABI's. */
  method CreateHardhatContext(artifact: HardhatArtifact, name: string) returns (ctx: Context)
    ensures fresh(ctx)
    ensures ctx.contractName == name
    ensures ctx.tuples == ContextTuples(artifact.abi)
  {
    ctx := CreateContext(artifact.abi, name);
  }

  /** The context holds only tuples of the ABI, each under its own key, and exactly the
      nested keys of its parameter lists. */
  lemma ContextTuplesSound(abi: seq<AbiField>)
    ensures ContextTuples(abi).Keys == ChildListsKeys(AbiLists(abi))
    ensures WellFormed(ContextTuples(abi))
  {
    RegisterChildListsSound(map[], AbiLists(abi));
  }

  // ---- Walking the registry in an unspecified order ----

  /** The keys a visiting order lists. */
  function Elements(order: seq<string>): set<string>
  {
    if order == [] then {} else Elements(order[..|order| - 1]) + {order[|order| - 1]}
  }

  /** No key is listed twice. */
  predicate Distinct(order: seq<string>)
  {
    order == [] || (Distinct(order[..|order| - 1]) && order[|order| - 1] !in Elements(order[..|order| - 1]))
  }

  /** `order` lists every key of `keys` exactly once: one possible iteration order of a map
      with those keys. */
  predicate IsEnumeration(order: seq<string>, keys: set<string>)
  {
    Distinct(order) && Elements(order) == keys
  }

  lemma ElementsSnoc(order: seq<string>, k: string)
    ensures Elements(order + [k]) == Elements(order) + {k}
    ensures Distinct(order + [k]) <==> Distinct(order) && k !in Elements(order)
  {
    assert (order + [k])[..|order|] == order;
  }

  /** The keys of an order are exactly the keys at its indices. */
  lemma {:induction false} ElementsAreIndexed(order: seq<string>, k: string)
    ensures k in Elements(order) <==> exists i :: 0 <= i < |order| && order[i] == k
    decreases |order|
  {
    if order != [] {
      var init := order[..|order| - 1];
      ElementsAreIndexed(init, k);
      if k in Elements(init) {
        var i :| 0 <= i < |init| && init[i] == k;
        assert order[i] == k;
      }
      if exists i :: 0 <= i < |order| && order[i] == k {
        var i :| 0 <= i < |order| && order[i] == k;
        if i < |init| { assert init[i] == k; }
      }
    }
  }

  /** A distinct order lists no key at two indices. */
  lemma {:induction false} DistinctAtIndices(order: seq<string>, i: nat, j: nat)
    requires Distinct(order) && i < j < |order|
    ensures order[i] != order[j]
    decreases |order|
  {
    var init := order[..|order| - 1];
    if j < |order| - 1 {
      DistinctAtIndices(init, i, j);
    } else {
      ElementsAreIndexed(init, order[i]);
      assert init[i] == order[i];
    }
  }

  lemma {:induction false} ElementsAppend(a: seq<string>, b: seq<string>)
    ensures Elements(a + b) == Elements(a) + Elements(b)
    ensures Distinct(a + b) <==> Distinct(a) && Distinct(b) && Elements(a) * Elements(b) == {}
    decreases |b|
  {
    if b == [] {
      assert a + b == a;
    } else {
      var init := b[..|b| - 1];
      var k := b[|b| - 1];
      assert a + b == (a + init) + [k];
      assert b == init + [k];
      ElementsAppend(a, init);
      ElementsSnoc(a + init, k);
      ElementsSnoc(init, k);
    }
  }

  lemma {:induction false} EnumerationExists(keys: set<string>) returns (order: seq<string>)
    ensures IsEnumeration(order, keys)
    decreases |keys|
  {
    if keys == {} {
      order := [];
    } else {
      var k :| k in keys;
      var rest := EnumerationExists(keys - {k});
      order := rest + [k];
      ElementsSnoc(rest, k);
    }
  }

  /** One `generate_tuple` call per key of `order`, in that order. */
  function TupleCalls(m: map<string, seq<Parameter>>, order: seq<string>): (calls: seq<Call>)
    requires Elements(order) <= m.Keys
    ensures |calls| == |order|
  {
    if order == [] then []
    else TupleCalls(m, order[..|order| - 1]) + [GenerateTuple(order[|order| - 1], m[order[|order| - 1]])]
  }

  /** The `i`-th tuple call generates the `i`-th key with its registered components. */
  lemma {:induction false} TupleCallsAt(m: map<string, seq<Parameter>>, order: seq<string>, i: nat)
    requires Elements(order) <= m.Keys
    requires i < |order|
    ensures order[i] in m
    ensures TupleCalls(m, order)[i] == GenerateTuple(order[i], m[order[i]])
    decreases |order|
  {
    if i < |order| - 1 {
      TupleCallsAt(m, order[..|order| - 1], i);
    }
  }

  /** Under any enumeration of the registry, the tuple calls are exactly the registry's
      entries, each generated once. */
  lemma TupleCallsExactlyOnce(m: map<string, seq<Parameter>>, order: seq<string>)
    requires IsEnumeration(order, m.Keys)
    ensures forall k :: k in m ==> GenerateTuple(k, m[k]) in TupleCalls(m, order)
    ensures forall c :: c in TupleCalls(m, order) ==> c.GenerateTuple? && c.tupleName in m && c.tuple == m[c.tupleName]
    ensures forall i, j :: 0 <= i < j < |order| ==> TupleCalls(m, order)[i] != TupleCalls(m, order)[j]
  {
    var calls := TupleCalls(m, order);
    forall k | k in m ensures GenerateTuple(k, m[k]) in calls {
      ElementsAreIndexed(order, k);
      var i :| 0 <= i < |order| && order[i] == k;
      TupleCallsAt(m, order, i);
    }
    forall c | c in calls ensures c.GenerateTuple? && c.tupleName in m && c.tuple == m[c.tupleName] {
      var i :| 0 <= i < |calls| && calls[i] == c;
      TupleCallsAt(m, order, i);
    }
    forall i, j | 0 <= i < j < |order| ensures calls[i] != calls[j] {
      TupleCallsAt(m, order, i);
      TupleCallsAt(m, order, j);
      DistinctAtIndices(order, i, j);
    }
  }

  lemma {:induction false} TupleCallsAppend(m: map<string, seq<Parameter>>, a: seq<string>, b: seq<string>)
    requires Elements(a) <= m.Keys && Elements(b) <= m.Keys
    ensures Elements(a + b) <= m.Keys
    ensures TupleCalls(m, a + b) == TupleCalls(m, a) + TupleCalls(m, b)
    decreases |b|
  {
    ElementsAppend(a, b);
    if b == [] {
      assert a + b == a;
    } else {
      var init := b[..|b| - 1];
      var k := b[|b| - 1];
      assert b == init + [k];
      AppendInit(a, b);
      ElementsSnoc(init, k);
      TupleCallsAppend(m, a, init);
    }
  }

  /** When the tuple generator fails on `k`, the keys not yet visited can be listed in any
      order after it: the walk stops there whatever they are. */
  lemma CompleteAfterFailure(fails: Call -> bool, m: map<string, seq<Parameter>>, order: seq<string>,
                             remaining: set<string>, k: string) returns (full: seq<string>)
    requires Distinct(order) && Elements(order) <= m.Keys
    requires remaining == m.Keys - Elements(order)
    requires k in remaining
    requires Succeeds(fails, TupleCalls(m, order)) && fails(GenerateTuple(k, m[k]))
    ensures IsEnumeration(full, m.Keys)
    ensures Attempted(fails, TupleCalls(m, full)) == TupleCalls(m, order) + [GenerateTuple(k, m[k])]
    ensures !Succeeds(fails, TupleCalls(m, full))
  {
    var rest := EnumerationExists(remaining - {k});
    var visited := order + [k];
    ElementsSnoc(order, k);
    full := visited + rest;
    ElementsAppend(visited, rest);
    TupleCallsAppend(m, visited, rest);
    TupleCallsSnoc(m, order, k);
    AttemptedFailsAt(fails, TupleCalls(m, order), GenerateTuple(k, m[k]), TupleCalls(m, rest));
  }

  lemma TupleCallsSnoc(m: map<string, seq<Parameter>>, order: seq<string>, k: string)
    requires Elements(order) <= m.Keys && k in m
    ensures Elements(order + [k]) <= m.Keys
    ensures TupleCalls(m, order + [k]) == TupleCalls(m, order) + [GenerateTuple(k, m[k])]
  {
    ElementsSnoc(order, k);
    assert (order + [k])[..|order|] == order;
  }

  /** The tuple loop: `generate_tuple` once per registry entry, in the map's iteration
      order (returned as a ghost witness), stopping at the first failure. */
  method GenerateTuples(g: Recorder, m: map<string, seq<Parameter>>) returns (ok: bool, ghost order: seq<string>)
    modifies g
    ensures IsEnumeration(order, m.Keys)
    ensures g.trace == old(g.trace) + Attempted(g.fails, TupleCalls(m, order))
    ensures ok <==> Succeeds(g.fails, TupleCalls(m, order))
  {
    ghost var before := g.trace;
    ok := true;
    order := [];
    var remaining := m.Keys;
    while remaining != {}
      invariant Visiting(g.fails, m, order, remaining)
      invariant g.trace == before + TupleCalls(m, order)
      decreases |remaining|
    {
      var k :| k in remaining;
      ok, order := VisitTuple(g, m, before, order, remaining, k);
      if !ok {
        return;
      }
      remaining := remaining - {k};
    }
    AttemptedSucceeded(g.fails, TupleCalls(m, order));
  }

  /** The state of the tuple loop: `order` lists the keys visited so far, `remaining` the
      others, and every call so far succeeded. */
  ghost predicate Visiting(fails: Call -> bool, m: map<string, seq<Parameter>>, order: seq<string>, remaining: set<string>)
  {
    && Distinct(order) && Elements(order) <= m.Keys
    && remaining == m.Keys - Elements(order)
    && Succeeds(fails, TupleCalls(m, order))
  }

  /** One iteration of the tuple loop. */
  method VisitTuple(g: Recorder, m: map<string, seq<Parameter>>, ghost before: seq<Call>, ghost order: seq<string>,
                    ghost remaining: set<string>, k: string)
      returns (ok: bool, ghost order': seq<string>)
    requires Visiting(g.fails, m, order, remaining) && k in remaining
    requires g.trace == before + TupleCalls(m, order)
    modifies g
    ensures ok ==> Visiting(g.fails, m, order', remaining - {k}) && g.trace == before + TupleCalls(m, order')
    ensures !ok ==> IsEnumeration(order', m.Keys) && !Succeeds(g.fails, TupleCalls(m, order'))
    ensures !ok ==> g.trace == before + Attempted(g.fails, TupleCalls(m, order'))
  {
    ok := g.Invoke(GenerateTuple(k, m[k]));
    if !ok {
      order' := CompleteAfterFailure(g.fails, m, order, remaining, k);
    } else {
      TupleCallsSnoc(m, order, k);
      ElementsSnoc(order, k);
      order' := order + [k];
    }
  }

  /** The calls `generate_with_context` issues before the tuple loop: the contract
      generator, then one per function, event and error. */
  function ContractCalls(name: string, abi: seq<AbiField>): seq<Call>
  {
    [GenerateContract(name)] + FieldCalls(abi)
  }

  /** The calls `generate_with_context` issues for an ABI list, when nothing fails,
      visiting the registry in `order`. */
  function ContextCalls(name: string, abi: seq<AbiField>, m: map<string, seq<Parameter>>, order: seq<string>): seq<Call>
    requires IsEnumeration(order, m.Keys)
  {
    ContractCalls(name, abi) + TupleCalls(m, order)
  }

  /** The contract generator, then the field dispatch. */
  method GenerateContractFields(g: Recorder, name: string, abi: seq<AbiField>) returns (ok: bool)
    modifies g
    ensures g.trace == old(g.trace) + Attempted(g.fails, ContractCalls(name, abi))
    ensures ok <==> Succeeds(g.fails, ContractCalls(name, abi))
  {
    var contract := [GenerateContract(name)];
    ghost var t0 := g.trace;
    var contractOk := g.Invoke(contract[0]);
    ghost var t1 := g.trace;
    if contractOk {
      ok := DispatchFields(g, abi);
    } else {
      ok := false;
    }
    Chain(g.fails, contract, FieldCalls(abi), t0, t1, g.trace, contractOk, ok);
  }

  /** `generate_with_context` for an ABI list: the contract generator first, then the field
      dispatch, then one tuple declaration per registry entry in the map's iteration order,
      stopping at the first failure. */
  method GenerateWithContext(ctx: Context, g: Recorder, abi: seq<AbiField>) returns (ok: bool, ghost order: seq<string>)
    modifies g
    ensures IsEnumeration(order, ctx.tuples.Keys)
    ensures g.trace == old(g.trace) + Attempted(g.fails, ContextCalls(ctx.contractName, abi, ctx.tuples, order))
    ensures ok <==> Succeeds(g.fails, ContextCalls(ctx.contractName, abi, ctx.tuples, order))
  {
    ghost var t0 := g.trace;
    var headOk := GenerateContractFields(g, ctx.contractName, abi);
    ghost var t1 := g.trace;
    if headOk {
      ok, order := GenerateTuples(g, ctx.tuples);
    } else {
      ok := false;
      order := EnumerationExists(ctx.tuples.Keys);
    }
    Chain(g.fails, ContractCalls(ctx.contractName, abi), TupleCalls(ctx.tuples, order), t0, t1, g.trace, headOk, ok);
  }

  /** `generate_with_context` for an artifact: the deployment first, with the bytecode and
      the first constructor's inputs, then everything the ABI list generates. */
  method GenerateHardhatWithContext(ctx: Context, g: Recorder, artifact: HardhatArtifact) returns (ok: bool, ghost order: seq<string>)
    modifies g
    ensures IsEnumeration(order, ctx.tuples.Keys)
    ensures g.trace == old(g.trace) + Attempted(g.fails,
      [GenerateDeploy(artifact.bytecode, FirstConstructorInputs(artifact.abi))] + ContextCalls(ctx.contractName, artifact.abi, ctx.tuples, order))
    ensures ok <==> Succeeds(g.fails,
      [GenerateDeploy(artifact.bytecode, FirstConstructorInputs(artifact.abi))] + ContextCalls(ctx.contractName, artifact.abi, ctx.tuples, order))
  {
    var inputs := FindConstructorInputs(artifact.abi);
    var deploy := [GenerateDeploy(artifact.bytecode, inputs)];
    ghost var t0 := g.trace;
    var deployOk := g.Invoke(deploy[0]);
    ghost var t1 := g.trace;
    if deployOk {
      ok, order := GenerateWithContext(ctx, g, artifact.abi);
    } else {
      ok := false;
      order := EnumerationExists(ctx.tuples.Keys);
    }
    Chain(g.fails, deploy, ContextCalls(ctx.contractName, artifact.abi, ctx.tuples, order), t0, t1, g.trace, deployOk, ok);
  }

  /** `Generate::generate` for an ABI list: create the context, then generate with it. */
  method Generate(abi: seq<AbiField>, name: string, g: Recorder) returns (ok: bool, ghost order: seq<string>)
    modifies g
    ensures IsEnumeration(order, ContextTuples(abi).Keys)
    ensures g.trace == old(g.trace) + Attempted(g.fails, ContextCalls(name, abi, ContextTuples(abi), order))
    ensures ok <==> Succeeds(g.fails, ContextCalls(name, abi, ContextTuples(abi), order))
  {
    var ctx := CreateContext(abi, name);
    ok, order := GenerateWithContext(ctx, g, abi);
  }

  /** `Generate::generate` for an artifact. */
  method GenerateHardhat(artifact: HardhatArtifact, name: string, g: Recorder) returns (ok: bool, ghost order: seq<string>)
    modifies g
    ensures IsEnumeration(order, ContextTuples(artifact.abi).Keys)
    ensures g.trace == old(g.trace) + Attempted(g.fails,
      [GenerateDeploy(artifact.bytecode, FirstConstructorInputs(artifact.abi))] + ContextCalls(name, artifact.abi, ContextTuples(artifact.abi), order))
    ensures ok <==> Succeeds(g.fails,
      [GenerateDeploy(artifact.bytecode, FirstConstructorInputs(artifact.abi))] + ContextCalls(name, artifact.abi, ContextTuples(artifact.abi), order))
  {
    var ctx := CreateHardhatContext(artifact, name);
    ok, order := GenerateHardhatWithContext(ctx, g, artifact);
  }
}
