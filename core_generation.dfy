/** Generation through the core crate's later protocol: no `begin` call, and a tuple pass
    that hands the context every parameter carrying components, one parameter at a time.
    The context is only known through `register_tuple`, so it is modelled as a sink that
    records what it is given. */
module CoreGeneration {
  import opened Abi
  import opened Protocol

  /** A context that records each parameter registered with it. */
  class TupleSink {
    var registered: seq<Parameter>

    constructor()
      ensures registered == []
    {
      registered := [];
    }

    method RegisterTuple(p: Parameter)
      modifies this
      ensures registered == old(registered) + [p]
    {
      registered := registered + [p];
    }
  }

  /** The parameters of `ps` that carry components, in order. */
  function WithComponents(ps: seq<Parameter>): (r: seq<Parameter>)
    ensures |r| <= |ps|
  {
    if ps == [] then []
    else WithComponents(ps[..|ps| - 1]) + (if ps[|ps| - 1].components.Present? then [ps[|ps| - 1]] else [])
  }

  /** Exactly the parameters with components are kept. */
  lemma {:induction false} WithComponentsExact(ps: seq<Parameter>)
    ensures forall p :: p in WithComponents(ps) <==> p in ps && p.components.Present?
    decreases |ps|
  {
    if ps != [] {
      var init := ps[..|ps| - 1];
      WithComponentsExact(init);
      assert ps == init + [ps[|ps| - 1]];
    }
  }

  /** Every list's parameters with components, list after list. */
  function ListsWithComponents(lists: seq<seq<Parameter>>): seq<Parameter>
  {
    if lists == [] then [] else ListsWithComponents(lists[..|lists| - 1]) + WithComponents(lists[|lists| - 1])
  }

  lemma {:induction false} ListsWithComponentsAppend(a: seq<seq<Parameter>>, b: seq<seq<Parameter>>)
    ensures ListsWithComponents(a + b) == ListsWithComponents(a) + ListsWithComponents(b)
    decreases |b|
  {
    if b == [] {
      assert a + b == a;
    } else {
      var init := b[..|b| - 1];
      AppendInit(a, b);
      ListsWithComponentsAppend(a, init);
      AppendAssoc(ListsWithComponents(a), ListsWithComponents(init), WithComponents(b[|b| - 1]));
    }
  }

  /** The free fn `register_tuples`: register each parameter that carries components. */
  method RegisterParams(ctx: TupleSink, params: seq<Parameter>)
    modifies ctx
    ensures ctx.registered == old(ctx.registered) + WithComponents(params)
  {
    for i := 0 to |params|
      invariant ctx.registered == old(ctx.registered) + WithComponents(params[..i])
    {
      assert params[..i + 1][..i] == params[..i];
      if params[i].components.Present? {
        ctx.RegisterTuple(params[i]);
      }
    }
    assert params[..|params|] == params;
  }

  method RegisterField(ctx: TupleSink, f: AbiField)
    modifies ctx
    ensures ctx.registered == old(ctx.registered) + ListsWithComponents(FieldLists(f))
  {
    match f
    case ConstructorField(c) =>
      RegisterParams(ctx, c.inputs);
      assert [c.inputs][..0] == [];
    case FunctionField(fn) =>
      ghost var before := ctx.registered;
      RegisterParams(ctx, fn.inputs);
      RegisterParams(ctx, fn.outputs);
      assert [fn.inputs, fn.outputs][..1] == [fn.inputs];
      assert [fn.inputs][..0] == [];
      TwoListsWithComponents(fn.inputs, fn.outputs);
      assert ctx.registered == before + (WithComponents(fn.inputs) + WithComponents(fn.outputs));
    case EventField(e) =>
      RegisterParams(ctx, e.inputs);
      assert [e.inputs][..0] == [];
    case ErrorField(e) =>
      RegisterParams(ctx, e.inputs);
      assert [e.inputs][..0] == [];
    case _ =>
  }

  lemma TwoListsWithComponents(a: seq<Parameter>, b: seq<Parameter>)
    ensures ListsWithComponents([a, b]) == WithComponents(a) + WithComponents(b)
  {
    assert [a, b][..1] == [a];
    assert [a][..0] == [];
    assert ListsWithComponents([a]) == [] + WithComponents(a);
    assert [] + WithComponents(a) == WithComponents(a);
  }

  lemma RegisterTuplesStep(prev: seq<Parameter>, abi: seq<AbiField>, i: nat)
    requires i < |abi|
    ensures prev + ListsWithComponents(AbiLists(abi[..i])) + ListsWithComponents(FieldLists(abi[i]))
         == prev + ListsWithComponents(AbiLists(abi[..i + 1]))
  {
    AbiListsSnoc(abi, i);
    ListsWithComponentsAppend(AbiLists(abi[..i]), FieldLists(abi[i]));
    AppendAssoc(prev, ListsWithComponents(AbiLists(abi[..i])), ListsWithComponents(FieldLists(abi[i])));
  }

  /** `register_tuples` for an ABI list: the parameters with components of constructor
      inputs, function inputs then outputs, event inputs and error inputs. */
  method RegisterTuples(ctx: TupleSink, abi: seq<AbiField>)
    modifies ctx
    ensures ctx.registered == old(ctx.registered) + ListsWithComponents(AbiLists(abi))
  {
    for i := 0 to |abi|
      invariant ctx.registered == old(ctx.registered) + ListsWithComponents(AbiLists(abi[..i]))
    {
      RegisterField(ctx, abi[i]);
      RegisterTuplesStep(old(ctx.registered), abi, i);
    }
    assert abi[..|abi|] == abi;
  }

  /** `register_tuples` for an artifact: its ABI's. */
  method RegisterHardhatTuples(ctx: TupleSink, artifact: HardhatArtifact)
    modifies ctx
    ensures ctx.registered == old(ctx.registered) + ListsWithComponents(AbiLists(artifact.abi))
  {
    RegisterTuples(ctx, artifact.abi);
  }

  /** Only parameters carrying components ever reach the context, and every parameter of
      every list that carries components does. */
  lemma {:induction false} RegisteredAreTuples(lists: seq<seq<Parameter>>)
    ensures forall p :: p in ListsWithComponents(lists) <==>
      p.components.Present? && exists j :: 0 <= j < |lists| && p in lists[j]
    decreases |lists|
  {
    if lists != [] {
      var init := lists[..|lists| - 1];
      var last := lists[|lists| - 1];
      RegisteredAreTuples(init);
      WithComponentsExact(last);
      forall p ensures p in ListsWithComponents(lists) <==>
        p.components.Present? && exists j :: 0 <= j < |lists| && p in lists[j]
      {
        if p.components.Present? && (exists j :: 0 <= j < |lists| && p in lists[j]) {
          var j :| 0 <= j < |lists| && p in lists[j];
          if j < |init| { assert p in init[j]; }
        }
        if p in ListsWithComponents(init) {
          var j :| 0 <= j < |init| && p in init[j];
          assert p in lists[j];
        }
      }
    }
  }

  /** The calls generating an artifact issues when nothing fails: the ABI's field
      dispatch, then the deployment. */
  function HardhatCalls(artifact: HardhatArtifact): seq<Call>
  {
    FieldCalls(artifact.abi) + [GenerateDeploy(artifact.bytecode, FirstConstructorInputs(artifact.abi))]
  }

  /** No `begin` and no deployment is ever issued for an ABI list. */
  lemma NoBeginNoDeploy(abi: seq<AbiField>)
    ensures forall c :: c in FieldCalls(abi) ==> !c.Begin? && !c.GenerateDeploy?
  {
    FieldCallsCover(abi);
  }

  /** `Generate for Vec<AbiField>`: the field dispatch alone. */
  method Generate(g: Recorder, abi: seq<AbiField>) returns (ok: bool)
    modifies g
    ensures g.trace == old(g.trace) + Attempted(g.fails, FieldCalls(abi))
    ensures ok <==> Succeeds(g.fails, FieldCalls(abi))
  {
    ok := DispatchFields(g, abi);
  }

  /** `Generate for HardhatArtifact`: the ABI first, then the deployment. */
  method GenerateHardhat(g: Recorder, artifact: HardhatArtifact) returns (ok: bool)
    modifies g
    ensures g.trace == old(g.trace) + Attempted(g.fails, HardhatCalls(artifact))
    ensures ok <==> Succeeds(g.fails, HardhatCalls(artifact))
  {
    var inputs := FindConstructorInputs(artifact.abi);
    var deploy := GenerateDeploy(artifact.bytecode, inputs);
    ghost var before := g.trace;
    ok := Generate(g, artifact.abi);
    AttemptedAppend(g.fails, FieldCalls(artifact.abi), [deploy]);
    if !ok {
      return;
    }
    AttemptedSucceeded(g.fails, FieldCalls(artifact.abi));
    ok := g.Invoke(deploy);
    SingleCall(g.fails, deploy);
    AppendAssoc(before, FieldCalls(artifact.abi), [deploy]);
  }
}
