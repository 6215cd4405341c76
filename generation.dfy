/** Generation driven through the begin-first generator protocol: an ABI list is announced
    with `begin`, then dispatched field by field; an artifact adds its deployment last.
    The tuple pass registers every whole parameter list of the ABI in the executor. */
module Generation {
  import opened Abi
  import opened TupleKeys
  import opened Protocol
  import opened CoreExecutor

  /** The calls generating an ABI list issues when nothing fails. */
  function GenerateCalls(name: string, abi: seq<AbiField>): seq<Call>
  {
    [Begin(name)] + FieldCalls(abi)
  }

  /** The calls generating an artifact issues when nothing fails: the ABI's, then the
      deployment with the bytecode and the first constructor's inputs. */
  function HardhatCalls(name: string, artifact: HardhatArtifact): seq<Call>
  {
    GenerateCalls(name, artifact.abi) + [GenerateDeploy(artifact.bytecode, FirstConstructorInputs(artifact.abi))]
  }

  /** `begin` comes first and only once; the rest is the field dispatch. */
  lemma BeginFirstAndOnce(name: string, abi: seq<AbiField>)
    ensures GenerateCalls(name, abi)[0] == Begin(name)
    ensures forall i :: 0 < i < |GenerateCalls(name, abi)| ==> !GenerateCalls(name, abi)[i].Begin?
    ensures forall c :: c in GenerateCalls(name, abi) ==> !c.GenerateDeploy?
  {
    FieldCallsCover(abi);
    var calls := GenerateCalls(name, abi);
    forall i | 0 < i < |calls| ensures !calls[i].Begin? {
      assert calls[i] in FieldCalls(abi) by { assert calls[i] == FieldCalls(abi)[i - 1]; }
    }
  }

  /** An artifact's deployment is generated once, after everything else, with the first
      constructor's inputs (or none). */
  lemma DeployLastAndOnce(name: string, artifact: HardhatArtifact)
    ensures var calls := HardhatCalls(name, artifact);
            calls[|calls| - 1] == GenerateDeploy(artifact.bytecode, FirstConstructorInputs(artifact.abi))
            && forall i :: 0 <= i < |calls| - 1 ==> !calls[i].GenerateDeploy?
  {
    BeginFirstAndOnce(name, artifact.abi);
    var calls := HardhatCalls(name, artifact);
    forall i | 0 <= i < |calls| - 1 ensures !calls[i].GenerateDeploy? {
      assert calls[i] in GenerateCalls(name, artifact.abi) by { assert calls[i] == GenerateCalls(name, artifact.abi)[i]; }
    }
  }

  /** `Generate for Vec<AbiField>`: `begin`, then the field dispatch, stopping at the first
      failure. */
  method Generate(g: Recorder, abi: seq<AbiField>, name: string) returns (ok: bool)
    modifies g
    ensures g.trace == old(g.trace) + Attempted(g.fails, GenerateCalls(name, abi))
    ensures ok <==> Succeeds(g.fails, GenerateCalls(name, abi))
  {
    ghost var before := g.trace;
    ok := g.Invoke(Begin(name));
    SingleCall(g.fails, Begin(name));
    AttemptedAppend(g.fails, [Begin(name)], FieldCalls(abi));
    if !ok {
      return;
    }
    ok := DispatchFields(g, abi);
    AppendAssoc(before, [Begin(name)], Attempted(g.fails, FieldCalls(abi)));
  }

  /** `Generate for HardhatArtifact`: find the first constructor's inputs, generate the ABI,
      then the deployment. */
  method GenerateHardhat(g: Recorder, artifact: HardhatArtifact, name: string) returns (ok: bool)
    modifies g
    ensures g.trace == old(g.trace) + Attempted(g.fails, HardhatCalls(name, artifact))
    ensures ok <==> Succeeds(g.fails, HardhatCalls(name, artifact))
  {
    var inputs := FindConstructorInputs(artifact.abi);
    var deploy := GenerateDeploy(artifact.bytecode, inputs);
    ghost var before := g.trace;
    ok := Generate(g, artifact.abi, name);
    AttemptedAppend(g.fails, GenerateCalls(name, artifact.abi), [deploy]);
    if !ok {
      return;
    }
    AttemptedSucceeded(g.fails, GenerateCalls(name, artifact.abi));
    ok := g.Invoke(deploy);
    SingleCall(g.fails, deploy);
    AppendAssoc(before, GenerateCalls(name, artifact.abi), [deploy]);
  }

  /** `register_tuples` for one field: each of its parameter lists, as a whole tuple. */
  method RegisterField(ctx: Executor, f: AbiField)
    modifies ctx
    ensures ctx.tuples == RegisterLists(old(ctx.tuples), FieldLists(f))
    ensures ctx.mappingTuples == old(ctx.mappingTuples)
  {
    ghost var m := ctx.tuples;
    match f
    case ConstructorField(c) =>
      var _ := ctx.RegisterTuple(c.inputs);
      RegisterOneList(m, c.inputs);
    case FunctionField(fn) =>
      var _ := ctx.RegisterTuple(fn.inputs);
      var _ := ctx.RegisterTuple(fn.outputs);
      RegisterTwoLists(m, fn.inputs, fn.outputs);
    case EventField(e) =>
      var _ := ctx.RegisterTuple(e.inputs);
      RegisterOneList(m, e.inputs);
    case ErrorField(e) =>
      var _ := ctx.RegisterTuple(e.inputs);
      RegisterOneList(m, e.inputs);
    case _ =>
  }

  /** `register_tuples` for an ABI list: every parameter list of every field, in order. */
  method RegisterTuples(ctx: Executor, abi: seq<AbiField>)
    modifies ctx
    ensures ctx.tuples == RegisterLists(old(ctx.tuples), AbiLists(abi))
    ensures ctx.mappingTuples == old(ctx.mappingTuples)
  {
    for i := 0 to |abi|
      invariant ctx.tuples == RegisterLists(old(ctx.tuples), AbiLists(abi[..i]))
      invariant ctx.mappingTuples == old(ctx.mappingTuples)
    {
      AbiListsSnoc(abi, i);
      RegisterListsAppend(old(ctx.tuples), AbiLists(abi[..i]), FieldLists(abi[i]));
      RegisterField(ctx, abi[i]);
    }
    assert abi[..|abi|] == abi;
  }

  /** `register_tuples` for an artifact: its ABI's. */
  method RegisterHardhatTuples(ctx: Executor, artifact: HardhatArtifact)
    modifies ctx
    ensures ctx.tuples == RegisterLists(old(ctx.tuples), AbiLists(artifact.abi))
    ensures ctx.mappingTuples == old(ctx.mappingTuples)
  {
    RegisterTuples(ctx, artifact.abi);
  }

  /** A function's inputs are registered before its outputs, each as a tuple of its own. */
  lemma FunctionListsOrder(m: map<string, seq<Parameter>>, fn: FunctionAbi)
    ensures RegisterLists(m, AbiLists([FunctionField(fn)])) == Registered(Registered(m, fn.inputs), fn.outputs)
  {
    assert [FunctionField(fn)][..0] == [];
    assert AbiLists([FunctionField(fn)]) == [] + [fn.inputs, fn.outputs];
    assert [] + [fn.inputs, fn.outputs] == [fn.inputs, fn.outputs];
    RegisterTwoLists(m, fn.inputs, fn.outputs);
  }
}
