/** The binding builder of the core crate: contracts are queued with `bind*`, then
    `finalize` runs the queue against one shared executor and the generator. Reading a
    file and decoding JSON are outside the model; they are the oracle `Io`. */
module Builders {
  import opened Wrappers
  import opened Abi
  import opened TupleKeys
  import opened Protocol
  import opened CoreExecutor
  import Generation

  /** The contract types `generate_one` accepts: an ABI list or a Hardhat artifact. */
  datatype Contract = AbiList(abi: seq<AbiField>) | Artifact(artifact: HardhatArtifact)

  function ContractAbi(c: Contract): seq<AbiField>
  {
    match c
    case AbiList(abi) => abi
    case Artifact(artifact) => artifact.abi
  }

  /** The calls generating a contract issues when nothing fails. */
  function ContractCalls(name: string, c: Contract): seq<Call>
  {
    match c
    case AbiList(abi) => Generation.GenerateCalls(name, abi)
    case Artifact(artifact) => Generation.HardhatCalls(name, artifact)
  }

  /** `Executor::generate_one`: optionally register the contract's tuples, then generate.
      Tuples are registered before any generator call, so they are in place even when
      generation fails. The generator is a `Recorder` with no access to `ctx`, so its calls
      leave both tables as the registration pass leaves them. */
  method GenerateOne(ctx: Executor, g: Recorder, name: string, contract: Contract, registerTuples: bool) returns (ok: bool)
    modifies ctx, g
    ensures registerTuples ==> ctx.tuples == RegisterLists(old(ctx.tuples), AbiLists(ContractAbi(contract)))
    ensures !registerTuples ==> ctx.tuples == old(ctx.tuples)
    ensures ctx.mappingTuples == old(ctx.mappingTuples)
    ensures g.trace == old(g.trace) + Attempted(g.fails, ContractCalls(name, contract))
    ensures ok <==> Succeeds(g.fails, ContractCalls(name, contract))
  {
    if registerTuples {
      match contract
      case AbiList(abi) => Generation.RegisterTuples(ctx, abi);
      case Artifact(artifact) => Generation.RegisterHardhatTuples(ctx, artifact);
    }
    match contract
    case AbiList(abi) => ok := Generation.Generate(g, abi, name);
    case Artifact(artifact) => ok := Generation.GenerateHardhat(g, artifact, name);
  }

  /** Where a queued contract's JSON comes from: the text itself, or a file path. */
  datatype Source = Text(text: string) | File(path: string)

  /** One queued binding: `bind` and `bind_file` queue an ABI list, `bind_hardhat` and
      `bind_hardhat_file` an artifact. */
  datatype Build = Build(name: string, hardhat: bool, source: Source)

  /** The file system and the JSON decoder: `None` is an I/O or decoding error. */
  datatype Io = Io(
    readFile: string -> Option<string>,
    parseAbi: string -> Option<seq<AbiField>>,
    parseArtifact: string -> Option<HardhatArtifact>)

  /** The JSON text a build decodes. */
  function BuildText(io: Io, b: Build): Option<string>
  {
    match b.source
    case Text(text) => Some(text)
    case File(path) => io.readFile(path)
  }

  /** The contract a build decodes to, or `None` when reading or decoding fails. */
  function BuildContract(io: Io, b: Build): (c: Option<Contract>)
    ensures BuildText(io, b).None? ==> c.None?
    ensures c.Some? ==> (b.hardhat <==> c.value.Artifact?)
  {
    match BuildText(io, b)
    case None => None
    case Some(text) =>
      if b.hardhat then
        (match io.parseArtifact(text)
         case None => None
         case Some(artifact) => Some(Artifact(artifact)))
      else
        (match io.parseAbi(text)
         case None => None
         case Some(abi) => Some(AbiList(abi)))
  }

  /** The build runs to completion: it decodes and every generator call succeeds. */
  predicate BuildOk(fails: Call -> bool, io: Io, b: Build)
  {
    BuildContract(io, b).Some? && Succeeds(fails, ContractCalls(b.name, BuildContract(io, b).value))
  }

  /** The generator calls a build issues: none when it does not decode. */
  function BuildTrace(fails: Call -> bool, io: Io, b: Build): seq<Call>
  {
    match BuildContract(io, b)
    case None => []
    case Some(c) => Attempted(fails, ContractCalls(b.name, c))
  }

  /** The parameter lists a build registers as tuples: none when it does not decode. */
  function BuildLists(io: Io, b: Build): seq<seq<Parameter>>
  {
    match BuildContract(io, b)
    case None => []
    case Some(c) => AbiLists(ContractAbi(c))
  }

  /** `finalize` runs to completion over `builds`. */
  predicate RunOk(fails: Call -> bool, io: Io, builds: seq<Build>)
  {
    builds == [] || (RunOk(fails, io, builds[..|builds| - 1]) && BuildOk(fails, io, builds[|builds| - 1]))
  }

  /** The generator calls `finalize` issues over `builds`: each build's in turn, up to the
      first build that fails. */
  function RunTrace(fails: Call -> bool, io: Io, builds: seq<Build>): seq<Call>
  {
    if builds == [] then []
    else if !RunOk(fails, io, builds[..|builds| - 1]) then RunTrace(fails, io, builds[..|builds| - 1])
    else RunTrace(fails, io, builds[..|builds| - 1]) + BuildTrace(fails, io, builds[|builds| - 1])
  }

  /** The parameter lists registered in the shared executor over `builds`. */
  function RunLists(fails: Call -> bool, io: Io, builds: seq<Build>): seq<seq<Parameter>>
  {
    if builds == [] then []
    else if !RunOk(fails, io, builds[..|builds| - 1]) then RunLists(fails, io, builds[..|builds| - 1])
    else RunLists(fails, io, builds[..|builds| - 1]) + BuildLists(io, builds[|builds| - 1])
  }

  /** The queued-closure builder (`BindingBuilder`). */
  class BindingBuilder {
    var builds: seq<Build>
    const generator: Recorder

    /** `BindingBuilder::new`. */
    constructor(generator: Recorder)
      ensures builds == [] && this.generator == generator
    {
      builds := [];
      this.generator := generator;
    }

    method Bind(name: string, contract: string)
      modifies this
      ensures builds == old(builds) + [Build(name, false, Text(contract))]
    {
      builds := builds + [Build(name, false, Text(contract))];
    }

    method BindHardhat(name: string, contract: string)
      modifies this
      ensures builds == old(builds) + [Build(name, true, Text(contract))]
    {
      builds := builds + [Build(name, true, Text(contract))];
    }

    method BindFile(name: string, path: string)
      modifies this
      ensures builds == old(builds) + [Build(name, false, File(path))]
    {
      builds := builds + [Build(name, false, File(path))];
    }

    method BindHardhatFile(name: string, path: string)
      modifies this
      ensures builds == old(builds) + [Build(name, true, File(path))]
    {
      builds := builds + [Build(name, true, File(path))];
    }

    /** `finalize`: a fresh executor, then every queued build in order, stopping at the
        first error. The executor is returned as a ghost witness of the tuple registry.
        The generator is given no access to the executor, so nothing fills the table of
        tuple mappings: it stays empty, and resolving any type that needs a tuple key then
        fails (`CoreExecutor.MappedTypeSucceeds`). */
    method Finalize(io: Io) returns (ok: bool, ghost executor: Executor)
      modifies generator
      ensures fresh(executor)
      ensures Ran(generator.fails, io, builds, old(generator.trace), generator.trace, executor.tuples)
      ensures ok <==> RunOk(generator.fails, io, builds)
      ensures executor.mappingTuples == map[]
    {
      var ctx := new Executor();
      executor := ctx;
      ok := true;
      ghost var before := generator.trace;
      for i := 0 to |builds|
        invariant fresh(ctx)
        invariant Ran(generator.fails, io, builds[..i], before, generator.trace, ctx.tuples)
        invariant RunOk(generator.fails, io, builds[..i])
        invariant ctx.mappingTuples == map[]
      {
        ok := FinalizeStep(ctx, generator, io, builds, i, before);
        if !ok {
          return;
        }
      }
      assert builds[..|builds|] == builds;
    }
  }

  /** The state after running `builds`: the generator's calls and the executor's registry. */
  ghost predicate Ran(fails: Call -> bool, io: Io, builds: seq<Build>, before: seq<Call>, trace: seq<Call>,
                      tuples: map<string, seq<Parameter>>)
  {
    trace == before + RunTrace(fails, io, builds) && tuples == RegisterLists(map[], RunLists(fails, io, builds))
  }

  /** One iteration of the `finalize` loop. */
  method FinalizeStep(ctx: Executor, g: Recorder, io: Io, builds: seq<Build>, i: nat, ghost before: seq<Call>) returns (ok: bool)
    requires i < |builds|
    requires Ran(g.fails, io, builds[..i], before, g.trace, ctx.tuples) && RunOk(g.fails, io, builds[..i])
    modifies ctx, g
    ensures ok ==> Ran(g.fails, io, builds[..i + 1], before, g.trace, ctx.tuples) && RunOk(g.fails, io, builds[..i + 1])
    ensures !ok ==> Ran(g.fails, io, builds, before, g.trace, ctx.tuples) && !RunOk(g.fails, io, builds)
    ensures ctx.mappingTuples == old(ctx.mappingTuples)
  {
    ghost var t0, m0 := g.trace, ctx.tuples;
    ok := RunBuild(ctx, g, io, builds[i]);
    RanStep(g.fails, io, builds, i, before, t0, m0, g.trace, ctx.tuples, ok);
  }

  lemma RanStep(fails: Call -> bool, io: Io, builds: seq<Build>, i: nat, before: seq<Call>,
                t0: seq<Call>, m0: map<string, seq<Parameter>>, t1: seq<Call>, m1: map<string, seq<Parameter>>, ok: bool)
    requires i < |builds|
    requires Ran(fails, io, builds[..i], before, t0, m0) && RunOk(fails, io, builds[..i])
    requires t1 == t0 + BuildTrace(fails, io, builds[i]) && m1 == RegisterLists(m0, BuildLists(io, builds[i]))
    requires ok <==> BuildOk(fails, io, builds[i])
    ensures ok ==> t1 == before + RunTrace(fails, io, builds[..i + 1])
    ensures ok ==> m1 == RegisterLists(map[], RunLists(fails, io, builds[..i + 1]))
    ensures ok ==> RunOk(fails, io, builds[..i + 1])
    ensures !ok ==> t1 == before + RunTrace(fails, io, builds)
    ensures !ok ==> m1 == RegisterLists(map[], RunLists(fails, io, builds))
    ensures !ok ==> !RunOk(fails, io, builds)
  {
    RunStep(fails, io, builds, i);
    var lists := if ok then RunLists(fails, io, builds[..i + 1]) else RunLists(fails, io, builds);
    RegistryStep(m0, m1, RunLists(fails, io, builds[..i]), BuildLists(io, builds[i]), lists);
    var trace := if ok then RunTrace(fails, io, builds[..i + 1]) else RunTrace(fails, io, builds);
    TraceStep(before, t0, t1, RunTrace(fails, io, builds[..i]), BuildTrace(fails, io, builds[i]), trace);
  }

  lemma TraceStep(before: seq<Call>, t0: seq<Call>, t1: seq<Call>, done: seq<Call>, step: seq<Call>, trace: seq<Call>)
    requires t0 == before + done && t1 == t0 + step && trace == done + step
    ensures t1 == before + trace
  {
  }

  lemma RegistryStep(m0: map<string, seq<Parameter>>, m1: map<string, seq<Parameter>>,
                     done: seq<seq<Parameter>>, step: seq<seq<Parameter>>, lists: seq<seq<Parameter>>)
    requires m0 == RegisterLists(map[], done) && m1 == RegisterLists(m0, step) && lists == done + step
    ensures m1 == RegisterLists(map[], lists)
  {
    RegisterListsAppend(map[], done, step);
  }

  /** One queued closure: read, decode, then `generate_one` with tuple registration. */
  method RunBuild(ctx: Executor, g: Recorder, io: Io, b: Build) returns (ok: bool)
    modifies ctx, g
    ensures g.trace == old(g.trace) + BuildTrace(g.fails, io, b)
    ensures ok <==> BuildOk(g.fails, io, b)
    ensures ctx.tuples == RegisterLists(old(ctx.tuples), BuildLists(io, b))
    ensures ctx.mappingTuples == old(ctx.mappingTuples)
  {
    var text: string;
    match b.source {
      case Text(t) => text := t;
      case File(path) =>
        var read := io.readFile(path);
        if read.None? {
          ok := false;
          return;
        }
        text := read.value;
    }
    var contract: Contract;
    if b.hardhat {
      var parsed := io.parseArtifact(text);
      if parsed.None? {
        ok := false;
        return;
      }
      contract := Artifact(parsed.value);
    } else {
      var parsed := io.parseAbi(text);
      if parsed.None? {
        ok := false;
        return;
      }
      contract := AbiList(parsed.value);
    }
    assert BuildContract(io, b) == Some(contract);
    ok := GenerateOne(ctx, g, b.name, contract, true);
  }

  /** One step of the `finalize` loop: after the first `i` builds ran to completion, the
      run either goes on with the first `i + 1` or has ended for good. */
  lemma RunStep(fails: Call -> bool, io: Io, builds: seq<Build>, i: nat)
    requires i < |builds| && RunOk(fails, io, builds[..i])
    ensures BuildOk(fails, io, builds[i]) ==>
      && RunOk(fails, io, builds[..i + 1])
      && RunTrace(fails, io, builds[..i + 1]) == RunTrace(fails, io, builds[..i]) + BuildTrace(fails, io, builds[i])
      && RunLists(fails, io, builds[..i + 1]) == RunLists(fails, io, builds[..i]) + BuildLists(io, builds[i])
    ensures !BuildOk(fails, io, builds[i]) ==>
      && !RunOk(fails, io, builds)
      && RunTrace(fails, io, builds) == RunTrace(fails, io, builds[..i]) + BuildTrace(fails, io, builds[i])
      && RunLists(fails, io, builds) == RunLists(fails, io, builds[..i]) + BuildLists(io, builds[i])
  {
    assert builds[..i + 1][..i] == builds[..i];
    if !BuildOk(fails, io, builds[i]) {
      RunStops(fails, io, builds, i);
    }
  }

  /** A failing build ends the run: later builds add neither calls nor tuples. */
  lemma {:induction false} RunStops(fails: Call -> bool, io: Io, builds: seq<Build>, i: nat)
    requires i < |builds| && RunOk(fails, io, builds[..i]) && !BuildOk(fails, io, builds[i])
    ensures !RunOk(fails, io, builds)
    ensures RunTrace(fails, io, builds) == RunTrace(fails, io, builds[..i]) + BuildTrace(fails, io, builds[i])
    ensures RunLists(fails, io, builds) == RunLists(fails, io, builds[..i]) + BuildLists(io, builds[i])
    decreases |builds|
  {
    var init := builds[..|builds| - 1];
    if i == |builds| - 1 {
      assert init == builds[..i];
    } else {
      assert init[..i] == builds[..i];
      assert init[i] == builds[i];
      RunStops(fails, io, init, i);
    }
  }

  /** `finalize` succeeds exactly when every queued build decodes and generates. */
  lemma {:induction false} RunOkIff(fails: Call -> bool, io: Io, builds: seq<Build>)
    ensures RunOk(fails, io, builds) <==> forall i :: 0 <= i < |builds| ==> BuildOk(fails, io, builds[i])
    decreases |builds|
  {
    if builds != [] {
      var init := builds[..|builds| - 1];
      RunOkIff(fails, io, init);
      assert forall i :: 0 <= i < |init| ==> init[i] == builds[i];
    }
  }

  /** When it succeeds, the generator has seen each build's calls in queue order, and the
      executor holds the tuples of every build. */
  lemma {:induction false} RunTraceWhenOk(fails: Call -> bool, io: Io, builds: seq<Build>, b: Build)
    requires RunOk(fails, io, builds) && BuildOk(fails, io, b)
    ensures RunOk(fails, io, builds + [b])
    ensures RunTrace(fails, io, builds + [b]) == RunTrace(fails, io, builds) + ContractCalls(b.name, BuildContract(io, b).value)
    ensures RunLists(fails, io, builds + [b]) == RunLists(fails, io, builds) + AbiLists(ContractAbi(BuildContract(io, b).value))
  {
    assert (builds + [b])[..|builds|] == builds;
    AttemptedSucceeded(fails, ContractCalls(b.name, BuildContract(io, b).value));
  }

  /** A build whose source cannot be read or decoded issues no generator call. */
  lemma UndecodableBuildIsSilent(fails: Call -> bool, io: Io, b: Build)
    requires BuildContract(io, b).None?
    ensures BuildTrace(fails, io, b) == [] && BuildLists(io, b) == [] && !BuildOk(fails, io, b)
  {
  }
}
