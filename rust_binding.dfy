/** The Rust binding generator: a type mapping and the contracts generated so far, the
    current contract being the one pushed last. `begin` pushes a contract; every other
    generator call appends to the current contract's lists. */
module RustBindings {
  import opened Wrappers
  import opened Abi
  import opened Strings
  import opened TypeMappings
  import opened RustTokens
  import opened RustContract
  import opened BindingFunctions
  import opened BindingDecodable
  import opened BindingEncodable
  import opened BindingTuple

  /** The text of the deploy function, from its parts. */
  function DeployText(generics: string, params: string, wheres: string, tryInto: string, encodables: seq<string>,
                      rtContext: string, rtOps: string, rtError: string, rtReceipt: string, rtEncode: string): string
  {
    "pub fn deploy<C," + generics + " Ops>(context: C, " + params + " ops: Ops) -> Result<" + rtReceipt + "," + rtError + ">"
    + " where C: TryInto<" + rtContext + ">,  C::Error: std::error::Error + Sync + Send + 'static,"
    + " Ops: TryInto<" + rtOps + ">, Ops::Error: std::error::Error + Sync + Send + 'static, " + wheres
    + " { let context = context.try_into()?; " + tryInto + " let ops = ops.try_into()?;"
    + " let inputs = vec![" + Terminated(encodables, ",") + "]; let call_data = " + rtEncode + "?;"
    + " context.deploy_contract(call_data,ops) }"
  }

  /** What `generate_deploy` computes before it appends: the input lists (of which only the
      where clauses and the encodables can fail), then the five runtime templates, in this
      order; the first failure is the outcome. */
  function DeployStream(f: Foreign, m: SerdeTypeMapping, context: Parameter -> string, inputs: seq<Parameter>)
    : Result<string, BindError>
  {
    match TerminatedAll(Collect(WhereEntries(f, context, inputs)), ",")
    case Failure(e) => Failure(e)
    case Success(wheres) =>
      match Collect(Encodables(f, m, inputs))
      case Failure(e) => Failure(e)
      case Success(encodables) =>
        match TemplateStream(f, m, "rt_context", [])
        case Failure(e) => Failure(e)
        case Success(rtContext) =>
          match TemplateStream(f, m, "rt_ops", [])
          case Failure(e) => Failure(e)
          case Success(rtOps) =>
            match TemplateStream(f, m, "rt_error", [])
            case Failure(e) => Failure(e)
            case Success(rtError) =>
              match TemplateStream(f, m, "rt_tx_receipt", [])
              case Failure(e) => Failure(e)
              case Success(rtReceipt) =>
                match TemplateStream(f, m, "rt_encode_input", [("$inputs", "inputs")])
                case Failure(e) => Failure(e)
                case Success(rtEncode) =>
                  Success(DeployText(Terminated(GenericEntries(|inputs|), ","), Terminated(ParamEntries(f, inputs), ","),
                                     wheres, Terminated(TryIntoEntries(f, inputs), ";"), encodables,
                                     rtContext, rtOps, rtError, rtReceipt, rtEncode))
  }

  /** The deploy text fails only where a `?` of `generate_deploy` can: it is built exactly
      when every input's type text parses, the `rt_to_encodable` template resolves for
      every input, and the five runtime templates resolve. */
  lemma DeployStreamSucceeds(f: Foreign, m: SerdeTypeMapping, context: Parameter -> string, inputs: seq<Parameter>)
    ensures DeployStream(f, m, context, inputs).Success? <==>
              && (forall i :: 0 <= i < |inputs| ==> f.parse(context(inputs[i])).Some?)
              && (forall i :: 0 <= i < |inputs| ==> Encodable(f, m, inputs[i]).Success?)
              && TemplateStream(f, m, "rt_context", []).Success?
              && TemplateStream(f, m, "rt_ops", []).Success?
              && TemplateStream(f, m, "rt_error", []).Success?
              && TemplateStream(f, m, "rt_tx_receipt", []).Success?
              && TemplateStream(f, m, "rt_encode_input", [("$inputs", "inputs")]).Success?
  {
    DeployInputsSucceed(f, m, context, inputs);
  }

  lemma DeployInputsSucceed(f: Foreign, m: SerdeTypeMapping, context: Parameter -> string, inputs: seq<Parameter>)
    ensures TerminatedAll(Collect(WhereEntries(f, context, inputs)), ",").Success? <==>
              forall i :: 0 <= i < |inputs| ==> f.parse(context(inputs[i])).Some?
    ensures Collect(Encodables(f, m, inputs)).Success? <==>
              forall i :: 0 <= i < |inputs| ==> Encodable(f, m, inputs[i]).Success?
  {
    WhereClausesOutcome(f, context, inputs);
    var rs := Encodables(f, m, inputs);
    CollectSucceeds(rs);
    assert forall i :: 0 <= i < |inputs| ==> rs[i] == Encodable(f, m, inputs[i]);
  }

  /** What `generate_event` and `generate_error` compute before they append: one decodable
      per input, in order, filled as `vec![…]` into the named constructor template. */
  function DecodableList(f: Foreign, m: SerdeTypeMapping, context: Parameter -> string, inputs: seq<Parameter>, template: string)
    : Result<string, BindError>
  {
    match Collect(Decodables(f, m, context, inputs))
    case Failure(e) => Failure(e)
    case Success(params) => TemplateStream(f, m, template, [("$params", "vec![" + Terminated(params, ",") + "]")])
  }

  /** What `generate_tuple` appends: a structure named `rType` with the tuple's fields. */
  function TupleStruct(f: Foreign, context: Parameter -> string, rType: string, tuple: seq<Parameter>): Result<string, BindError>
  {
    match TerminatedAll(Collect(FieldEntries(f, context, tuple)), ",")
    case Failure(e) => Failure(e)
    case Success(fields) => Success("pub struct " + rType + " { " + fields + " }")
  }

  predicate StartsStruct(name: string)
  {
    |name| >= 7 && name[..7] == "struct "
  }

  class RustBinding {
    const mapping: SerdeTypeMapping
    var contracts: seq<ContractBinding>

    /** Every pushed contract is a distinct object. */
    ghost predicate Valid()
      reads this
    {
      forall i, j :: 0 <= i < j < |contracts| ==> contracts[i] != contracts[j]
    }

    /** `RustBinding::new`: the mapping, and no contract yet. */
    constructor (mapping: SerdeTypeMapping)
      ensures this.mapping == mapping && contracts == [] && Valid()
    {
      this.mapping := mapping;
      contracts := [];
    }

    /** The contract the `add_*` calls append to: the last one pushed. */
    function Current(): ContractBinding
      reads this
      requires contracts != []
    {
      contracts[|contracts| - 1]
    }

    // ---- binding.rs: the accumulators ----

    method AddImplStream(stream: string)
      requires contracts != [] && Valid()
      modifies Current()
      ensures Current().impls == old(Current().impls) + [stream]
      ensures Current().errors == old(Current().errors) && Current().events == old(Current().events)
      ensures Current().tuples == old(Current().tuples)
      ensures forall i :: 0 <= i < |contracts| - 1 ==> unchanged(contracts[i])
    {
      Current().AddImplStream(stream);
    }

    method AddErrorStream(errorIdent: string, stream: string)
      requires contracts != [] && Valid()
      modifies Current()
      ensures Current().errors == old(Current().errors) + [(errorIdent, stream)]
      ensures Current().impls == old(Current().impls) && Current().events == old(Current().events)
      ensures Current().tuples == old(Current().tuples)
      ensures forall i :: 0 <= i < |contracts| - 1 ==> unchanged(contracts[i])
    {
      Current().AddErrorStream(errorIdent, stream);
    }

    method AddTupleStream(tupleIdent: string, stream: string)
      requires contracts != [] && Valid()
      modifies Current()
      ensures Current().tuples == old(Current().tuples) + [(tupleIdent, stream)]
      ensures Current().impls == old(Current().impls) && Current().errors == old(Current().errors)
      ensures Current().events == old(Current().events)
      ensures forall i :: 0 <= i < |contracts| - 1 ==> unchanged(contracts[i])
    {
      Current().AddTupleStream(tupleIdent, stream);
    }

    method AddEventStream(eventIdent: string, stream: string)
      requires contracts != [] && Valid()
      modifies Current()
      ensures Current().events == old(Current().events) + [(eventIdent, stream)]
      ensures Current().impls == old(Current().impls) && Current().errors == old(Current().errors)
      ensures Current().tuples == old(Current().tuples)
      ensures forall i :: 0 <= i < |contracts| - 1 ==> unchanged(contracts[i])
    {
      Current().AddEventStream(eventIdent, stream);
    }

    /** `contract_name`: the identifier of the contract `begin` pushed last. */
    function ContractName(): (name: string)
      reads this
      requires contracts != []
      ensures name == contracts[|contracts| - 1].ident
    {
      Current().ident
    }

    /** `to_token_streams`: the three runtime templates, then one `(identifier, code)` pair
        per contract, in push order. A template that does not resolve fails the call. */
    function ToTokenStreams(f: Foreign): (r: Result<seq<(string, string)>, BindError>)
      reads this, contracts
      ensures r.Success? <==>
                TemplateStream(f, mapping, "rt_context", []).Success? &&
                TemplateStream(f, mapping, "rt_contract_event", []).Success? &&
                TemplateStream(f, mapping, "rt_contract_error", []).Success?
      ensures r.Success? ==> |r.value| == |contracts|
      ensures r.Success? ==> forall i :: 0 <= i < |contracts| ==>
                r.value[i] == (contracts[i].ident,
                               contracts[i].GenCodes(TemplateStream(f, mapping, "rt_context", []).value,
                                                     TemplateStream(f, mapping, "rt_contract_event", []).value,
                                                     TemplateStream(f, mapping, "rt_contract_error", []).value).Text())
      ensures TemplateStream(f, mapping, "rt_context", []).Failure? ==>
                r == Failure(TemplateStream(f, mapping, "rt_context", []).error)
    {
      match TemplateStream(f, mapping, "rt_context", [])
      case Failure(e) => Failure(e)
      case Success(rtContext) =>
        match TemplateStream(f, mapping, "rt_contract_event", [])
        case Failure(e) => Failure(e)
        case Success(rtEvent) =>
          match TemplateStream(f, mapping, "rt_contract_error", [])
          case Failure(e) => Failure(e)
          case Success(rtError) =>
            Success(seq(|contracts|, i reads this, contracts requires 0 <= i < |contracts| =>
                          (contracts[i].ident, contracts[i].GenCodes(rtContext, rtEvent, rtError).Text())))
    }

    /** `to_string`: the code of every contract, in contract order. */
    function ToText(f: Foreign): (r: Result<string, BindError>)
      reads this, contracts
      ensures r.Success? <==> ToTokenStreams(f).Success?
      ensures r.Success? ==> r.value == Terminated(Streams(ToTokenStreams(f).value), " ")
    {
      match ToTokenStreams(f)
      case Failure(e) => Failure(e)
      case Success(pairs) => Success(Terminated(Streams(pairs), " "))
    }

    // ---- generator.rs: the Generator implementation ----

    /** `begin`: push exactly one new contract, named by the upper-camel-cased contract
        name, with all lists empty; the earlier contracts stay as they are. */
    method Begin(f: Foreign, contractName: string) returns (r: Result<(), BindError>)
      requires Valid()
      modifies this
      ensures Valid() && r == Success(())
      ensures |contracts| == |old(contracts)| + 1 && contracts[..|old(contracts)|] == old(contracts)
      ensures fresh(Current()) && Current().ident == f.camel(contractName)
      ensures Current().impls == [] && Current().errors == [] && Current().events == [] && Current().tuples == []
    {
      var c := new ContractBinding(f.camel(contractName));
      contracts := contracts + [c];
      assert contracts[..|old(contracts)|] == old(contracts);
      return Success(());
    }

    /** `generate_deploy`: every fallible step runs before the append, so the call either
        appends exactly one impl stream, the deploy function, or changes nothing. */
    method GenerateDeploy(f: Foreign, context: Parameter -> string, bytecode: string, inputs: seq<Parameter>)
      returns (r: Result<(), BindError>)
      requires contracts != [] && Valid()
      modifies Current()
      ensures r.Success? <==> DeployStream(f, mapping, context, inputs).Success?
      ensures r.Failure? ==> r.error == DeployStream(f, mapping, context, inputs).error
      ensures r.Success? ==> Current().impls == old(Current().impls) + [DeployStream(f, mapping, context, inputs).value]
      ensures r.Failure? ==> Current().impls == old(Current().impls)
      ensures Current().errors == old(Current().errors) && Current().events == old(Current().events)
      ensures Current().tuples == old(Current().tuples)
    {
      var deploy := BuildDeploy(f, context, inputs);
      if deploy.Failure? {
        return Failure(deploy.error);
      }
      AddImplStream(deploy.value);
      return Success(());
    }

    /** The deploy function's text, every fallible step in the order of `deploy`. */
    method BuildDeploy(f: Foreign, context: Parameter -> string, inputs: seq<Parameter>)
      returns (r: Result<string, BindError>)
      ensures r == DeployStream(f, mapping, context, inputs)
    {
      var genericList := ToFnGenericList(inputs);
      var params := ToFnParamsList(f, inputs);
      var wheres := ToFnGenericWhereClause(f, context, inputs);
      if wheres.Failure? {
        return Failure(wheres.error);
      }
      var tryInto := ToFnParamsTryIntoCallList(f, inputs);
      var encodables := ToEncodables(f, mapping, inputs);
      if encodables.Failure? {
        return Failure(encodables.error);
      }
      var rtContext := TemplateStream(f, mapping, "rt_context", []);
      if rtContext.Failure? {
        return Failure(rtContext.error);
      }
      var rtOps := TemplateStream(f, mapping, "rt_ops", []);
      if rtOps.Failure? {
        return Failure(rtOps.error);
      }
      var rtError := TemplateStream(f, mapping, "rt_error", []);
      if rtError.Failure? {
        return Failure(rtError.error);
      }
      var rtReceipt := TemplateStream(f, mapping, "rt_tx_receipt", []);
      if rtReceipt.Failure? {
        return Failure(rtReceipt.error);
      }
      var rtEncode := TemplateStream(f, mapping, "rt_encode_input", [("$inputs", "inputs")]);
      if rtEncode.Failure? {
        return Failure(rtEncode.error);
      }
      return Success(DeployText(genericList.value, params.value, wheres.value, tryInto.value, encodables.value,
                                rtContext.value, rtOps.value, rtError.value, rtReceipt.value, rtEncode.value));
    }

    /** `generate_error`: append exactly one error entry, named by the upper-camel-cased
        error name, holding the `rt_contract_error_new` constructor over the inputs'
        decodables; on failure nothing changes. */
    method GenerateError(f: Foreign, context: Parameter -> string, error: ErrorAbi) returns (r: Result<(), BindError>)
      requires contracts != [] && Valid()
      modifies Current()
      ensures r.Success? <==> DecodableList(f, mapping, context, error.inputs, "rt_contract_error_new").Success?
      ensures r.Failure? ==> r.error == DecodableList(f, mapping, context, error.inputs, "rt_contract_error_new").error
      ensures r.Success? ==>
                Current().errors == old(Current().errors) +
                  [(f.camel(error.name), DecodableList(f, mapping, context, error.inputs, "rt_contract_error_new").value)]
      ensures r.Failure? ==> Current().errors == old(Current().errors)
      ensures Current().impls == old(Current().impls) && Current().events == old(Current().events)
      ensures Current().tuples == old(Current().tuples)
    {
      var errorIdent := f.camel(error.name);
      var params := ToDecodables(f, mapping, context, error.inputs);
      if params.Failure? {
        return Failure(params.error);
      }
      var errorTypeNew := TemplateStream(f, mapping, "rt_contract_error_new", [("$params", "vec![" + Terminated(params.value, ",") + "]")]);
      if errorTypeNew.Failure? {
        return Failure(errorTypeNew.error);
      }
      AddErrorStream(errorIdent, errorTypeNew.value);
      return Success(());
    }

    /** `generate_event`: append exactly one event entry, named by the upper-camel-cased
        event name, holding the `rt_contract_event_new` constructor over the inputs'
        decodables; on failure nothing changes. */
    method GenerateEvent(f: Foreign, context: Parameter -> string, event: EventAbi) returns (r: Result<(), BindError>)
      requires contracts != [] && Valid()
      modifies Current()
      ensures r.Success? <==> DecodableList(f, mapping, context, event.inputs, "rt_contract_event_new").Success?
      ensures r.Failure? ==> r.error == DecodableList(f, mapping, context, event.inputs, "rt_contract_event_new").error
      ensures r.Success? ==>
                Current().events == old(Current().events) +
                  [(f.camel(event.name), DecodableList(f, mapping, context, event.inputs, "rt_contract_event_new").value)]
      ensures r.Failure? ==> Current().events == old(Current().events)
      ensures Current().impls == old(Current().impls) && Current().errors == old(Current().errors)
      ensures Current().tuples == old(Current().tuples)
    {
      var eventIdent := f.camel(event.name);
      var params := ToDecodables(f, mapping, context, event.inputs);
      if params.Failure? {
        return Failure(params.error);
      }
      var eventTypeNew := TemplateStream(f, mapping, "rt_contract_event_new", [("$params", "vec![" + Terminated(params.value, ",") + "]")]);
      if eventTypeNew.Failure? {
        return Failure(eventTypeNew.error);
      }
      AddEventStream(eventIdent, eventTypeNew.value);
      return Success(());
    }

    /** `generate_function`: no effect. */
    method GenerateFunction(f: Foreign, context: Parameter -> string, fn: FunctionAbi) returns (r: Result<(), BindError>)
      ensures r == Success(())
    {
      return Success(());
    }

    /** `generate_tuple`: append exactly one tuple entry named `rType`, a structure with the
        tuple's fields; on failure nothing changes. */
    method GenerateTuple(f: Foreign, context: Parameter -> string, rType: string, tuple: seq<Parameter>)
      returns (r: Result<(), BindError>)
      requires contracts != [] && Valid()
      modifies Current()
      ensures r.Success? <==> TupleStruct(f, context, rType, tuple).Success?
      ensures r.Failure? ==> r.error == TupleStruct(f, context, rType, tuple).error
      ensures r.Success? ==> Current().tuples == old(Current().tuples) + [(rType, TupleStruct(f, context, rType, tuple).value)]
      ensures r.Failure? ==> Current().tuples == old(Current().tuples)
      ensures Current().impls == old(Current().impls) && Current().errors == old(Current().errors)
      ensures Current().events == old(Current().events)
    {
      var fields := ToTupleFields(f, context, tuple);
      if fields.Failure? {
        return Failure(fields.error);
      }
      AddTupleStream(rType, "pub struct " + rType + " { " + fields.value + " }");
      return Success(());
    }

    /** `mapping_tuple`: the current contract's name, then, for a Hardhat internal type
        `struct X.Y`, the rest of the name with every `.` removed, and otherwise `Tuple`
        followed by the whole name. */
    function MappingTuple(name: string): (r: string)
      reads this
      requires contracts != []
      ensures |r| >= |ContractName()| && r[..|ContractName()|] == ContractName()
      ensures StartsStruct(name) ==> r[|ContractName()|..] == ReplaceAll(name[7..], ".", "")
      ensures StartsStruct(name) ==> '.' !in r[|ContractName()|..]
      ensures !StartsStruct(name) ==> r[|ContractName()|..] == "Tuple" + name
    {
      if StartsStruct(name) then
        RemoveIsReplace(name[7..], '.');
        ContractName() + Remove(name[7..], '.')
      else
        ContractName() + "Tuple" + name
    }
  }
}
