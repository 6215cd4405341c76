/** The older Rust generator: one contract at a time, held as an optional struct identifier
    and the list of generated functions. Only `generate_deploy` produces code; tuple inputs
    are encoded field by field along `{path}.{index}` paths. */
module LegacyRust {
  import opened Wrappers
  import opened Abi
  import opened Strings
  import opened TypeMappings
  import opened RustTokens

  /** The five lists `gen_input_streams` returns: parameters, generics, conversion
      statements, encoding clauses and where clauses. */
  datatype InputStreams = InputStreams(
    params: seq<string>,
    generics: seq<string>,
    tryInto: seq<string>,
    encodings: seq<string>,
    wheres: seq<string>)

  predicate IsTupleType(t: Type)
  {
    t == Simple(Tuple)
  }

  /** A tuple-typed parameter without components: it gets no encoding clause, only a
      logged warning. */
  predicate Unencodable(p: Parameter)
  {
    IsTupleType(p.typ) && p.components.Absent?
  }

  /** `tuple_to_encoding_param(path, tuple)`: the clauses of the fields, wrapped as
      `vec![…]` in the `rt_to_encodable_param` template. */
  function TupleEncoding(f: Foreign, m: SerdeTypeMapping, path: string, tuple: seq<Parameter>): Result<string, BindError>
    decreases ListSize(tuple), 1
  {
    match TupleClauses(f, m, path, tuple)
    case Failure(e) => Failure(e)
    case Success(clauses) => TemplateStream(f, m, "rt_to_encodable_param", [("$param", "vec![" + Terminated(clauses, ",") + "]")])
  }

  /** The clauses of a tuple's fields, in order: field i is at `{path}.{i}`; a nested tuple
      with components recurses along that path, one without components is skipped, and any
      other field is `rt_to_encodable_param` of its path. The first failure aborts. */
  function TupleClauses(f: Foreign, m: SerdeTypeMapping, path: string, tuple: seq<Parameter>): Result<seq<string>, BindError>
    decreases ListSize(tuple), 0
  {
    if tuple == [] then Success([])
    else
      var n := |tuple| - 1;
      var p := tuple[n];
      var fieldPath := path + "." + Decimal(n);
      match TupleClauses(f, m, path, tuple[..n])
      case Failure(e) => Failure(e)
      case Success(clauses) =>
        if IsTupleType(p.typ) then
          if p.components.Present? then
            match TupleEncoding(f, m, fieldPath, p.components.params)
            case Failure(e) => Failure(e)
            case Success(c) => Success(clauses + [c])
          else Success(clauses)
        else
          match TemplateStream(f, m, "rt_to_encodable_param", [("$param", fieldPath)])
          case Failure(e) => Failure(e)
          case Success(c) => Success(clauses + [c])
  }

  lemma {:induction false} TupleClausesPrefixFails(f: Foreign, m: SerdeTypeMapping, path: string, tuple: seq<Parameter>, k: nat)
    requires k <= |tuple| && TupleClauses(f, m, path, tuple[..k]).Failure?
    ensures TupleClauses(f, m, path, tuple) == TupleClauses(f, m, path, tuple[..k])
    decreases |tuple|
  {
    if k < |tuple| {
      var init := tuple[..|tuple| - 1];
      assert init[..k] == tuple[..k];
      TupleClausesPrefixFails(f, m, path, init, k);
    } else {
      assert tuple[..k] == tuple;
    }
  }

  /** The encoding loop of `tuple_to_encoding_param`, recursing into nested tuples. */
  method TupleToEncodingParam(f: Foreign, m: SerdeTypeMapping, path: string, tuple: seq<Parameter>)
    returns (r: Result<string, BindError>)
    ensures r == TupleEncoding(f, m, path, tuple)
    decreases ListSize(tuple)
  {
    var clauses := [];
    for i := 0 to |tuple|
      invariant TupleClauses(f, m, path, tuple[..i]) == Success(clauses)
    {
      var p := tuple[i];
      var fieldPath := path + "." + Decimal(i);
      assert tuple[..i + 1][..i] == tuple[..i];
      var c: Result<string, BindError>;
      if IsTupleType(p.typ) {
        if p.components.Present? {
          ElementSmaller(tuple, i);
          c := TupleToEncodingParam(f, m, fieldPath, p.components.params);
        } else {
          continue;
        }
      } else {
        c := TemplateStream(f, m, "rt_to_encodable_param", [("$param", fieldPath)]);
      }
      if c.Failure? {
        TupleClausesPrefixFails(f, m, path, tuple, i + 1);
        return Failure(c.error);
      }
      clauses := clauses + [c.value];
    }
    assert tuple[..|tuple|] == tuple;
    r := TemplateStream(f, m, "rt_to_encodable_param", [("$param", "vec![" + Terminated(clauses, ",") + "]")]);
  }

  /** The encoding clauses of one input: none for a tuple without components, the tuple's
      encoding along the input's own name for a tuple with components, and otherwise
      `rt_to_encodable_param` of the snake-cased name. */
  function EncodingClause(f: Foreign, m: SerdeTypeMapping, p: Parameter): (r: Result<seq<string>, BindError>)
    ensures r.Success? ==> |r.value| == if Unencodable(p) then 0 else 1
  {
    if IsTupleType(p.typ) then
      if p.components.Present? then
        match TupleEncoding(f, m, p.name, p.components.params)
        case Failure(e) => Failure(e)
        case Success(c) => Success([c])
      else Success([])
    else
      match TemplateStream(f, m, "rt_to_encodable_param", [("$param", f.snake(p.name))])
      case Failure(e) => Failure(e)
      case Success(c) => Success([c])
  }

  /** The where clause of input i: `P{i}` converts into its mapped type, its error into the
      runtime error type. */
  function LegacyWhere(i: nat, mapped: string, rtError: string): string
  {
    TypeParam(i) + ": TryInto<" + mapped + ">, " + TypeParam(i) + "::Error: Into<" + rtError + ">"
  }

  /** The per-input part of `gen_input_streams`: one entry per input in four lists, the
      encodings as `EncodingClause` gives them; the first failure aborts. */
  function InputLists(f: Foreign, m: SerdeTypeMapping, context: Parameter -> string, rtError: string, inputs: seq<Parameter>)
    : Result<InputStreams, BindError>
  {
    if inputs == [] then Success(InputStreams([], [], [], [], []))
    else
      var i := |inputs| - 1;
      var p := inputs[i];
      var v := f.snake(p.name);
      match InputLists(f, m, context, rtError, inputs[..i])
      case Failure(e) => Failure(e)
      case Success(s) =>
        match ParsedStream(f, context(p))
        case Failure(e) => Failure(e)
        case Success(mapped) =>
          match EncodingClause(f, m, p)
          case Failure(e) => Failure(e)
          case Success(enc) =>
            Success(InputStreams(s.params + [v + " : " + TypeParam(i)], s.generics + [TypeParam(i)],
                                 s.tryInto + ["let " + v + " = " + v + ".try_into()?"], s.encodings + enc,
                                 s.wheres + [LegacyWhere(i, mapped, rtError)]))
  }

  /** `gen_input_streams`: the runtime error template first, then the per-input lists. */
  function InputStreamsOf(f: Foreign, m: SerdeTypeMapping, context: Parameter -> string, inputs: seq<Parameter>)
    : Result<InputStreams, BindError>
  {
    match TemplateStream(f, m, "rt_error", [])
    case Failure(e) => Failure(e)
    case Success(rtError) => InputLists(f, m, context, rtError, inputs)
  }

  lemma {:induction false} InputListsPrefixFails(f: Foreign, m: SerdeTypeMapping, context: Parameter -> string, rtError: string,
                                                 inputs: seq<Parameter>, k: nat)
    requires k <= |inputs| && InputLists(f, m, context, rtError, inputs[..k]).Failure?
    ensures InputLists(f, m, context, rtError, inputs) == InputLists(f, m, context, rtError, inputs[..k])
    decreases |inputs|
  {
    if k < |inputs| {
      var init := inputs[..|inputs| - 1];
      assert init[..k] == inputs[..k];
      InputListsPrefixFails(f, m, context, rtError, init, k);
    } else {
      assert inputs[..k] == inputs;
    }
  }

  /** The number of inputs that get no encoding clause. */
  function UnencodableCount(inputs: seq<Parameter>): nat
  {
    if inputs == [] then 0
    else UnencodableCount(inputs[..|inputs| - 1]) + (if Unencodable(inputs[|inputs| - 1]) then 1 else 0)
  }

  /** The shape of the five lists: parameters, generics, conversions and where clauses have
      one entry per input, generic i is `P{i}` and parameter i is `snake(name_i) : P{i}`;
      the encodings have one entry per input except the tuple inputs without components. */
  lemma InputListsShape(f: Foreign, m: SerdeTypeMapping, context: Parameter -> string, rtError: string,
                        inputs: seq<Parameter>)
    requires InputLists(f, m, context, rtError, inputs).Success?
    ensures var s := InputLists(f, m, context, rtError, inputs).value;
            |s.params| == |s.generics| == |s.tryInto| == |s.wheres| == |inputs| &&
            |s.encodings| == |inputs| - UnencodableCount(inputs) &&
            (forall i :: 0 <= i < |inputs| ==> s.generics[i] == TypeParam(i)) &&
            (forall i :: 0 <= i < |inputs| ==> s.params[i] == f.snake(inputs[i].name) + " : " + TypeParam(i))
  {
    InputListsLengths(f, m, context, rtError, inputs);
    InputListsNames(f, m, context, rtError, inputs);
  }

  lemma {:induction false} InputListsLengths(f: Foreign, m: SerdeTypeMapping, context: Parameter -> string, rtError: string,
                                             inputs: seq<Parameter>)
    requires InputLists(f, m, context, rtError, inputs).Success?
    ensures var s := InputLists(f, m, context, rtError, inputs).value;
            |s.params| == |s.generics| == |s.tryInto| == |s.wheres| == |inputs| &&
            |s.encodings| == |inputs| - UnencodableCount(inputs)
    decreases |inputs|
  {
    if inputs != [] {
      InputListsStep(f, m, context, rtError, inputs);
      InputListsLengths(f, m, context, rtError, inputs[..|inputs| - 1]);
    }
  }

  lemma {:induction false} InputListsNames(f: Foreign, m: SerdeTypeMapping, context: Parameter -> string, rtError: string,
                                           inputs: seq<Parameter>)
    requires InputLists(f, m, context, rtError, inputs).Success?
    ensures var s := InputLists(f, m, context, rtError, inputs).value;
            |s.params| == |s.generics| == |inputs| &&
            (forall i :: 0 <= i < |inputs| ==> s.generics[i] == TypeParam(i)) &&
            (forall i :: 0 <= i < |inputs| ==> s.params[i] == f.snake(inputs[i].name) + " : " + TypeParam(i))
    decreases |inputs|
  {
    if inputs != [] {
      var init := inputs[..|inputs| - 1];
      InputListsStep(f, m, context, rtError, inputs);
      InputListsNames(f, m, context, rtError, init);
      var s, r := InputLists(f, m, context, rtError, inputs).value, InputLists(f, m, context, rtError, init).value;
      forall i | 0 <= i < |inputs|
        ensures s.generics[i] == TypeParam(i) && s.params[i] == f.snake(inputs[i].name) + " : " + TypeParam(i)
      {
        if i < |init| {
          assert init[i] == inputs[i] && s.generics[i] == r.generics[i] && s.params[i] == r.params[i];
        }
      }
    }
  }

  /** One step of the input loop: the last input adds one entry to four of the lists and
      one encoding unless it cannot be encoded. */
  lemma InputListsStep(f: Foreign, m: SerdeTypeMapping, context: Parameter -> string, rtError: string,
                       inputs: seq<Parameter>)
    requires inputs != [] && InputLists(f, m, context, rtError, inputs).Success?
    ensures var n := |inputs| - 1;
            var r := InputLists(f, m, context, rtError, inputs[..n]);
            var s := InputLists(f, m, context, rtError, inputs).value;
            r.Success? &&
            s.params == r.value.params + [f.snake(inputs[n].name) + " : " + TypeParam(n)] &&
            s.generics == r.value.generics + [TypeParam(n)] &&
            |s.tryInto| == |r.value.tryInto| + 1 && |s.wheres| == |r.value.wheres| + 1 &&
            |s.encodings| == |r.value.encodings| + (if Unencodable(inputs[n]) then 0 else 1)
  {
  }

  /** One input's encoding step: the recursive encoding for a tuple with components. */
  method EncodeInput(f: Foreign, m: SerdeTypeMapping, p: Parameter) returns (r: Result<seq<string>, BindError>)
    ensures r == EncodingClause(f, m, p)
  {
    if IsTupleType(p.typ) {
      if p.components.Present? {
        var c := TupleToEncodingParam(f, m, p.name, p.components.params);
        if c.Failure? {
          return Failure(c.error);
        }
        return Success([c.value]);
      }
      return Success([]);
    }
    var c := TemplateStream(f, m, "rt_to_encodable_param", [("$param", f.snake(p.name))]);
    if c.Failure? {
      return Failure(c.error);
    }
    return Success([c.value]);
  }

  /** The loop of `gen_input_streams`, filling the five lists. */
  method GenInputStreams(f: Foreign, m: SerdeTypeMapping, context: Parameter -> string, inputs: seq<Parameter>)
    returns (r: Result<InputStreams, BindError>)
    ensures r == InputStreamsOf(f, m, context, inputs)
  {
    var rtError := TemplateStream(f, m, "rt_error", []);
    if rtError.Failure? {
      return Failure(rtError.error);
    }
    var s := InputStreams([], [], [], [], []);
    for i := 0 to |inputs|
      invariant InputLists(f, m, context, rtError.value, inputs[..i]) == Success(s)
    {
      var p := inputs[i];
      var v := f.snake(p.name);
      assert inputs[..i + 1][..i] == inputs[..i];
      var mapped := ParsedStream(f, context(p));
      if mapped.Failure? {
        InputListsPrefixFails(f, m, context, rtError.value, inputs, i + 1);
        return Failure(mapped.error);
      }
      var enc := EncodeInput(f, m, p);
      if enc.Failure? {
        InputListsPrefixFails(f, m, context, rtError.value, inputs, i + 1);
        return Failure(enc.error);
      }
      s := InputStreams(s.params + [v + " : " + TypeParam(i)], s.generics + [TypeParam(i)],
                        s.tryInto + ["let " + v + " = " + v + ".try_into()?"], s.encodings + enc.value,
                        s.wheres + [LegacyWhere(i, mapped.value, rtError.value)]);
    }
    assert inputs[..|inputs|] == inputs;
    return Success(s);
  }

  /** A tuple whose fields are all non-tuple types: field i is encoded at path `{path}.{i}`,
      in order. */
  lemma {:induction false} FlatTuplePaths(f: Foreign, m: SerdeTypeMapping, path: string, tuple: seq<Parameter>)
    requires forall i :: 0 <= i < |tuple| ==> !IsTupleType(tuple[i].typ)
    ensures TupleClauses(f, m, path, tuple) ==
              Collect(seq(|tuple|, i requires 0 <= i < |tuple| =>
                            TemplateStream(f, m, "rt_to_encodable_param", [("$param", path + "." + Decimal(i))])))
    decreases |tuple|
  {
    var rs := seq(|tuple|, i requires 0 <= i < |tuple| =>
                    TemplateStream(f, m, "rt_to_encodable_param", [("$param", path + "." + Decimal(i))]));
    if tuple != [] {
      var init := tuple[..|tuple| - 1];
      FlatTuplePaths(f, m, path, init);
      assert rs[..|rs| - 1] == seq(|init|, i requires 0 <= i < |init| =>
                                     TemplateStream(f, m, "rt_to_encodable_param", [("$param", path + "." + Decimal(i))]));
    }
  }

  /** The text of the deploy function, from its parts. */
  function LegacyDeployText(s: InputStreams, rtContext: string, rtOps: string, rtError: string, rtReceipt: string, rtEncode: string)
    : string
  {
    "pub fn deploy<C," + Terminated(s.generics, ",") + " Ops>(context: C, " + Terminated(s.params, ",")
    + " ops: Ops) -> Result<" + rtReceipt + "," + rtError + ">"
    + " where C: TryInto<" + rtContext + ">,  C::Error: Into<" + rtError + ">, Ops: TryInto<" + rtOps + ">,"
    + " Ops::Error: Into<" + rtError + ">, " + Terminated(s.wheres, ",")
    + " { let context = context.try_into()?; " + Terminated(s.tryInto, ";") + " let ops = ops.try_into()?;"
    + " let inputs = vec![" + Terminated(s.encodings, ";") + "]; let call_data = " + rtEncode + ";"
    + " context.deploy_contract(call_data,ops) }"
  }

  /** What `generate_deploy` computes before it pushes: the input lists, then the five
      runtime templates, the first failure being the outcome. */
  function LegacyDeployStream(f: Foreign, m: SerdeTypeMapping, context: Parameter -> string, inputs: seq<Parameter>)
    : Result<string, BindError>
  {
    match InputStreamsOf(f, m, context, inputs)
    case Failure(e) => Failure(e)
    case Success(s) =>
      match TemplateStream(f, m, "rt_context", [])
      case Failure(e) => Failure(e)
      case Success(rtContext) =>
        match TemplateStream(f, m, "rt_ops", [])
        case Failure(e) => Failure(e)
        case Success(rtOps) =>
          match TemplateStream(f, m, "rt_error", [])
          case Failure(e) => Failure(e)
          case Success(rtError) =>
            match TemplateStream(f, m, "rt_tx_receipt", [])
            case Failure(e) => Failure(e)
            case Success(rtReceipt) =>
              match TemplateStream(f, m, "rt_encode_input", [("$inputs", "inputs")])
              case Failure(e) => Failure(e)
              case Success(rtEncode) => Success(LegacyDeployText(s, rtContext, rtOps, rtError, rtReceipt, rtEncode))
  }

  /** An absent identifier emits nothing. */
  function IdentText(ident: Option<string>): string
  {
    if ident.Some? then ident.value else ""
  }

  class RustBinding {
    const mapping: SerdeTypeMapping
    var contractIdent: Option<string>
    var fns: seq<string>

    /** `RustBinding::new`: no contract identifier and no functions yet. */
    constructor (mapping: SerdeTypeMapping)
      ensures this.mapping == mapping && contractIdent == None && fns == []
    {
      this.mapping := mapping;
      contractIdent := None;
      fns := [];
    }

    /** `gen_codes`: the struct over the runtime context and its impl block holding the
        functions in push order; it fails only when `rt_context` does not resolve. */
    function GenCodes(f: Foreign): (r: Result<string, BindError>)
      reads this
      ensures r.Success? <==> TemplateStream(f, mapping, "rt_context", []).Success?
      ensures r.Success? ==>
                r.value == "struct " + IdentText(contractIdent) + "(" + TemplateStream(f, mapping, "rt_context", []).value + ");"
                           + " impl " + IdentText(contractIdent) + " { " + Terminated(fns, " ") + "}"
    {
      match TemplateStream(f, mapping, "rt_context", [])
      case Failure(e) => Failure(e)
      case Success(rtContext) =>
        Success("struct " + IdentText(contractIdent) + "(" + rtContext + ");" + " impl " + IdentText(contractIdent) + " { "
                + Terminated(fns, " ") + "}")
    }

    /** `start_generate_contract`: the upper-camel-cased contract name replaces any earlier
        identifier; the functions are kept. */
    method StartGenerateContract(f: Foreign, contractName: string) returns (r: Result<(), BindError>)
      modifies this
      ensures r == Success(())
      ensures contractIdent == Some(f.camel(contractName)) && fns == old(fns)
    {
      contractIdent := Some(f.camel(contractName));
      return Success(());
    }

    /** `generate_deploy`: all lookups run before the push, so it appends exactly one
        function or changes nothing. */
    method GenerateDeploy(f: Foreign, context: Parameter -> string, bytecode: string, inputs: seq<Parameter>)
      returns (r: Result<(), BindError>)
      modifies this
      ensures r.Success? <==> LegacyDeployStream(f, mapping, context, inputs).Success?
      ensures r.Failure? ==> r.error == LegacyDeployStream(f, mapping, context, inputs).error
      ensures r.Success? ==> fns == old(fns) + [LegacyDeployStream(f, mapping, context, inputs).value]
      ensures r.Failure? ==> fns == old(fns)
      ensures contractIdent == old(contractIdent)
    {
      var s := GenInputStreams(f, mapping, context, inputs);
      if s.Failure? {
        return Failure(s.error);
      }
      var rtContext := TemplateStream(f, mapping, "rt_context", []);
      if rtContext.Failure? {
        return Failure(rtContext.error);
      }
      var rtOps := TemplateStream(f, mapping, "rt_ops", []);
      if rtOps.Failure? {
        return Failure(rtOps.error);
      }
      // The input lists resolved `rt_error` already, so this lookup cannot fail.
      var rtError := TemplateStream(f, mapping, "rt_error", []);
      if rtError.Failure? {
        assert false;
      }
      var rtReceipt := TemplateStream(f, mapping, "rt_tx_receipt", []);
      if rtReceipt.Failure? {
        return Failure(rtReceipt.error);
      }
      var rtEncode := TemplateStream(f, mapping, "rt_encode_input", [("$inputs", "inputs")]);
      if rtEncode.Failure? {
        return Failure(rtEncode.error);
      }
      fns := fns + [LegacyDeployText(s.value, rtContext.value, rtOps.value, rtError.value, rtReceipt.value, rtEncode.value)];
      return Success(());
    }

    /** `generate_error`, `generate_event` and `generate_function` produce nothing. */
    method GenerateError(error: ErrorAbi) returns (r: Result<(), BindError>)
      ensures r == Success(())
    {
      return Success(());
    }

    method GenerateEvent(event: EventAbi) returns (r: Result<(), BindError>)
      ensures r == Success(())
    {
      return Success(());
    }

    method GenerateFunction(fn: FunctionAbi) returns (r: Result<(), BindError>)
      ensures r == Success(())
    {
      return Success(());
    }

    /** `generate_tuple`: the empty string. */
    method GenerateTuple(name: string, tuple: seq<Parameter>) returns (r: Result<string, BindError>)
      ensures r == Success("")
    {
      return Success("");
    }
  }
}
