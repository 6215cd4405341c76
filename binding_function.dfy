/** The per-input lists the Rust binding splices into a generated function: the generic
    parameters, the typed parameters, the `TryInto` bounds and the conversion statements.
    Every list holds one entry per input, in input order. */
module BindingFunctions {
  import opened Wrappers
  import opened Abi
  import opened Strings
  import opened RustTokens

  /** The generic list's entries: `P{i}` for the i-th input. */
  function GenericEntries(n: nat): (entries: seq<string>)
    ensures |entries| == n
  {
    seq(n, i requires 0 <= i < n => TypeParam(i))
  }

  /** The parameter list's entries: `snake(name_i) : P{i}`. */
  function ParamEntries(f: Foreign, inputs: seq<Parameter>): (entries: seq<string>)
    ensures |entries| == |inputs|
  {
    seq(|inputs|, i requires 0 <= i < |inputs| => f.snake(inputs[i].name) + " : " + TypeParam(i))
  }

  /** The where clause for the i-th input: `P{i}` converts into the input's mapped type. */
  function WhereEntry(f: Foreign, context: Parameter -> string, p: Parameter, i: nat): Result<string, BindError>
  {
    match MappingParameter(f, context, p)
    case Failure(e) => Failure(e)
    case Success(t) =>
      Success(TypeParam(i) + ": TryInto<" + t + ">, " + TypeParam(i) + "::Error: std::error::Error + Sync + Send + 'static")
  }

  function WhereEntries(f: Foreign, context: Parameter -> string, inputs: seq<Parameter>): (rs: seq<Result<string, BindError>>)
    ensures |rs| == |inputs|
  {
    seq(|inputs|, i requires 0 <= i < |inputs| => WhereEntry(f, context, inputs[i], i))
  }

  /** The conversion statements' entries: `let v = v.try_into()?` with v the snake-cased name. */
  function TryIntoEntries(f: Foreign, inputs: seq<Parameter>): (entries: seq<string>)
    ensures |entries| == |inputs|
  {
    seq(|inputs|, i requires 0 <= i < |inputs| => "let " + f.snake(inputs[i].name) + " = " + f.snake(inputs[i].name) + ".try_into()?")
  }

  /** `to_fn_generic_list`: `P0,P1,…,P(n-1),`, one entry per input. */
  method ToFnGenericList(inputs: seq<Parameter>) returns (r: Result<string, BindError>)
    ensures r == Success(Terminated(GenericEntries(|inputs|), ","))
  {
    var list := [];
    for i := 0 to |inputs|
      invariant list == GenericEntries(i)
    {
      list := list + [TypeParam(i)];
    }
    return Success(Terminated(list, ","));
  }

  /** `to_fn_params_list`: `snake(name_i) : P{i},` for every input, in order. */
  method ToFnParamsList(f: Foreign, inputs: seq<Parameter>) returns (r: Result<string, BindError>)
    ensures r == Success(Terminated(ParamEntries(f, inputs), ","))
  {
    var list := [];
    for i := 0 to |inputs|
      invariant list == ParamEntries(f, inputs[..i])
    {
      assert inputs[..i + 1][..i] == inputs[..i];
      list := list + [f.snake(inputs[i].name) + " : " + TypeParam(i)];
    }
    assert inputs[..|inputs|] == inputs;
    return Success(Terminated(list, ","));
  }

  /** `to_fn_generic_where_clause`: one bound per input, in order; the first input whose
      mapped type does not parse aborts the list. */
  method ToFnGenericWhereClause(f: Foreign, context: Parameter -> string, inputs: seq<Parameter>)
    returns (r: Result<string, BindError>)
    ensures r == TerminatedAll(Collect(WhereEntries(f, context, inputs)), ",")
  {
    var rs := WhereEntries(f, context, inputs);
    var list := [];
    for i := 0 to |inputs|
      invariant Collect(rs[..i]) == Success(list)
    {
      var mapped := MappingParameter(f, context, inputs[i]);
      CollectStep(rs, i, list);
      if mapped.Failure? {
        return Failure(mapped.error);
      }
      list := list + [TypeParam(i) + ": TryInto<" + mapped.value + ">, " + TypeParam(i) + "::Error: std::error::Error + Sync + Send + 'static"];
    }
    assert rs[..|inputs|] == rs;
    return Success(Terminated(list, ","));
  }

  /** `to_fn_params_try_into_call_list`: one conversion statement per input, each
      followed by `;`. */
  method ToFnParamsTryIntoCallList(f: Foreign, inputs: seq<Parameter>) returns (r: Result<string, BindError>)
    ensures r == Success(Terminated(TryIntoEntries(f, inputs), ";"))
  {
    var list := [];
    for i := 0 to |inputs|
      invariant list == TryIntoEntries(f, inputs[..i])
    {
      assert inputs[..i + 1][..i] == inputs[..i];
      var v := f.snake(inputs[i].name);
      list := list + ["let " + v + " = " + v + ".try_into()?"];
    }
    assert inputs[..|inputs|] == inputs;
    return Success(Terminated(list, ";"));
  }

  /** The where clauses succeed exactly when every input's mapped type parses; then entry i
      bounds `P{i}` by that input's parsed type. Otherwise the error names the text of the
      first input whose type does not parse. */
  lemma WhereClausesOutcome(f: Foreign, context: Parameter -> string, inputs: seq<Parameter>)
    ensures Collect(WhereEntries(f, context, inputs)).Success? <==>
              forall i :: 0 <= i < |inputs| ==> f.parse(context(inputs[i])).Some?
    ensures Collect(WhereEntries(f, context, inputs)).Success? ==>
              var entries := Collect(WhereEntries(f, context, inputs)).value;
              |entries| == |inputs| &&
              forall i :: 0 <= i < |inputs| ==>
                entries[i] == TypeParam(i) + ": TryInto<" + f.parse(context(inputs[i])).value + ">, "
                              + TypeParam(i) + "::Error: std::error::Error + Sync + Send + 'static"
    ensures Collect(WhereEntries(f, context, inputs)).Failure? ==>
              exists i :: 0 <= i < |inputs| && f.parse(context(inputs[i])).None? &&
                (forall j :: 0 <= j < i ==> f.parse(context(inputs[j])).Some?) &&
                Collect(WhereEntries(f, context, inputs)).error == Parse(context(inputs[i]))
  {
    var rs := WhereEntries(f, context, inputs);
    CollectSucceeds(rs);
    forall i | 0 <= i < |inputs|
      ensures rs[i].Success? <==> f.parse(context(inputs[i])).Some?
    {
      var _ := MappingParameter(f, context, inputs[i]);
    }
    if Collect(rs).Failure? {
      var i := CollectFails(rs);
      assert forall j :: 0 <= j < i ==> rs[j].Success?;
    }
  }

  /** The lists that do not consult the context depend on the inputs' names only. */
  lemma NamesOnly(f: Foreign, a: seq<Parameter>, b: seq<Parameter>)
    requires |a| == |b| && forall i :: 0 <= i < |a| ==> a[i].name == b[i].name
    ensures GenericEntries(|a|) == GenericEntries(|b|)
    ensures ParamEntries(f, a) == ParamEntries(f, b)
    ensures TryIntoEntries(f, a) == TryIntoEntries(f, b)
  {
  }
}
