/** The per-parameter code the runtime-binder generator builds for functions: parameter,
    generic, where-clause and conversion lists, the Rust type of a parameter, and the RLP
    encode and decode expressions, the last three recursing into tuple components. */
module GenFunctions {
  import opened Wrappers
  import opened Abi
  import opened Strings
  import opened RustTokens
  import opened BindingFunctions

  /** What the runtime binder knows of a type: its declared Rust type and how to encode a
      variable (into a named output buffer) and decode from a named input buffer. */
  datatype RuntimeType = RuntimeType(
    declareType: string,
    rlpEncode: (string, string) -> string,
    rlpDecode: string -> string)

  /** `RuntimeBinder::to_runtime_type`: an error, `None` for a type the binder leaves to
      the generator (a tuple), or the runtime type. */
  datatype RuntimeBinder = RuntimeBinder(toRuntimeType: Type -> Result<Option<RuntimeType>, string>)

  /** The variable of parameter i: its name when it has one, else `p{i}`. */
  function VarName(p: Parameter, i: nat): (v: string)
    ensures p.name != "" ==> v == p.name
    ensures p.name == "" ==> v == "p" + Decimal(i)
  {
    if p.name != "" then p.name else "p" + Decimal(i)
  }

  /** A parenthesised tuple of the entries, each followed by a comma. */
  function TupleText(entries: seq<string>): string
  {
    "(" + Terminated(entries, ",") + ")"
  }

  function TupleOf(r: Result<seq<string>, BindError>): Result<string, BindError>
  {
    match r
    case Failure(e) => Failure(e)
    case Success(entries) => Success(TupleText(entries))
  }

  // ---- to_rust_type ----

  /** `to_rust_type`: the binder's declared type when it knows the type, otherwise the
      tuple of the components' Rust types; a tuple without components is the panic
      "Tuple parameter's components field is None". */
  function RustType(b: RuntimeBinder, f: Foreign, p: Parameter): Result<string, BindError>
    decreases ParamSize(p), 1
  {
    match b.toRuntimeType(p.typ)
    case Failure(msg) => Failure(Binder(msg))
    case Success(Some(rt)) => ParsedStream(f, rt.declareType)
    case Success(None) =>
      if p.components.Absent? then Failure(MissingComponents(p.name))
      else TupleOf(RustTypes(b, f, p.components.params))
  }

  /** The components' Rust types, in order; the first failure aborts. */
  function RustTypes(b: RuntimeBinder, f: Foreign, ps: seq<Parameter>): Result<seq<string>, BindError>
    decreases ListSize(ps), 2
  {
    if ps == [] then Success([])
    else
      match RustTypes(b, f, ps[..|ps| - 1])
      case Failure(e) => Failure(e)
      case Success(ts) =>
        match RustType(b, f, ps[|ps| - 1])
        case Failure(e) => Failure(e)
        case Success(t) => Success(ts + [t])
  }

  function RustTypeSteps(b: RuntimeBinder, f: Foreign, ps: seq<Parameter>): (rs: seq<Result<string, BindError>>)
    ensures |rs| == |ps|
  {
    seq(|ps|, i requires 0 <= i < |ps| => RustType(b, f, ps[i]))
  }

  /** The component walk is the fail-fast collection of the components' types. */
  lemma {:induction false} RustTypesCollect(b: RuntimeBinder, f: Foreign, ps: seq<Parameter>)
    ensures RustTypes(b, f, ps) == Collect(RustTypeSteps(b, f, ps))
    decreases |ps|
  {
    if ps != [] {
      var init := ps[..|ps| - 1];
      RustTypesCollect(b, f, init);
      assert RustTypeSteps(b, f, ps)[..|ps| - 1] == RustTypeSteps(b, f, init);
    }
  }

  method ToRustType(b: RuntimeBinder, f: Foreign, p: Parameter) returns (r: Result<string, BindError>)
    ensures r == RustType(b, f, p)
    decreases ParamSize(p)
  {
    var rt := b.toRuntimeType(p.typ);
    if rt.Failure? {
      return Failure(Binder(rt.error));
    }
    if rt.value.Some? {
      return ParsedStream(f, rt.value.value.declareType);
    }
    if p.components.Absent? {
      return Failure(MissingComponents(p.name));
    }
    var cs := p.components.params;
    var rs := RustTypeSteps(b, f, cs);
    var ts := [];
    for i := 0 to |cs|
      invariant Collect(rs[..i]) == Success(ts)
    {
      ElementSmaller(cs, i);
      var t := ToRustType(b, f, cs[i]);
      CollectStep(rs, i, ts);
      if t.Failure? {
        RustTypesCollect(b, f, cs);
        return Failure(t.error);
      }
      ts := ts + [t.value];
    }
    assert rs[..|cs|] == rs;
    RustTypesCollect(b, f, cs);
    return Success(TupleText(ts));
  }

  /** `to_outputs_type`: the tuple of the outputs' Rust types. */
  method ToOutputsType(b: RuntimeBinder, f: Foreign, outputs: seq<Parameter>) returns (r: Result<string, BindError>)
    ensures r == TupleOf(Collect(RustTypeSteps(b, f, outputs)))
  {
    var rs := RustTypeSteps(b, f, outputs);
    var ts := [];
    for i := 0 to |outputs|
      invariant Collect(rs[..i]) == Success(ts)
    {
      var t := ToRustType(b, f, outputs[i]);
      CollectStep(rs, i, ts);
      if t.Failure? {
        return Failure(t.error);
      }
      ts := ts + [t.value];
    }
    assert rs[..|outputs|] == rs;
    return Success(TupleText(ts));
  }

  /** A tuple the binder leaves to the generator has the outputs type of its components; one
      without components fails with the missing-components panic. */
  lemma TupleRustType(b: RuntimeBinder, f: Foreign, p: Parameter)
    requires b.toRuntimeType(p.typ) == Success(None)
    ensures p.components.Present? ==> RustType(b, f, p) == TupleOf(Collect(RustTypeSteps(b, f, p.components.params)))
    ensures p.components.Absent? ==> RustType(b, f, p) == Failure(MissingComponents(p.name))
  {
    if p.components.Present? {
      RustTypesCollect(b, f, p.components.params);
    }
  }

  /** The outputs type succeeds exactly when every output's Rust type does, and then holds
      them one to one, in order. */
  lemma OutputsTypeOutcome(b: RuntimeBinder, f: Foreign, outputs: seq<Parameter>)
    ensures TupleOf(Collect(RustTypeSteps(b, f, outputs))).Success? <==>
              forall i :: 0 <= i < |outputs| ==> RustType(b, f, outputs[i]).Success?
    ensures Collect(RustTypeSteps(b, f, outputs)).Success? ==>
              var ts := Collect(RustTypeSteps(b, f, outputs)).value;
              |ts| == |outputs| && forall i :: 0 <= i < |outputs| ==> RustType(b, f, outputs[i]) == Success(ts[i])
  {
    var rs := RustTypeSteps(b, f, outputs);
    CollectSucceeds(rs);
    assert forall i :: 0 <= i < |outputs| ==> rs[i] == RustType(b, f, outputs[i]);
  }

  // ---- to_rlp_encode and to_rlp_decode ----

  /** `to_rlp_encode(var, type, components)`: the binder's encoding of `var` into `outputs`
      when it knows the type, otherwise the tuple of the components' encodings, component i
      along the path `{var}.{i}`. */
  function RlpEncode(b: RuntimeBinder, f: Foreign, v: string, t: Type, cs: seq<Parameter>): Result<string, BindError>
    decreases ListSize(cs), 2
  {
    match b.toRuntimeType(t)
    case Failure(msg) => Failure(Binder(msg))
    case Success(Some(rt)) => ParsedStream(f, rt.rlpEncode(v, "outputs"))
    case Success(None) => TupleOf(RlpEncodes(b, f, v, cs))
  }

  function RlpEncodes(b: RuntimeBinder, f: Foreign, v: string, cs: seq<Parameter>): Result<seq<string>, BindError>
    decreases ListSize(cs), 1
  {
    if cs == [] then Success([])
    else
      var n := |cs| - 1;
      match RlpEncodes(b, f, v, cs[..n])
      case Failure(e) => Failure(e)
      case Success(es) =>
        match RlpEncode(b, f, v + "." + Decimal(n), cs[n].typ, ComponentsOrEmpty(cs[n]))
        case Failure(e) => Failure(e)
        case Success(e1) => Success(es + [e1])
  }

  function RlpEncodeSteps(b: RuntimeBinder, f: Foreign, v: string, cs: seq<Parameter>): (rs: seq<Result<string, BindError>>)
    ensures |rs| == |cs|
  {
    seq(|cs|, i requires 0 <= i < |cs| => RlpEncode(b, f, v + "." + Decimal(i), cs[i].typ, ComponentsOrEmpty(cs[i])))
  }

  lemma {:induction false} RlpEncodesCollect(b: RuntimeBinder, f: Foreign, v: string, cs: seq<Parameter>)
    ensures RlpEncodes(b, f, v, cs) == Collect(RlpEncodeSteps(b, f, v, cs))
    decreases |cs|
  {
    if cs != [] {
      var init := cs[..|cs| - 1];
      RlpEncodesCollect(b, f, v, init);
      assert RlpEncodeSteps(b, f, v, cs)[..|cs| - 1] == RlpEncodeSteps(b, f, v, init);
    }
  }

  method ToRlpEncode(b: RuntimeBinder, f: Foreign, v: string, t: Type, cs: seq<Parameter>) returns (r: Result<string, BindError>)
    ensures r == RlpEncode(b, f, v, t, cs)
    decreases ListSize(cs)
  {
    var rt := b.toRuntimeType(t);
    if rt.Failure? {
      return Failure(Binder(rt.error));
    }
    if rt.value.Some? {
      return ParsedStream(f, rt.value.value.rlpEncode(v, "outputs"));
    }
    var rs := RlpEncodeSteps(b, f, v, cs);
    var es := [];
    for i := 0 to |cs|
      invariant Collect(rs[..i]) == Success(es)
    {
      ElementSmaller(cs, i);
      var e := ToRlpEncode(b, f, v + "." + Decimal(i), cs[i].typ, ComponentsOrEmpty(cs[i]));
      CollectStep(rs, i, es);
      if e.Failure? {
        RlpEncodesCollect(b, f, v, cs);
        return Failure(e.error);
      }
      es := es + [e.value];
    }
    assert rs[..|cs|] == rs;
    RlpEncodesCollect(b, f, v, cs);
    return Success(TupleText(es));
  }

  /** A tuple whose components the binder knows: component i is encoded from `{var}.{i}`
      by its own runtime type, in order. */
  lemma FlatTupleEncode(b: RuntimeBinder, f: Foreign, v: string, t: Type, cs: seq<Parameter>)
    requires b.toRuntimeType(t) == Success(None)
    requires forall i :: 0 <= i < |cs| ==> b.toRuntimeType(cs[i].typ).Success? && b.toRuntimeType(cs[i].typ).value.Some?
    ensures RlpEncode(b, f, v, t, cs) ==
              TupleOf(Collect(seq(|cs|, i requires 0 <= i < |cs| =>
                                    ParsedStream(f, b.toRuntimeType(cs[i].typ).value.value.rlpEncode(v + "." + Decimal(i), "outputs")))))
  {
    RlpEncodesCollect(b, f, v, cs);
    var rs := RlpEncodeSteps(b, f, v, cs);
    var qs := seq(|cs|, i requires 0 <= i < |cs| =>
                    ParsedStream(f, b.toRuntimeType(cs[i].typ).value.value.rlpEncode(v + "." + Decimal(i), "outputs")));
    assert rs == qs;
  }

  /** `to_rlp_decode(type, components)`: the binder's decoding from `inputs` when it knows
      the type, otherwise the tuple of the components' decodings. */
  function RlpDecode(b: RuntimeBinder, f: Foreign, t: Type, cs: seq<Parameter>): Result<string, BindError>
    decreases ListSize(cs), 2
  {
    match b.toRuntimeType(t)
    case Failure(msg) => Failure(Binder(msg))
    case Success(Some(rt)) => ParsedStream(f, rt.rlpDecode("inputs"))
    case Success(None) => TupleOf(RlpDecodes(b, f, cs))
  }

  function RlpDecodes(b: RuntimeBinder, f: Foreign, cs: seq<Parameter>): Result<seq<string>, BindError>
    decreases ListSize(cs), 1
  {
    if cs == [] then Success([])
    else
      var n := |cs| - 1;
      match RlpDecodes(b, f, cs[..n])
      case Failure(e) => Failure(e)
      case Success(ds) =>
        match RlpDecode(b, f, cs[n].typ, ComponentsOrEmpty(cs[n]))
        case Failure(e) => Failure(e)
        case Success(d) => Success(ds + [d])
  }

  function RlpDecodeSteps(b: RuntimeBinder, f: Foreign, cs: seq<Parameter>): (rs: seq<Result<string, BindError>>)
    ensures |rs| == |cs|
  {
    seq(|cs|, i requires 0 <= i < |cs| => RlpDecode(b, f, cs[i].typ, ComponentsOrEmpty(cs[i])))
  }

  lemma {:induction false} RlpDecodesCollect(b: RuntimeBinder, f: Foreign, cs: seq<Parameter>)
    ensures RlpDecodes(b, f, cs) == Collect(RlpDecodeSteps(b, f, cs))
    decreases |cs|
  {
    if cs != [] {
      var init := cs[..|cs| - 1];
      RlpDecodesCollect(b, f, init);
      assert RlpDecodeSteps(b, f, cs)[..|cs| - 1] == RlpDecodeSteps(b, f, init);
    }
  }

  method ToRlpDecode(b: RuntimeBinder, f: Foreign, t: Type, cs: seq<Parameter>) returns (r: Result<string, BindError>)
    ensures r == RlpDecode(b, f, t, cs)
    decreases ListSize(cs)
  {
    var rt := b.toRuntimeType(t);
    if rt.Failure? {
      return Failure(Binder(rt.error));
    }
    if rt.value.Some? {
      return ParsedStream(f, rt.value.value.rlpDecode("inputs"));
    }
    var rs := RlpDecodeSteps(b, f, cs);
    var ds := [];
    for i := 0 to |cs|
      invariant Collect(rs[..i]) == Success(ds)
    {
      ElementSmaller(cs, i);
      var d := ToRlpDecode(b, f, cs[i].typ, ComponentsOrEmpty(cs[i]));
      CollectStep(rs, i, ds);
      if d.Failure? {
        RlpDecodesCollect(b, f, cs);
        return Failure(d.error);
      }
      ds := ds + [d.value];
    }
    assert rs[..|cs|] == rs;
    RlpDecodesCollect(b, f, cs);
    return Success(TupleText(ds));
  }

  /** Encoding and decoding walk the same tree: where the binder fails on a type, both
      report its error; a tuple the binder leaves to the generator is, on both sides, the
      tuple of one entry per component. */
  lemma RlpSameShape(b: RuntimeBinder, f: Foreign, v: string, t: Type, cs: seq<Parameter>)
    ensures b.toRuntimeType(t).Failure? ==>
              RlpEncode(b, f, v, t, cs) == RlpDecode(b, f, t, cs) == Failure(Binder(b.toRuntimeType(t).error))
    ensures b.toRuntimeType(t) == Success(None) ==>
              RlpEncode(b, f, v, t, cs) == TupleOf(Collect(RlpEncodeSteps(b, f, v, cs))) &&
              RlpDecode(b, f, t, cs) == TupleOf(Collect(RlpDecodeSteps(b, f, cs)))
  {
    RlpEncodesCollect(b, f, v, cs);
    RlpDecodesCollect(b, f, cs);
  }

  // ---- the list builders ----

  /** The parameter list's entries: `v: P{i}` with v the name, or `p{i}` for a nameless one. */
  function ParamList(params: seq<Parameter>): (entries: seq<string>)
    ensures |entries| == |params|
  {
    seq(|params|, i requires 0 <= i < |params| => VarName(params[i], i) + ": " + TypeParam(i))
  }

  /** The conversion list's entries: `let v = v.try_into()?` under the same naming. */
  function TryIntoList(params: seq<Parameter>): (entries: seq<string>)
    ensures |entries| == |params|
  {
    seq(|params|, i requires 0 <= i < |params| => "let " + VarName(params[i], i) + " = " + VarName(params[i], i) + ".try_into()?")
  }

  /** `to_param_list`. */
  method ToParamList(params: seq<Parameter>) returns (r: Result<seq<string>, BindError>)
    ensures r == Success(ParamList(params))
  {
    var streams := [];
    for i := 0 to |params|
      invariant streams == ParamList(params[..i])
    {
      assert params[..i + 1][..i] == params[..i];
      var v := if params[i].name != "" then params[i].name else "p" + Decimal(i);
      streams := streams + [v + ": " + TypeParam(i)];
    }
    assert params[..|params|] == params;
    return Success(streams);
  }

  /** `to_generic_list`: `P0 … P(n-1)`. */
  method ToGenericList(params: seq<Parameter>) returns (r: Result<seq<string>, BindError>)
    ensures r == Success(GenericEntries(|params|))
  {
    var streams := [];
    for i := 0 to |params|
      invariant streams == GenericEntries(i)
    {
      streams := streams + [TypeParam(i)];
    }
    return Success(streams);
  }

  /** `to_try_into_list`. */
  method ToTryIntoList(params: seq<Parameter>) returns (r: Result<seq<string>, BindError>)
    ensures r == Success(TryIntoList(params))
  {
    var streams := [];
    for i := 0 to |params|
      invariant streams == TryIntoList(params[..i])
    {
      assert params[..i + 1][..i] == params[..i];
      var v := if params[i].name != "" then params[i].name else "p" + Decimal(i);
      streams := streams + ["let " + v + " = " + v + ".try_into()?"];
    }
    assert params[..|params|] == params;
    return Success(streams);
  }

  /** The where clause of parameter i: `P{i}` converts into its Rust type. */
  function WhereClause(b: RuntimeBinder, f: Foreign, p: Parameter, i: nat): Result<string, BindError>
  {
    match RustType(b, f, p)
    case Failure(e) => Failure(e)
    case Success(t) => Success(TypeParam(i) + ": TryInto<" + t + ">, " + TypeParam(i) + "::Error: std::error::Error + Sync + Send + 'static")
  }

  function WhereClauseSteps(b: RuntimeBinder, f: Foreign, params: seq<Parameter>): (rs: seq<Result<string, BindError>>)
    ensures |rs| == |params|
  {
    seq(|params|, i requires 0 <= i < |params| => WhereClause(b, f, params[i], i))
  }

  /** `to_where_clause_list`. */
  method ToWhereClauseList(b: RuntimeBinder, f: Foreign, params: seq<Parameter>) returns (r: Result<seq<string>, BindError>)
    ensures r == Collect(WhereClauseSteps(b, f, params))
  {
    var rs := WhereClauseSteps(b, f, params);
    var streams := [];
    for i := 0 to |params|
      invariant Collect(rs[..i]) == Success(streams)
    {
      var t := ToRustType(b, f, params[i]);
      CollectStep(rs, i, streams);
      if t.Failure? {
        return Failure(t.error);
      }
      streams := streams + [TypeParam(i) + ": TryInto<" + t.value + ">, " + TypeParam(i) + "::Error: std::error::Error + Sync + Send + 'static"];
    }
    assert rs[..|params|] == rs;
    return Success(streams);
  }

  function RlpEncodeListSteps(b: RuntimeBinder, f: Foreign, params: seq<Parameter>): (rs: seq<Result<string, BindError>>)
    ensures |rs| == |params|
  {
    seq(|params|, i requires 0 <= i < |params| => RlpEncode(b, f, params[i].name, params[i].typ, ComponentsOrEmpty(params[i])))
  }

  /** `to_rlp_encode_list`: one encoding per parameter, each from the parameter's own name. */
  method ToRlpEncodeList(b: RuntimeBinder, f: Foreign, params: seq<Parameter>) returns (r: Result<seq<string>, BindError>)
    ensures r == Collect(RlpEncodeListSteps(b, f, params))
  {
    var rs := RlpEncodeListSteps(b, f, params);
    var streams := [];
    for i := 0 to |params|
      invariant Collect(rs[..i]) == Success(streams)
    {
      var e := ToRlpEncode(b, f, params[i].name, params[i].typ, ComponentsOrEmpty(params[i]));
      CollectStep(rs, i, streams);
      if e.Failure? {
        return Failure(e.error);
      }
      streams := streams + [e.value];
    }
    assert rs[..|params|] == rs;
    return Success(streams);
  }

  function RlpDecodeListSteps(b: RuntimeBinder, f: Foreign, params: seq<Parameter>): (rs: seq<Result<string, BindError>>)
    ensures |rs| == |params|
  {
    seq(|params|, i requires 0 <= i < |params| => RlpDecode(b, f, params[i].typ, ComponentsOrEmpty(params[i])))
  }

  /** `to_rlp_decode_list`: the tuple of one decoding per parameter. */
  method ToRlpDecodeList(b: RuntimeBinder, f: Foreign, params: seq<Parameter>) returns (r: Result<string, BindError>)
    ensures r == TupleOf(Collect(RlpDecodeListSteps(b, f, params)))
  {
    var rs := RlpDecodeListSteps(b, f, params);
    var streams := [];
    for i := 0 to |params|
      invariant Collect(rs[..i]) == Success(streams)
    {
      var d := ToRlpDecode(b, f, params[i].typ, ComponentsOrEmpty(params[i]));
      CollectStep(rs, i, streams);
      if d.Failure? {
        return Failure(d.error);
      }
      streams := streams + [d.value];
    }
    assert rs[..|params|] == rs;
    return Success(TupleText(streams));
  }

  /** Entry i of the parameter list and of the conversion list, both written with the
      variable `VarName`: the parameter's name, or `p{i}` when it has none. */
  lemma ParamAndTryIntoAgree(params: seq<Parameter>)
    ensures forall i :: 0 <= i < |params| ==>
              ParamList(params)[i] == VarName(params[i], i) + ": " + TypeParam(i) &&
              TryIntoList(params)[i] == "let " + VarName(params[i], i) + " = " + VarName(params[i], i) + ".try_into()?"
    ensures forall i :: 0 <= i < |params| && params[i].name == "" ==> ParamList(params)[i] == "p" + Decimal(i) + ": " + TypeParam(i)
  {
  }

  /** The where clauses succeed exactly when every parameter's Rust type does; then clause
      i bounds `P{i}` by that type. */
  lemma WhereClausesOutcome(b: RuntimeBinder, f: Foreign, params: seq<Parameter>)
    ensures Collect(WhereClauseSteps(b, f, params)).Success? <==>
              forall i :: 0 <= i < |params| ==> RustType(b, f, params[i]).Success?
    ensures Collect(WhereClauseSteps(b, f, params)).Success? ==>
              var ws := Collect(WhereClauseSteps(b, f, params)).value;
              |ws| == |params| &&
              forall i :: 0 <= i < |params| ==>
                ws[i] == TypeParam(i) + ": TryInto<" + RustType(b, f, params[i]).value + ">, "
                         + TypeParam(i) + "::Error: std::error::Error + Sync + Send + 'static"
  {
    var rs := WhereClauseSteps(b, f, params);
    CollectSucceeds(rs);
    assert forall i :: 0 <= i < |params| ==> rs[i] == WhereClause(b, f, params[i], i);
  }
}
