/** What the Rust back ends share: the foreign helpers they call, the errors they report,
    token streams as text, and the fail-fast collection of per-parameter results that
    `?` inside a loop implements. */
module RustTokens {
  import opened Wrappers
  import opened Abi
  import opened Strings
  import opened TypeMappings

  /** The helpers that come from other crates: the snake and upper-camel case conversions
      of `heck`, `str::parse::<TokenStream>` of `proc_macro2` (the text of the parsed
      stream, or `None` on a lexing error) and the matches of the regex `<.+>` from the
      `regex` crate, in order. */
  datatype Foreign = Foreign(
    snake: string -> string,
    camel: string -> string,
    parse: string -> Option<string>,
    angles: string -> seq<string>)

  /** Why a back-end call gives up. `Mapping` wraps a type-mapping error (a missing template
      name aborts the implementation; the model reports it); `Parse` is text that is not a
      token stream; `Binder` is a runtime-binder error; `MissingComponents` is the panic of a
      tuple parameter without components; `Unimplemented` is a call into `unimplemented!()`. */
  datatype BindError =
    | Mapping(cause: TypeMappingError)
    | Parse(text: string)
    | Binder(message: string)
    | MissingComponents(parameter: string)
    | Unimplemented

  /** `get_mapping_token_stream(name, args)`: the template, resolved and parsed. */
  function TemplateStream(f: Foreign, m: SerdeTypeMapping, name: string, args: seq<(string, string)>): (r: Result<string, BindError>)
    ensures r == Failure(Mapping(NotFound(name))) <==> name !in m.typesMapping
    ensures r.Success? <==> Lookup(m, name, args).Success? && f.parse(Lookup(m, name, args).value).Some?
  {
    match Lookup(m, name, args)
    case Failure(e) => Failure(Mapping(e))
    case Success(text) => ParsedStream(f, text)
  }

  /** `text.parse::<TokenStream>()` with the error turned into a `BindError`. */
  function ParsedStream(f: Foreign, text: string): Result<string, BindError>
  {
    match f.parse(text)
    case None => Failure(Parse(text))
    case Some(stream) => Success(stream)
  }

  /** `RustBinding::mapping_parameter`: the context's target-type text for the parameter,
      parsed as a token stream. `context` is the context's `mapping_parameter` for the
      binding's own type mapping. */
  function MappingParameter(f: Foreign, context: Parameter -> string, p: Parameter): (r: Result<string, BindError>)
    ensures r.Success? <==> f.parse(context(p)).Some?
    ensures r.Success? ==> r.value == f.parse(context(p)).value
    ensures r.Failure? ==> r.error == Parse(context(p))
  {
    ParsedStream(f, context(p))
  }

  /** `quote!(#(#entries <sep>)*)` over a collected list: each entry followed by `sep`. */
  function TerminatedAll(r: Result<seq<string>, BindError>, sep: string): Result<string, BindError>
  {
    match r
    case Failure(e) => Failure(e)
    case Success(entries) => Success(Terminated(entries, sep))
  }

  /** The generic parameter name `P{index}`. */
  function TypeParam(index: nat): string
  {
    "P" + Decimal(index)
  }

  /** The fail-fast collection of a loop whose body ends in `?`: the values in order when
      every step succeeds, otherwise the error of the first step that fails. */
  function Collect<T, E>(rs: seq<Result<T, E>>): Result<seq<T>, E>
  {
    if rs == [] then Success([])
    else
      match Collect(rs[..|rs| - 1])
      case Failure(e) => Failure(e)
      case Success(vs) =>
        match rs[|rs| - 1]
        case Failure(e) => Failure(e)
        case Success(v) => Success(vs + [v])
  }

  /** Once a prefix has failed, the whole collection fails with the same error. */
  lemma {:induction false} CollectPrefixFails<T, E>(rs: seq<Result<T, E>>, k: nat)
    requires k <= |rs| && Collect(rs[..k]).Failure?
    ensures Collect(rs) == Collect(rs[..k])
    decreases |rs|
  {
    if k < |rs| {
      var init := rs[..|rs| - 1];
      assert init[..k] == rs[..k];
      CollectPrefixFails(init, k);
    } else {
      assert rs[..k] == rs;
    }
  }

  /** One step of the loop that `Collect` describes. */
  lemma CollectStep<T, E>(rs: seq<Result<T, E>>, i: nat, vs: seq<T>)
    requires i < |rs| && Collect(rs[..i]) == Success(vs)
    ensures rs[i].Success? ==> Collect(rs[..i + 1]) == Success(vs + [rs[i].value])
    ensures rs[i].Failure? ==> Collect(rs) == Failure(rs[i].error)
  {
    var front := rs[..i + 1];
    assert front[..|front| - 1] == rs[..i];
    assert front[|front| - 1] == rs[i];
    if rs[i].Failure? {
      CollectPrefixFails(rs, i + 1);
    }
  }

  /** The collection succeeds exactly when every step does, and then holds one value per
      step, in order. */
  lemma {:induction false} CollectSucceeds<T, E>(rs: seq<Result<T, E>>)
    ensures Collect(rs).Success? <==> forall i :: 0 <= i < |rs| ==> rs[i].Success?
    ensures Collect(rs).Success? ==>
              |Collect(rs).value| == |rs| && forall i :: 0 <= i < |rs| ==> Collect(rs).value[i] == rs[i].value
    decreases |rs|
  {
    if rs != [] {
      var init := rs[..|rs| - 1];
      CollectSucceeds(init);
      assert forall i :: 0 <= i < |init| ==> init[i] == rs[i];
    }
  }

  /** A failed collection reports the error of its first failing step. */
  lemma {:induction false} CollectFails<T, E>(rs: seq<Result<T, E>>) returns (i: nat)
    requires Collect(rs).Failure?
    ensures i < |rs| && rs[i].Failure? && Collect(rs).error == rs[i].error
    ensures forall j :: 0 <= j < i ==> rs[j].Success?
    decreases |rs|
  {
    var init := rs[..|rs| - 1];
    assert forall j :: 0 <= j < |init| ==> init[j] == rs[j];
    if Collect(init).Failure? {
      i := CollectFails(init);
    } else {
      i := |rs| - 1;
      CollectSucceeds(init);
    }
  }

  /** Collecting a concatenation: the second part only runs when the first succeeds. */
  lemma {:induction false} CollectAppend<T, E>(a: seq<Result<T, E>>, b: seq<Result<T, E>>)
    ensures Collect(a).Failure? ==> Collect(a + b) == Collect(a)
    ensures Collect(a).Success? && Collect(b).Failure? ==> Collect(a + b) == Collect(b)
    ensures Collect(a).Success? && Collect(b).Success? ==> Collect(a + b) == Success(Collect(a).value + Collect(b).value)
    decreases |b|
  {
    if b == [] {
      assert a + b == a;
      if Collect(a).Success? {
        assert Collect(a).value + [] == Collect(a).value;
      }
    } else {
      var init := b[..|b| - 1];
      AppendInit(a, b);
      CollectAppend(a, init);
      if Collect(a).Success? && Collect(b).Success? {
        var va, vi, v := Collect(a).value, Collect(init).value, b[|b| - 1].value;
        assert Collect(b).value == vi + [v];
        assert va + (vi + [v]) == (va + vi) + [v];
      }
    }
  }
}
