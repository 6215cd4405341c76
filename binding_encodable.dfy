/** The encodable expressions the Rust binding builds for deploy inputs: the
    `rt_to_encodable` template with the snake-cased parameter name. */
module BindingEncodable {
  import opened Wrappers
  import opened Abi
  import opened TypeMappings
  import opened RustTokens

  /** `to_encodable_token_stream`: `rt_to_encodable` with `$var` the snake-cased name. */
  function Encodable(f: Foreign, m: SerdeTypeMapping, p: Parameter): Result<string, BindError>
  {
    TemplateStream(f, m, "rt_to_encodable", [("$var", f.snake(p.name))])
  }

  function Encodables(f: Foreign, m: SerdeTypeMapping, inputs: seq<Parameter>): (rs: seq<Result<string, BindError>>)
    ensures |rs| == |inputs|
  {
    seq(|inputs|, i requires 0 <= i < |inputs| => Encodable(f, m, inputs[i]))
  }

  /** `to_encodable_token_streams`: one encodable per input, in order; the first failing
      template aborts the list. */
  method ToEncodables(f: Foreign, m: SerdeTypeMapping, inputs: seq<Parameter>) returns (r: Result<seq<string>, BindError>)
    ensures r == Collect(Encodables(f, m, inputs))
    ensures r.Success? ==> |r.value| == |inputs|
    ensures r.Success? ==> forall i :: 0 <= i < |inputs| ==> Encodable(f, m, inputs[i]) == Success(r.value[i])
  {
    var rs := Encodables(f, m, inputs);
    var streams := [];
    for i := 0 to |inputs|
      invariant Collect(rs[..i]) == Success(streams)
    {
      var e := Encodable(f, m, inputs[i]);
      CollectStep(rs, i, streams);
      if e.Failure? {
        return Failure(e.error);
      }
      streams := streams + [e.value];
    }
    assert rs[..|inputs|] == rs;
    CollectSucceeds(rs);
    assert forall i :: 0 <= i < |inputs| ==> rs[i] == Encodable(f, m, inputs[i]);
    return Success(streams);
  }

  /** The encodables depend on the inputs' names only, never on their types: inputs with
      the same names give the same list, and the same first error. */
  lemma EncodablesIgnoreTypes(f: Foreign, m: SerdeTypeMapping, a: seq<Parameter>, b: seq<Parameter>)
    requires |a| == |b| && forall i :: 0 <= i < |a| ==> a[i].name == b[i].name
    ensures Collect(Encodables(f, m, a)) == Collect(Encodables(f, m, b))
  {
    assert Encodables(f, m, a) == Encodables(f, m, b);
  }

  /** With a template that resolves for every name, the list succeeds and is exactly the
      template filled with each input's snake-cased name, in order. */
  lemma EncodablesWhenTemplateResolves(f: Foreign, m: SerdeTypeMapping, inputs: seq<Parameter>)
    requires forall i :: 0 <= i < |inputs| ==> Encodable(f, m, inputs[i]).Success?
    ensures Collect(Encodables(f, m, inputs)).Success?
    ensures |Collect(Encodables(f, m, inputs)).value| == |inputs|
    ensures forall i :: 0 <= i < |inputs| ==>
              Collect(Encodables(f, m, inputs)).value[i] == Encodable(f, m, inputs[i]).value
  {
    var rs := Encodables(f, m, inputs);
    assert forall i :: 0 <= i < |inputs| ==> rs[i] == Encodable(f, m, inputs[i]);
    CollectSucceeds(rs);
  }
}
