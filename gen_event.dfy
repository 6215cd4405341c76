/** The event code of the runtime-binder generator: the field list of an event structure
    and the statements that decode an event's inputs, split into indexed topics and the
    data payload. */
module GenEvents {
  import opened Wrappers
  import opened Abi
  import opened Strings
  import opened RustTokens
  import opened GenFunctions

  /** An event field's variable: the snake-cased name, or `p{i}` for a nameless input. */
  function EventVar(f: Foreign, p: Parameter, i: nat): (v: string)
    ensures p.name != "" ==> v == f.snake(p.name)
    ensures p.name == "" ==> v == "p" + Decimal(i)
  {
    if p.name != "" then f.snake(p.name) else "p" + Decimal(i)
  }

  function EventField(b: RuntimeBinder, f: Foreign, p: Parameter, i: nat): Result<string, BindError>
  {
    match RustType(b, f, p)
    case Failure(e) => Failure(e)
    case Success(t) => Success(EventVar(f, p, i) + ": " + t)
  }

  function EventFieldSteps(b: RuntimeBinder, f: Foreign, params: seq<Parameter>): (rs: seq<Result<string, BindError>>)
    ensures |rs| == |params|
  {
    seq(|params|, i requires 0 <= i < |params| => EventField(b, f, params[i], i))
  }

  /** `to_event_field_list`: one `v: type` per input, in order. */
  method ToEventFieldList(b: RuntimeBinder, f: Foreign, params: seq<Parameter>) returns (r: Result<seq<string>, BindError>)
    ensures r == Collect(EventFieldSteps(b, f, params))
  {
    var rs := EventFieldSteps(b, f, params);
    var streams := [];
    for i := 0 to |params|
      invariant Collect(rs[..i]) == Success(streams)
    {
      var t := ToRustType(b, f, params[i]);
      CollectStep(rs, i, streams);
      if t.Failure? {
        return Failure(t.error);
      }
      var v := if params[i].name != "" then f.snake(params[i].name) else "p" + Decimal(i);
      streams := streams + [v + ": " + t.value];
    }
    assert rs[..|params|] == rs;
    return Success(streams);
  }

  /** The field list succeeds exactly when every input's Rust type does; field i is then the
      input's variable and type. */
  lemma EventFieldsOutcome(b: RuntimeBinder, f: Foreign, params: seq<Parameter>)
    ensures Collect(EventFieldSteps(b, f, params)).Success? <==>
              forall i :: 0 <= i < |params| ==> RustType(b, f, params[i]).Success?
    ensures Collect(EventFieldSteps(b, f, params)).Success? ==>
              var fs := Collect(EventFieldSteps(b, f, params)).value;
              |fs| == |params| &&
              forall i :: 0 <= i < |params| ==> fs[i] == EventVar(f, params[i], i) + ": " + RustType(b, f, params[i]).value
  {
    var rs := EventFieldSteps(b, f, params);
    CollectSucceeds(rs);
    assert forall i :: 0 <= i < |params| ==> rs[i] == EventField(b, f, params[i], i);
  }

  /** `decode_from_data`: not implemented, so every call fails. */
  method DecodeFromData(b: RuntimeBinder, p: Parameter) returns (r: Result<string, BindError>)
    ensures r == Failure(Unimplemented)
  {
    return Failure(Unimplemented);
  }

  predicate IsTupleInput(p: Parameter)
  {
    p.typ.Simple? && p.typ.kind.IsTuple()
  }

  /** Whether an input is decoded from the data payload: a tuple always is, whatever its
      `indexed` flag; any other input is when it is not indexed. */
  predicate FromData(p: Parameter)
  {
    IsTupleInput(p) || !p.indexed
  }

  /** The statements of the decode loop: per input, an empty statement for an indexed
      topic followed by a second empty statement; an input decoded from data reaches
      `decode_from_data` and aborts. */
  function EventDecodes(inputs: seq<Parameter>): Result<seq<string>, BindError>
  {
    if inputs == [] then Success([])
    else
      match EventDecodes(inputs[..|inputs| - 1])
      case Failure(e) => Failure(e)
      case Success(ss) =>
        if FromData(inputs[|inputs| - 1]) then Failure(Unimplemented) else Success(ss + ["", ""])
  }

  lemma {:induction false} EventDecodesPrefixFails(inputs: seq<Parameter>, k: nat)
    requires k <= |inputs| && EventDecodes(inputs[..k]).Failure?
    ensures EventDecodes(inputs) == EventDecodes(inputs[..k])
    decreases |inputs|
  {
    if k < |inputs| {
      var init := inputs[..|inputs| - 1];
      assert init[..k] == inputs[..k];
      EventDecodesPrefixFails(init, k);
    } else {
      assert inputs[..k] == inputs;
    }
  }

  /** `to_event_docode_token_streams`. The base topic index the source computes (0 for an
      anonymous event, 1 otherwise) is never used and has no counterpart here. */
  method ToEventDecodeTokenStreams(b: RuntimeBinder, event: EventAbi) returns (r: Result<seq<string>, BindError>)
    ensures r == EventDecodes(event.inputs)
  {
    var inputs := event.inputs;
    var streams := [];
    for i := 0 to |inputs|
      invariant EventDecodes(inputs[..i]) == Success(streams)
    {
      var p := inputs[i];
      ghost var before := streams;
      assert inputs[..i + 1][..i] == inputs[..i];
      if IsTupleInput(p) {
        var d := DecodeFromData(b, p);
        EventDecodesPrefixFails(inputs, i + 1);
        return Failure(d.error);
      } else if p.indexed {
        streams := streams + [""];
      } else {
        var d := DecodeFromData(b, p);
        EventDecodesPrefixFails(inputs, i + 1);
        return Failure(d.error);
      }
      streams := streams + [""];
      assert streams == before + ["", ""];
    }
    assert inputs[..|inputs|] == inputs;
    return Success(streams);
  }

  /** Decoding succeeds exactly when every input is an indexed non-tuple; each input then
      contributes two empty statements, so there are 2·n of them. Otherwise the failure is
      the unimplemented data decoding. */
  lemma {:induction false} EventDecodesOutcome(inputs: seq<Parameter>)
    ensures EventDecodes(inputs).Success? <==> forall i :: 0 <= i < |inputs| ==> !IsTupleInput(inputs[i]) && inputs[i].indexed
    ensures EventDecodes(inputs).Success? ==>
              |EventDecodes(inputs).value| == 2 * |inputs| &&
              forall j :: 0 <= j < 2 * |inputs| ==> EventDecodes(inputs).value[j] == ""
    ensures EventDecodes(inputs).Failure? ==> EventDecodes(inputs).error == Unimplemented
    decreases |inputs|
  {
    if inputs != [] {
      var init := inputs[..|inputs| - 1];
      EventDecodesOutcome(init);
      assert forall i :: 0 <= i < |init| ==> init[i] == inputs[i];
    }
  }
}
