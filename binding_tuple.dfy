/** The field list of a tuple structure in the Rust binding: `snake(name) : type` for
    every component, each followed by a comma. */
module BindingTuple {
  import opened Wrappers
  import opened Abi
  import opened Strings
  import opened RustTokens

  /** The field for one component: the snake-cased name and the parsed mapped type. */
  function FieldEntry(f: Foreign, context: Parameter -> string, p: Parameter): Result<string, BindError>
  {
    match MappingParameter(f, context, p)
    case Failure(e) => Failure(e)
    case Success(t) => Success(f.snake(p.name) + " : " + t)
  }

  function FieldEntries(f: Foreign, context: Parameter -> string, inputs: seq<Parameter>): (rs: seq<Result<string, BindError>>)
    ensures |rs| == |inputs|
  {
    seq(|inputs|, i requires 0 <= i < |inputs| => FieldEntry(f, context, inputs[i]))
  }

  /** `to_tuple_fields_token_stream`: one field per component, in order, comma-terminated;
      a component whose type does not map aborts the whole list. */
  method ToTupleFields(f: Foreign, context: Parameter -> string, inputs: seq<Parameter>) returns (r: Result<string, BindError>)
    ensures r == TerminatedAll(Collect(FieldEntries(f, context, inputs)), ",")
  {
    var rs := FieldEntries(f, context, inputs);
    var fields := [];
    for i := 0 to |inputs|
      invariant Collect(rs[..i]) == Success(fields)
    {
      var t := MappingParameter(f, context, inputs[i]);
      CollectStep(rs, i, fields);
      if t.Failure? {
        return Failure(t.error);
      }
      fields := fields + [f.snake(inputs[i].name) + " : " + t.value];
    }
    assert rs[..|inputs|] == rs;
    return Success(Terminated(fields, ","));
  }

  /** The field list succeeds exactly when every component's mapped type parses; then
      field i is `snake(name_i) : type_i` and the text is those fields, each followed by a
      comma. Otherwise the error is that of the first component that does not parse. */
  lemma TupleFieldsOutcome(f: Foreign, context: Parameter -> string, inputs: seq<Parameter>)
    ensures Collect(FieldEntries(f, context, inputs)).Success? <==>
              forall i :: 0 <= i < |inputs| ==> f.parse(context(inputs[i])).Some?
    ensures Collect(FieldEntries(f, context, inputs)).Success? ==>
              var fields := Collect(FieldEntries(f, context, inputs)).value;
              |fields| == |inputs| &&
              (forall i :: 0 <= i < |inputs| ==> fields[i] == f.snake(inputs[i].name) + " : " + f.parse(context(inputs[i])).value)
    ensures Collect(FieldEntries(f, context, inputs)).Failure? ==>
              exists i :: 0 <= i < |inputs| && f.parse(context(inputs[i])).None? &&
                (forall j :: 0 <= j < i ==> f.parse(context(inputs[j])).Some?) &&
                Collect(FieldEntries(f, context, inputs)).error == Parse(context(inputs[i]))
  {
    var rs := FieldEntries(f, context, inputs);
    CollectSucceeds(rs);
    forall i | 0 <= i < |inputs|
      ensures rs[i].Success? <==> f.parse(context(inputs[i])).Some?
    {
      var _ := MappingParameter(f, context, inputs[i]);
    }
    if Collect(rs).Failure? {
      var i := CollectFails(rs);
      assert forall j :: 0 <= j < i ==> rs[j].Success?;
    }
  }
}
