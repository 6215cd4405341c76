/** One contract's accumulated binding code in the Rust back end: the impl functions, the
    error and event decodable constructors keyed by their identifiers, and the tuple
    structures, each list in insertion order. */
module RustContract {
  import opened Strings

  /** The code `gen_codes` emits for one contract, part by part in output order: the struct
      wrapping the runtime context, its impl block (the functions, then `event_decodable`
      and `error_decodable` matching on the two enums), the error enum, the event enum, and
      the tuple structures. */
  datatype ContractCode = ContractCode(
    ident: string,
    context: string,
    fns: seq<string>,
    eventEnum: string,
    eventType: string,
    eventArms: seq<string>,
    errorEnum: string,
    errorType: string,
    errorArms: seq<string>,
    errorVariants: seq<string>,
    eventVariants: seq<string>,
    tupleDefs: seq<string>)
  {
    /** The emitted text, the parts laid out in the order above. */
    function Text(): string
    {
      "pub struct " + ident + "(" + context + ");"
      + " impl " + ident + " { " + Terminated(fns, " ")
      + "pub fn event_decodable(event_type: " + eventEnum + ") -> " + eventType
      + " { match event_type { " + Terminated(eventArms, ",") + " } }"
      + " pub fn error_decodable(error_type: " + errorEnum + ") -> " + errorType
      + " { match error_type { " + Terminated(errorArms, ",") + " } } }"
      + " pub enum " + errorEnum + " { " + Terminated(errorVariants, ",") + " }"
      + " pub enum " + eventEnum + " { " + Terminated(eventVariants, ",") + " } "
      + Terminated(tupleDefs, " ")
    }
  }

  /** The match arm `ident => expr` of every entry, in order. */
  function Arms(entries: seq<(string, string)>): seq<string>
  {
    seq(|entries|, i requires 0 <= i < |entries| => entries[i].0 + " => " + entries[i].1)
  }

  /** The identifier of every entry, in order. */
  function Idents(entries: seq<(string, string)>): seq<string>
  {
    seq(|entries|, i requires 0 <= i < |entries| => entries[i].0)
  }

  /** The stream of every entry, in order. */
  function Streams(entries: seq<(string, string)>): seq<string>
  {
    seq(|entries|, i requires 0 <= i < |entries| => entries[i].1)
  }

  class ContractBinding {
    const ident: string
    var impls: seq<string>
    var errors: seq<(string, string)>
    var events: seq<(string, string)>
    var tuples: seq<(string, string)>

    /** `ContractBinding::new`: the identifier, and all four lists empty. */
    constructor (ident: string)
      ensures this.ident == ident
      ensures impls == [] && errors == [] && events == [] && tuples == []
    {
      this.ident := ident;
      impls := [];
      errors := [];
      events := [];
      tuples := [];
    }

    method AddImplStream(stream: string)
      modifies this
      ensures impls == old(impls) + [stream]
      ensures errors == old(errors) && events == old(events) && tuples == old(tuples)
    {
      impls := impls + [stream];
    }

    method AddTupleStream(tupleIdent: string, stream: string)
      modifies this
      ensures tuples == old(tuples) + [(tupleIdent, stream)]
      ensures impls == old(impls) && errors == old(errors) && events == old(events)
    {
      tuples := tuples + [(tupleIdent, stream)];
    }

    method AddErrorStream(errorIdent: string, stream: string)
      modifies this
      ensures errors == old(errors) + [(errorIdent, stream)]
      ensures impls == old(impls) && events == old(events) && tuples == old(tuples)
    {
      errors := errors + [(errorIdent, stream)];
    }

    method AddEventStream(eventIdent: string, stream: string)
      modifies this
      ensures events == old(events) + [(eventIdent, stream)]
      ensures impls == old(impls) && errors == old(errors) && tuples == old(tuples)
    {
      events := events + [(eventIdent, stream)];
    }

    /** `gen_codes`: the enums are named after the contract, their variants and match arms
        follow the entries one to one and in insertion order, and the functions and tuple
        structures are emitted in insertion order. Reading only, it changes nothing. */
    function GenCodes(rtContext: string, rtEvent: string, rtError: string): (code: ContractCode)
      reads this
      ensures code.ident == ident && code.context == rtContext
      ensures code.eventEnum == ident + "Events" && code.errorEnum == ident + "Errors"
      ensures code.eventType == rtEvent && code.errorType == rtError
      ensures code.fns == impls
      ensures |code.eventArms| == |code.eventVariants| == |events|
      ensures forall i :: 0 <= i < |events| ==>
                code.eventVariants[i] == events[i].0 && code.eventArms[i] == events[i].0 + " => " + events[i].1
      ensures |code.errorArms| == |code.errorVariants| == |errors|
      ensures forall i :: 0 <= i < |errors| ==>
                code.errorVariants[i] == errors[i].0 && code.errorArms[i] == errors[i].0 + " => " + errors[i].1
      ensures |code.tupleDefs| == |tuples| && forall i :: 0 <= i < |tuples| ==> code.tupleDefs[i] == tuples[i].1
    {
      ContractCode(ident, rtContext, impls,
                   ident + "Events", rtEvent, Arms(events),
                   ident + "Errors", rtError, Arms(errors),
                   Idents(errors), Idents(events), Streams(tuples))
    }
  }
}
