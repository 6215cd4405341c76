/** The calls a binding compiler issues against a target-language generator, and a
    generator that records them. A generator call either succeeds or fails, and the
    orchestration stops at the first failure. Which calls fail is fixed in advance by an
    oracle on the call alone, so the recorded trace covers every run of a generator whose
    outcome per call is fixed; a generator whose failures depend on earlier calls or on its
    own state is not described. */
module Protocol {
  import opened Abi

  /** One call to a generator (or to the contract generator it hands out). */
  datatype Call =
    | Begin(contractName: string)
    | GenerateContract(name: string)
    | GenerateFunction(func: FunctionAbi)
    | GenerateEvent(event: EventAbi)
    | GenerateError(error: ErrorAbi)
    | GenerateDeploy(bytecode: string, inputs: seq<Parameter>)
    | GenerateTuple(tupleName: string, tuple: seq<Parameter>)

  /** True iff every call succeeds. */
  predicate Succeeds(fails: Call -> bool, calls: seq<Call>)
  {
    forall i :: 0 <= i < |calls| ==> !fails(calls[i])
  }

  /** The calls a fail-fast run issues: all of them up to and including the first that
      fails. */
  function Attempted(fails: Call -> bool, calls: seq<Call>): (issued: seq<Call>)
    ensures |issued| <= |calls| && issued == calls[..|issued|]
  {
    if calls == [] then []
    else if fails(calls[0]) then [calls[0]]
    else [calls[0]] + Attempted(fails, calls[1..])
  }

  /** A run issues everything when nothing fails; otherwise it stops right after the first
      failing call, every earlier call having succeeded. */
  lemma {:induction false} AttemptedStopsAtFailure(fails: Call -> bool, calls: seq<Call>)
    ensures Succeeds(fails, calls) ==> Attempted(fails, calls) == calls
    ensures !Succeeds(fails, calls) ==>
      var issued := Attempted(fails, calls);
      issued != [] && fails(issued[|issued| - 1]) && Succeeds(fails, issued[..|issued| - 1])
    decreases |calls|
  {
    if calls != [] {
      AttemptedStopsAtFailure(fails, calls[1..]);
      if !fails(calls[0]) {
        var rest := Attempted(fails, calls[1..]);
        assert Succeeds(fails, calls) <==> Succeeds(fails, calls[1..]) by {
          if Succeeds(fails, calls[1..]) {
            forall i | 0 <= i < |calls| ensures !fails(calls[i]) {
              if i > 0 { assert calls[i] == calls[1..][i - 1]; }
            }
          }
        }
        if !Succeeds(fails, calls[1..]) {
          var issued := [calls[0]] + rest;
          assert issued[..|issued| - 1] == [calls[0]] + rest[..|rest| - 1];
        }
      } else {
        assert !Succeeds(fails, calls) by { assert fails(calls[0]); }
      }
    }
  }

  /** A single call is issued, and the run succeeds exactly when that call does. */
  lemma SingleCall(fails: Call -> bool, c: Call)
    ensures Attempted(fails, [c]) == [c]
    ensures Succeeds(fails, [c]) <==> !fails(c)
  {
    assert [c][1..] == [];
  }

  /** Running two batches back to back: the second starts only when the first succeeded. */
  lemma {:induction false} AttemptedAppend(fails: Call -> bool, a: seq<Call>, b: seq<Call>)
    ensures Succeeds(fails, a) ==> Attempted(fails, a + b) == a + Attempted(fails, b)
    ensures !Succeeds(fails, a) ==> Attempted(fails, a + b) == Attempted(fails, a)
    ensures Succeeds(fails, a + b) <==> Succeeds(fails, a) && Succeeds(fails, b)
    decreases |a|
  {
    if a == [] {
      assert a + b == b;
    } else {
      assert (a + b)[0] == a[0];
      assert (a + b)[1..] == a[1..] + b;
      AttemptedAppend(fails, a[1..], b);
      assert Succeeds(fails, a) <==> !fails(a[0]) && Succeeds(fails, a[1..]) by {
        if !fails(a[0]) && Succeeds(fails, a[1..]) {
          forall i | 0 <= i < |a| ensures !fails(a[i]) {
            if i > 0 { assert a[i] == a[1..][i - 1]; }
          }
        }
      }
      assert Succeeds(fails, a + b) <==> !fails(a[0]) && Succeeds(fails, a[1..] + b) by {
        if !fails(a[0]) && Succeeds(fails, a[1..] + b) {
          forall i | 0 <= i < |a + b| ensures !fails((a + b)[i]) {
            if i > 0 { assert (a + b)[i] == (a[1..] + b)[i - 1]; }
          }
        }
      }
      assert Succeeds(fails, a[1..] + b) <==> Succeeds(fails, a[1..]) && Succeeds(fails, b);
      if !fails(a[0]) {
        assert a == [a[0]] + a[1..];
      }
    }
  }

  /** `Attempted` on a prefix known to succeed followed by the call that ran last. */
  lemma AttemptedFailsAt(fails: Call -> bool, done: seq<Call>, c: Call, rest: seq<Call>)
    requires Succeeds(fails, done) && fails(c)
    ensures Attempted(fails, done + [c] + rest) == done + [c]
    ensures !Succeeds(fails, done + [c] + rest)
  {
    assert done + [c] + rest == done + ([c] + rest);
    AttemptedAppend(fails, done, [c] + rest);
    assert ([c] + rest)[0] == c;
    assert (done + [c] + rest)[|done|] == c;
  }

  lemma AttemptedSucceeded(fails: Call -> bool, calls: seq<Call>)
    requires Succeeds(fails, calls)
    ensures Attempted(fails, calls) == calls
  {
    AttemptedStopsAtFailure(fails, calls);
  }

  /** Two fail-fast runs in a row, the second skipped when the first failed, make one
      fail-fast run over both call lists. */
  lemma Chain(fails: Call -> bool, a: seq<Call>, b: seq<Call>, t0: seq<Call>, t1: seq<Call>, t2: seq<Call>, ok1: bool, ok2: bool)
    requires t1 == t0 + Attempted(fails, a) && (ok1 <==> Succeeds(fails, a))
    requires ok1 ==> t2 == t1 + Attempted(fails, b) && (ok2 <==> Succeeds(fails, b))
    requires !ok1 ==> t2 == t1 && !ok2
    ensures t2 == t0 + Attempted(fails, a + b)
    ensures ok2 <==> Succeeds(fails, a + b)
  {
    AttemptedAppend(fails, a, b);
    if ok1 {
      AttemptedSucceeded(fails, a);
      AppendAssoc(t0, a, Attempted(fails, b));
    }
  }

  /** The call a field dispatches: functions, events and errors have one each;
      constructors, receive and fallback have none. */
  function FieldCall(f: AbiField): (calls: seq<Call>)
    ensures f.FunctionField? ==> calls == [GenerateFunction(f.func)]
    ensures f.EventField? ==> calls == [GenerateEvent(f.event)]
    ensures f.ErrorField? ==> calls == [GenerateError(f.error)]
    ensures calls == [] <==> !(f.FunctionField? || f.EventField? || f.ErrorField?)
  {
    match f
    case FunctionField(fn) => [GenerateFunction(fn)]
    case EventField(e) => [GenerateEvent(e)]
    case ErrorField(e) => [GenerateError(e)]
    case _ => []
  }

  /** The calls a whole ABI dispatches, in declaration order. */
  function FieldCalls(abi: seq<AbiField>): seq<Call>
  {
    if abi == [] then [] else FieldCalls(abi[..|abi| - 1]) + FieldCall(abi[|abi| - 1])
  }

  lemma {:induction false} FieldCallsAppend(a: seq<AbiField>, b: seq<AbiField>)
    ensures FieldCalls(a + b) == FieldCalls(a) + FieldCalls(b)
    decreases |b|
  {
    if b == [] {
      assert a + b == a;
    } else {
      var init := b[..|b| - 1];
      AppendInit(a, b);
      FieldCallsAppend(a, init);
      AppendAssoc(FieldCalls(a), FieldCalls(init), FieldCall(b[|b| - 1]));
    }
  }

  lemma FieldCallsSplit(abi: seq<AbiField>, i: nat)
    requires i < |abi|
    ensures FieldCalls(abi[..i + 1]) == FieldCalls(abi[..i]) + FieldCall(abi[i])
    ensures FieldCalls(abi) == FieldCalls(abi[..i]) + FieldCall(abi[i]) + FieldCalls(abi[i + 1..])
  {
    var front := abi[..i + 1];
    PrefixSnoc(abi, i);
    assert FieldCalls(front) == FieldCalls(abi[..i]) + FieldCall(abi[i]);
    FieldCallsAppend(front, abi[i + 1..]);
    SplitAt(abi, i + 1);
  }

  /** The field dispatch issues only function, event and error calls, at most one per
      field, and one for every function, event and error field. */
  lemma {:induction false} FieldCallsCover(abi: seq<AbiField>)
    ensures |FieldCalls(abi)| <= |abi|
    ensures forall c :: c in FieldCalls(abi) ==> c.GenerateFunction? || c.GenerateEvent? || c.GenerateError?
    ensures forall i :: 0 <= i < |abi| && abi[i].FunctionField? ==> GenerateFunction(abi[i].func) in FieldCalls(abi)
    ensures forall i :: 0 <= i < |abi| && abi[i].EventField? ==> GenerateEvent(abi[i].event) in FieldCalls(abi)
    ensures forall i :: 0 <= i < |abi| && abi[i].ErrorField? ==> GenerateError(abi[i].error) in FieldCalls(abi)
    decreases |abi|
  {
    if abi != [] {
      var init := abi[..|abi| - 1];
      FieldCallsCover(init);
      forall i | 0 <= i < |abi| - 1 ensures abi[i] == init[i] { }
    }
  }

  /** A generator that records every call it receives. Which calls fail is fixed when it
      is made. */
  class Recorder {
    var trace: seq<Call>
    const fails: Call -> bool

    constructor(fails: Call -> bool)
      ensures trace == [] && this.fails == fails
    {
      trace := [];
      this.fails := fails;
    }

    method Invoke(c: Call) returns (ok: bool)
      modifies this
      ensures trace == old(trace) + [c]
      ensures ok <==> !fails(c)
    {
      trace := trace + [c];
      ok := !fails(c);
    }
  }

  /** The field loop: one call per function, event and error field in declaration order,
      returning at the first failure. Constructors, receive and fallback are skipped. */
  method DispatchFields(g: Recorder, abi: seq<AbiField>) returns (ok: bool)
    modifies g
    ensures g.trace == old(g.trace) + Attempted(g.fails, FieldCalls(abi))
    ensures ok <==> Succeeds(g.fails, FieldCalls(abi))
  {
    for i := 0 to |abi|
      invariant g.trace == old(g.trace) + FieldCalls(abi[..i])
      invariant Succeeds(g.fails, FieldCalls(abi[..i]))
    {
      ok := DispatchField(g, abi[i]);
      DispatchStep(g.fails, abi, i);
      if !ok {
        return;
      }
    }
    assert abi[..|abi|] == abi;
    AttemptedSucceeded(g.fails, FieldCalls(abi));
    ok := true;
  }

  /** The `match` on one field. */
  method DispatchField(g: Recorder, f: AbiField) returns (ok: bool)
    modifies g
    ensures g.trace == old(g.trace) + Attempted(g.fails, FieldCall(f))
    ensures ok <==> Succeeds(g.fails, FieldCall(f))
  {
    match f
    case FunctionField(fn) => ok := g.Invoke(GenerateFunction(fn));
    case EventField(e) => ok := g.Invoke(GenerateEvent(e));
    case ErrorField(e) => ok := g.Invoke(GenerateError(e));
    case _ => ok := true;
  }

  /** One step of the field loop: after the calls of the first `i` fields succeeded, the
      run either goes on with the calls of the first `i + 1`, or has stopped for good. */
  lemma DispatchStep(fails: Call -> bool, abi: seq<AbiField>, i: nat)
    requires i < |abi| && Succeeds(fails, FieldCalls(abi[..i]))
    ensures Succeeds(fails, FieldCall(abi[i])) ==>
      FieldCalls(abi[..i]) + Attempted(fails, FieldCall(abi[i])) == FieldCalls(abi[..i + 1])
      && Succeeds(fails, FieldCalls(abi[..i + 1]))
    ensures !Succeeds(fails, FieldCall(abi[i])) ==>
      FieldCalls(abi[..i]) + Attempted(fails, FieldCall(abi[i])) == Attempted(fails, FieldCalls(abi))
      && !Succeeds(fails, FieldCalls(abi))
  {
    FieldCallsSplit(abi, i);
    StepCalls(fails, FieldCalls(abi[..i]), FieldCall(abi[i]), FieldCalls(abi[i + 1..]));
  }

  /** A batch run after a prefix that succeeded: either the run goes on, or it has
      stopped for good. */
  lemma StepCalls(fails: Call -> bool, done: seq<Call>, call: seq<Call>, rest: seq<Call>)
    requires Succeeds(fails, done)
    ensures Succeeds(fails, call) ==> done + Attempted(fails, call) == done + call && Succeeds(fails, done + call)
    ensures !Succeeds(fails, call) ==>
      done + Attempted(fails, call) == Attempted(fails, done + call + rest) && !Succeeds(fails, done + call + rest)
  {
    AttemptedAppend(fails, done, call);
    assert done + call + rest == done + (call + rest);
    AttemptedAppend(fails, done, call + rest);
    AttemptedAppend(fails, call, rest);
    if Succeeds(fails, call) {
      AttemptedSucceeded(fails, call);
    }
  }
}
