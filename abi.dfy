/** The Solidity contract ABI in its JSON form: parameters, their types and the interface
    fields of a contract, plus the Hardhat artifact that wraps an ABI with its bytecode.
    The type-string parser that produces `Type` values is not part of this model: the
    values are taken as already parsed. */
module Abi {
  import opened Wrappers

  /** The elementary ABI types that carry no size suffix. */
  datatype SimpleType = Address | Uint | Int | Bool | Fixed | Ufixed | Function | Bytes | String | Tuple
  {
    predicate IsTuple() { this == Tuple }

    /** The text `to_string()` gives: the type's Solidity keyword, which is also the key of
        its template in a type-mapping file. */
    function DisplayName(): (s: string)
      ensures s != []
    {
      match this
      case Address => "address"
      case Uint => "uint"
      case Int => "int"
      case Bool => "bool"
      case Fixed => "fixed"
      case Ufixed => "ufixed"
      case Function => "function"
      case Bytes => "bytes"
      case String => "string"
      case Tuple => "tuple"
    }
  }

  /** A parsed ABI type. `IntegerM` is `int<M>`/`uint<M>`, `FixedMN` is `fixed<M>x<N>`/`ufixed<M>x<N>`,
      `BytesM` is `bytes<M>`, `Array` is `T[]` and `ArrayM` is `T[M]`. */
  datatype Type =
    | Simple(kind: SimpleType)
    | IntegerM(signed: bool, m: nat)
    | FixedMN(fixedSigned: bool, fm: nat, fn: nat)
    | BytesM(bm: nat)
    | Array(element: Type)
    | ArrayM(arrayElement: Type, am: nat)

  /** The `components` field of a parameter: present only for tuple-shaped parameters. */
  datatype Components = Absent | Present(params: seq<Parameter>)

  /** One input or output of a function, event, error or constructor. */
  datatype Parameter = Parameter(name: string, typ: Type, components: Components, indexed: bool)

  /** `components.unwrap_or(&[])`: the nested parameters, or none. */
  function ComponentsOrEmpty(p: Parameter): (cs: seq<Parameter>)
    ensures p.components.Absent? ==> cs == []
    ensures p.components.Present? ==> cs == p.components.params
  {
    if p.components.Present? then p.components.params else []
  }

  datatype FunctionAbi = FunctionAbi(name: string, inputs: seq<Parameter>, outputs: seq<Parameter>)
  datatype ConstructorAbi = ConstructorAbi(inputs: seq<Parameter>)
  datatype EventAbi = EventAbi(name: string, inputs: seq<Parameter>, anonymous: bool)
  datatype ErrorAbi = ErrorAbi(name: string, inputs: seq<Parameter>)

  /** One entry of a contract's ABI JSON array, tagged by its `type` field. */
  datatype AbiField =
    | FunctionField(func: FunctionAbi)
    | ConstructorField(ctor: ConstructorAbi)
    | EventField(event: EventAbi)
    | ErrorField(error: ErrorAbi)
    | Receive
    | Fallback

  /** A Hardhat build artifact: the contract's name, its ABI and its deployment bytecode. */
  datatype HardhatArtifact = HardhatArtifact(contractName: string, abi: seq<AbiField>, bytecode: string)

  /** The errors a type mapping reports: a template name that is not in the mapping, and a
      template still holding a `$` placeholder after substitution (the text, then the
      placeholder names that were offered, joined by spaces). */
  datatype TypeMappingError = NotFound(name: string) | Serde(text: string, wildcards: string)

  /** Size of a parameter tree, the termination measure of every walk over nested components. */
  function ParamSize(p: Parameter): (n: nat)
    ensures n >= 1
    ensures p.components.Present? ==> n > ListSize(p.components.params)
    decreases p
  {
    match p.components
    case Absent => 1
    case Present(ps) => 1 + ListSize(ps)
  }

  function ListSize(ps: seq<Parameter>): (n: nat)
    ensures ps != [] ==> n >= ParamSize(ps[|ps| - 1]) && n > ListSize(ps[..|ps| - 1])
    decreases ps
  {
    if ps == [] then 0 else ListSize(ps[..|ps| - 1]) + ParamSize(ps[|ps| - 1])
  }

  /** Every element of a list is no larger than the list, and its components are smaller. */
  lemma {:induction false} ElementSmaller(ps: seq<Parameter>, i: nat)
    requires i < |ps|
    ensures ParamSize(ps[i]) <= ListSize(ps)
    ensures ListSize(ComponentsOrEmpty(ps[i])) < ListSize(ps)
    decreases |ps|
  {
    if i < |ps| - 1 {
      ElementSmaller(ps[..|ps| - 1], i);
    }
  }

  lemma {:induction false} PrefixSmaller(ps: seq<Parameter>, i: nat)
    requires i <= |ps|
    ensures ListSize(ps[..i]) <= ListSize(ps)
    decreases |ps|
  {
    if i < |ps| {
      assert ps[..|ps| - 1][..i] == ps[..i];
      PrefixSmaller(ps[..|ps| - 1], i);
    } else {
      assert ps[..i] == ps;
    }
  }

  predicate NoConstructorBefore(abi: seq<AbiField>, i: nat)
    requires i <= |abi|
  {
    forall k :: 0 <= k < i ==> !abi[k].ConstructorField?
  }

  /** The inputs of the first constructor in an ABI list, or the empty list when there is none. */
  function FirstConstructorInputs(abi: seq<AbiField>): (inputs: seq<Parameter>)
    ensures (forall i :: 0 <= i < |abi| ==> !abi[i].ConstructorField?) ==> inputs == []
    ensures forall i :: 0 <= i < |abi| && abi[i].ConstructorField? && NoConstructorBefore(abi, i) ==>
              inputs == abi[i].ctor.inputs
  {
    if abi == [] then []
    else if abi[0].ConstructorField? then abi[0].ctor.inputs
    else FirstConstructorInputs(abi[1..])
  }

  /** The search loop the generators run over an artifact's ABI: scan the fields in order and
      stop at the first constructor. */
  method FindConstructorInputs(abi: seq<AbiField>) returns (inputs: seq<Parameter>)
    ensures inputs == FirstConstructorInputs(abi)
  {
    inputs := [];
    var i := 0;
    while i < |abi|
      invariant 0 <= i <= |abi|
      invariant forall k :: 0 <= k < i ==> !abi[k].ConstructorField?
      invariant FirstConstructorInputs(abi) == FirstConstructorInputs(abi[i..])
    {
      if abi[i].ConstructorField? {
        inputs := abi[i].ctor.inputs;
        break;
      }
      assert abi[i..][1..] == abi[i + 1..];
      i := i + 1;
    }
    if i == |abi| {
      assert abi[i..] == [];
    }
  }

  /** The parameter lists a field declares, in the order the tuple passes visit them:
      a constructor's inputs; a function's inputs, then its outputs; an event's or an
      error's inputs; nothing for receive and fallback. */
  function FieldLists(f: AbiField): (lists: seq<seq<Parameter>>)
    ensures f.Receive? || f.Fallback? ==> lists == []
  {
    match f
    case ConstructorField(c) => [c.inputs]
    case FunctionField(fn) => [fn.inputs, fn.outputs]
    case EventField(e) => [e.inputs]
    case ErrorField(e) => [e.inputs]
    case _ => []
  }

  /** The parameter lists of a whole ABI, field by field in declaration order. */
  function AbiLists(abi: seq<AbiField>): seq<seq<Parameter>>
  {
    if abi == [] then [] else AbiLists(abi[..|abi| - 1]) + FieldLists(abi[|abi| - 1])
  }

  lemma AbiListsSnoc(abi: seq<AbiField>, i: nat)
    requires i < |abi|
    ensures AbiLists(abi[..i + 1]) == AbiLists(abi[..i]) + FieldLists(abi[i])
  {
    PrefixSnoc(abi, i);
  }

  /** Dropping the last element of `a + b` drops the last element of `b`. */
  lemma AppendInit<T>(a: seq<T>, b: seq<T>)
    requires b != []
    ensures (a + b)[..|a + b| - 1] == a + b[..|b| - 1]
    ensures (a + b)[|a + b| - 1] == b[|b| - 1]
  {
    assert (a + b)[..|a + b| - 1] == a + b[..|b| - 1];
  }

  /** The prefix of length `i + 1` ends with element `i`. */
  lemma PrefixSnoc<T>(s: seq<T>, i: nat)
    requires i < |s|
    ensures s[..i + 1][..i] == s[..i] && s[..i + 1][i] == s[i]
  {
    assert s[..i + 1][..i] == s[..i];
  }

  /** A sequence is its prefix of length `k` followed by the rest. */
  lemma SplitAt<T>(s: seq<T>, k: nat)
    requires k <= |s|
    ensures s[..k] + s[k..] == s
  {
  }

  lemma AppendAssoc<T>(a: seq<T>, b: seq<T>, c: seq<T>)
    ensures a + b + c == a + (b + c)
  {
  }

  /** The lists of a concatenation are the concatenation of the lists. */
  lemma {:induction false} AbiListsAppend(a: seq<AbiField>, b: seq<AbiField>)
    ensures AbiLists(a + b) == AbiLists(a) + AbiLists(b)
    decreases |b|
  {
    if b == [] {
      assert a + b == a;
    } else {
      var init := b[..|b| - 1];
      AppendInit(a, b);
      AbiListsAppend(a, init);
      AppendAssoc(AbiLists(a), AbiLists(init), FieldLists(b[|b| - 1]));
    }
  }
}
