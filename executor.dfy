/** The code-generation context of the core crate: a registry of tuple types keyed by their
    structural names, a table from tuple keys to the target-language paths registered for
    them, and the resolution of ABI types to target-language type text. */
module CoreExecutor {
  import opened Wrappers
  import opened Abi
  import opened Strings
  import opened TupleKeys
  import opened TypeMappings

  /** The target-language text `mapping_type` gives for type `t` of a parameter whose
      components are `tuple`, against the tuple-mapping table `mt`. A tuple resolves to the
      path registered for its key (a missing key is the `NotFound` the source unwraps); an
      array resolves its element with no components. */
  function MappedType(tm: TypeMapping, mt: map<string, string>, t: Type, tuple: seq<Parameter>): Result<string, TypeMappingError>
    decreases t
  {
    match t
    case Simple(kind) =>
      if kind.IsTuple() then
        var key := TupleKey(tuple);
        if key in mt then Success(mt[key]) else Failure(NotFound(key))
      else tm.simple(kind)
    case Array(element) =>
      (match MappedType(tm, mt, element, [])
       case Success(text) => tm.arrayOf(text)
       case Failure(e) => Failure(e))
    case ArrayM(element, len) =>
      (match MappedType(tm, mt, element, [])
       case Success(text) => tm.arrayMOf(text, len)
       case Failure(e) => Failure(e))
    case BytesM(len) => tm.bytesM(len)
    case FixedMN(signed, bits, decimals) => tm.fixedMN(signed, bits, decimals)
    case IntegerM(signed, bits) => tm.integerM(signed, bits)
  }

  /** The tuple registry after `mapping_type` resolved `t`: a tuple registers its components,
      an array whatever its element registers, and no other type changes it. */
  function TypeRegistry(m: map<string, seq<Parameter>>, t: Type, tuple: seq<Parameter>): map<string, seq<Parameter>>
    decreases t
  {
    match t
    case Simple(kind) => if kind.IsTuple() then Registered(m, tuple) else m
    case Array(element) => TypeRegistry(m, element, [])
    case ArrayM(element, _) => TypeRegistry(m, element, [])
    case _ => m
  }

  /** The tuple key a type needs in the tuple-mapping table, if any. */
  function NeededKey(t: Type, tuple: seq<Parameter>): Option<string>
    decreases t
  {
    match t
    case Simple(kind) => if kind.IsTuple() then Some(TupleKey(tuple)) else None
    case Array(element) => NeededKey(element, [])
    case ArrayM(element, _) => NeededKey(element, [])
    case _ => None
  }

  /** A type mapping every one of whose operations succeeds. */
  ghost predicate Total(tm: TypeMapping)
  {
    && (forall k :: tm.simple(k).Success?)
    && (forall n :: tm.bytesM(n).Success?)
    && (forall s, m, n :: tm.fixedMN(s, m, n).Success?)
    && (forall s, m :: tm.integerM(s, m).Success?)
    && (forall e :: tm.arrayOf(e).Success?)
    && (forall e, n :: tm.arrayMOf(e, n).Success?)
  }

  /** The code-generation context (`Executor`). */
  class Executor {
    var tuples: map<string, seq<Parameter>>
    var mappingTuples: map<string, string>

    /** `Executor::default()`: both tables empty. */
    constructor()
      ensures tuples == map[] && mappingTuples == map[]
    {
      tuples := map[];
      mappingTuples := map[];
    }

    /** `tuple_name`: name the tuple by the keys of its nested tuples, registering every
        nested tuple bottom-up and then the tuple itself, first writer wins. */
    method TupleName(tuple: seq<Parameter>) returns (key: string)
      modifies this
      decreases ListSize(tuple)
      ensures key == TupleKey(tuple)
      ensures tuples == Registered(old(tuples), tuple)
      ensures mappingTuples == old(mappingTuples)
    {
      var els: seq<string> := [];
      for i := 0 to |tuple|
        invariant els == ChildKeys(tuple[..i])
        invariant tuples == RegisterChildren(old(tuples), tuple[..i])
        invariant mappingTuples == old(mappingTuples)
      {
        assert tuple[..i + 1][..i] == tuple[..i];
        var parm := tuple[i];
        if parm.components.Present? {
          ElementSmaller(tuple, i);
          var el := TupleName(parm.components.params);
          els := els + [el];
        }
      }
      assert tuple[..|tuple|] == tuple;
      key := "(" + Join(",", els) + ")";
      AddTuple(key, tuple);
    }

    /** `add_tuple`: register `tuple` under `name` unless the name is taken. */
    method AddTuple(name: string, tuple: seq<Parameter>)
      modifies this
      ensures tuples == AddIfAbsent(old(tuples), name, tuple)
      ensures mappingTuples == old(mappingTuples)
    {
      if name !in tuples {
        tuples := tuples[name := tuple];
      }
    }

    /** `register_tuple`: the tuple's key, after registering it. */
    method RegisterTuple(tuple: seq<Parameter>) returns (key: string)
      modifies this
      ensures key == TupleKey(tuple)
      ensures tuples == Registered(old(tuples), tuple)
      ensures mappingTuples == old(mappingTuples)
    {
      key := TupleName(tuple);
    }

    /** `reigster_tuple_mapping`: record the target path of a tuple key unless one is
        recorded; the result says whether this call recorded it. */
    method RegisterTupleMapping(name: string, path: string) returns (inserted: bool)
      modifies this
      ensures inserted <==> name !in old(mappingTuples)
      ensures mappingTuples == AddIfAbsent(old(mappingTuples), name, path)
      ensures tuples == old(tuples)
    {
      if name !in mappingTuples {
        mappingTuples := mappingTuples[name := path];
        return true;
      }
      return false;
    }

    /** `mapping_type`: the target text of type `t` whose components are `tuple`. */
    method MappingType(tm: TypeMapping, t: Type, tuple: seq<Parameter>) returns (r: Result<string, TypeMappingError>)
      modifies this
      decreases t
      ensures r == MappedType(tm, old(mappingTuples), t, tuple)
      ensures tuples == TypeRegistry(old(tuples), t, tuple)
      ensures mappingTuples == old(mappingTuples)
    {
      match t
      case Simple(kind) =>
        if kind.IsTuple() {
          var key := TupleName(tuple);
          if key in mappingTuples {
            r := Success(mappingTuples[key]);
          } else {
            r := Failure(NotFound(key));
          }
        } else {
          r := tm.simple(kind);
        }
      case Array(element) =>
        var inner := MappingType(tm, element, []);
        if inner.Success? {
          r := tm.arrayOf(inner.value);
        } else {
          r := Failure(inner.error);
        }
      case ArrayM(element, len) =>
        var inner := MappingType(tm, element, []);
        if inner.Success? {
          r := tm.arrayMOf(inner.value, len);
        } else {
          r := Failure(inner.error);
        }
      case BytesM(len) => r := tm.bytesM(len);
      case FixedMN(signed, bits, decimals) => r := tm.fixedMN(signed, bits, decimals);
      case IntegerM(signed, bits) => r := tm.integerM(signed, bits);
    }

    /** `mapping_parameter`: map the parameter's type with its components, or none. */
    method MappingParameter(tm: TypeMapping, parameter: Parameter) returns (r: Result<string, TypeMappingError>)
      modifies this
      ensures r == MappedType(tm, old(mappingTuples), parameter.typ, ComponentsOrEmpty(parameter))
      ensures tuples == TypeRegistry(old(tuples), parameter.typ, ComponentsOrEmpty(parameter))
      ensures mappingTuples == old(mappingTuples)
    {
      r := MappingType(tm, parameter.typ, ComponentsOrEmpty(parameter));
    }
  }

  /** A type with no tuple anywhere in it. */
  predicate TupleFree(t: Type)
  {
    NeededKey(t, []).None?
  }

  /** The empty tuple's key. */
  lemma EmptyTupleKey()
    ensures TupleKey([]) == "()"
  {
    assert ChildKeys([]) == [];
  }

  /** An array's element is resolved without components: the components of an array
      parameter are ignored, and an array of tuples always looks up the key `"()"`. */
  lemma ArrayIgnoresComponents(tm: TypeMapping, mt: map<string, string>, element: Type, c1: seq<Parameter>, c2: seq<Parameter>)
    ensures MappedType(tm, mt, Array(element), c1) == MappedType(tm, mt, Array(element), c2)
    ensures NeededKey(Array(Simple(Tuple)), c1) == Some("()")
    ensures MappedType(tm, mt, Array(Simple(Tuple)), c1)
         == if "()" in mt then tm.arrayOf(mt["()"]) else Failure(NotFound("()"))
  {
    EmptyTupleKey();
  }

  /** A type with no tuple in it resolves the same against any tuple table and any
      components, and leaves the tuple registry as it was. */
  lemma {:induction false} TupleFreeIndependent(tm: TypeMapping, mt1: map<string, string>, mt2: map<string, string>,
                                                m: map<string, seq<Parameter>>, t: Type, c1: seq<Parameter>, c2: seq<Parameter>)
    requires NeededKey(t, c1).None?
    ensures NeededKey(t, c2).None?
    ensures MappedType(tm, mt1, t, c1) == MappedType(tm, mt2, t, c2)
    ensures TypeRegistry(m, t, c1) == m
    decreases t
  {
    match t
    case Array(element) => TupleFreeIndependent(tm, mt1, mt2, m, element, [], []);
    case ArrayM(element, _) => TupleFreeIndependent(tm, mt1, mt2, m, element, [], []);
    case _ =>
  }

  /** With a type mapping that never fails, resolution fails exactly when the type needs a
      tuple key the table lacks, and then with `NotFound` of that key. */
  lemma {:induction false} MappedTypeSucceeds(tm: TypeMapping, mt: map<string, string>, t: Type, tuple: seq<Parameter>)
    requires Total(tm)
    ensures MappedType(tm, mt, t, tuple).Success? <==> (NeededKey(t, tuple).None? || NeededKey(t, tuple).value in mt)
    ensures MappedType(tm, mt, t, tuple).Failure? ==> MappedType(tm, mt, t, tuple).error == NotFound(NeededKey(t, tuple).value)
    decreases t
  {
    match t
    case Simple(kind) =>
      if !kind.IsTuple() {
        assert tm.simple(kind).Success?;
      }
    case Array(element) =>
      MappedTypeSucceeds(tm, mt, element, []);
      var inner := MappedType(tm, mt, element, []);
      if inner.Success? {
        assert tm.arrayOf(inner.value).Success?;
      }
    case ArrayM(element, len) =>
      MappedTypeSucceeds(tm, mt, element, []);
      var inner := MappedType(tm, mt, element, []);
      if inner.Success? {
        assert tm.arrayMOf(inner.value, len).Success?;
      }
    case BytesM(len) => assert tm.bytesM(len).Success?;
    case FixedMN(s, m, n) => assert tm.fixedMN(s, m, n).Success?;
    case IntegerM(s, m) => assert tm.integerM(s, m).Success?;
  }

  /** Resolving a type only adds tuple entries, never replaces one, and keeps every entry
      under its own structural key. */
  lemma {:induction false} TypeRegistryGrows(m: map<string, seq<Parameter>>, t: Type, tuple: seq<Parameter>)
    ensures Extends(m, TypeRegistry(m, t, tuple))
    ensures WellFormed(m) ==> WellFormed(TypeRegistry(m, t, tuple))
    decreases t
  {
    match t
    case Simple(kind) =>
      if kind.IsTuple() {
        RegisteredExtends(m, tuple);
        if WellFormed(m) { RegisteredWellFormed(m, tuple); }
      }
    case Array(element) => TypeRegistryGrows(m, element, []);
    case ArrayM(element, _) => TypeRegistryGrows(m, element, []);
    case _ =>
  }

  /** With a table matching the tests' expected outputs, `uint<M>[N]` resolves to `[Int<false,M>;N]`. */
  lemma ShippedFixedArrayOfUint(mt: map<string, string>, bits: nat, len: nat, tuple: seq<Parameter>)
    ensures MappedType(AsTypeMapping(Shipped()), mt, ArrayM(IntegerM(false, bits), len), tuple)
         == Success("[Int<false," + Decimal(bits) + ">;" + Decimal(len) + "]")
  {
    ShippedUintElement(mt, bits);
    ShippedArrayMOfUint(bits, len);
    Regroup(Decimal(bits), Decimal(len));
  }

  lemma ShippedUintElement(mt: map<string, string>, bits: nat)
    ensures MappedType(AsTypeMapping(Shipped()), mt, IntegerM(false, bits), []) == Success("Int<false," + Decimal(bits) + ">")
  {
    ShippedIntegerM(bits);
  }

  lemma ShippedArrayMOfUint(bits: nat, len: nat)
    ensures AsTypeMapping(Shipped()).arrayMOf("Int<false," + Decimal(bits) + ">", len)
         == Success("[" + ("Int<false," + Decimal(bits) + ">") + ";" + Decimal(len) + "]")
  {
    DecimalHasNoDollar(bits);
    CharInWrapped("Int<false,", Decimal(bits), ">", '$');
    ShippedArrayM("Int<false," + Decimal(bits) + ">", len);
  }

  lemma Regroup(d: string, l: string)
    ensures "[" + ("Int<false," + d + ">") + ";" + l + "]" == "[Int<false," + d + ">;" + l + "]"
  {
    assert "[Int<false," == "[" + "Int<false,";
    assert ">;" == ">" + ";";
  }
}
