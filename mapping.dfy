/** The serde-backed type mapping: a table from template names to template strings whose
    `$` placeholders are filled in, left to right, with the arguments of each request. */
module TypeMappings {
  import opened Wrappers
  import opened Abi
  import opened Strings

  /** A mapping file: `tupleNames` is skipped by (de)serialisation, `typesMapping` holds
      the templates keyed by name. */
  datatype SerdeTypeMapping = SerdeTypeMapping(tupleNames: map<string, string>, typesMapping: map<string, string>)

  /** The mapping operations the executor resolves types through. A `Failure` is what the
      implementation aborts with (it unwraps mapping errors instead of returning them). */
  datatype TypeMapping = TypeMapping(
    simple: SimpleType -> Result<string, TypeMappingError>,
    bytesM: nat -> Result<string, TypeMappingError>,
    fixedMN: (bool, nat, nat) -> Result<string, TypeMappingError>,
    integerM: (bool, nat) -> Result<string, TypeMappingError>,
    arrayOf: string -> Result<string, TypeMappingError>,
    arrayMOf: (string, nat) -> Result<string, TypeMappingError>)

  /** The template after each `(placeholder, value)` pair, in order, has replaced all
      occurrences of its placeholder. */
  function Substitute(template: string, args: seq<(string, string)>): string
  {
    if args == [] then template
    else ReplaceAll(Substitute(template, args[..|args| - 1]), args[|args| - 1].0, args[|args| - 1].1)
  }

  function Placeholders(args: seq<(string, string)>): (names: seq<string>)
    ensures |names| == |args|
  {
    seq(|args|, i requires 0 <= i < |args| => args[i].0)
  }

  /** What `get_mapping(name, args)` yields. A name that is not in the table makes the
      implementation abort with `NotFound(name)`; a template that still holds a `$` after
      substitution is the error `Serde(text, placeholder names joined by spaces)`. */
  function Lookup(m: SerdeTypeMapping, name: string, args: seq<(string, string)>): (r: Result<string, TypeMappingError>)
    ensures r.Failure? && r.error.NotFound? <==> name !in m.typesMapping
    ensures r.Failure? && r.error.NotFound? ==> r.error.name == name
    ensures r.Failure? && r.error.Serde? ==> '$' in r.error.text
    ensures r.Success? ==> '$' !in r.value
  {
    if name !in m.typesMapping then Failure(NotFound(name))
    else
      var text := Substitute(m.typesMapping[name], args);
      if '$' in text then Failure(Serde(text, Join(" ", Placeholders(args)))) else Success(text)
  }

  /** `get_mapping`: look the template up and apply the placeholders one after another. */
  method GetMapping(m: SerdeTypeMapping, name: string, args: seq<(string, string)>) returns (r: Result<string, TypeMappingError>)
    requires name in m.typesMapping
    ensures r == Lookup(m, name, args)
    ensures r.Success? ==> '$' !in r.value && r.value == Substitute(m.typesMapping[name], args)
    ensures r.Failure? ==> r.error == Serde(Substitute(m.typesMapping[name], args), Join(" ", Placeholders(args)))
    ensures r.Failure? ==> '$' in r.error.text
  {
    var text := m.typesMapping[name];
    for i := 0 to |args|
      invariant text == Substitute(m.typesMapping[name], args[..i])
    {
      assert args[..i + 1][..i] == args[..i];
      text := ReplaceAll(text, args[i].0, args[i].1);
    }
    assert args[..|args|] == args;
    if '$' in text {
      var wildcards := Join(" ", Placeholders(args));
      return Failure(Serde(text, wildcards));
    }
    return Success(text);
  }

  /** Substitution is a left fold: applying `a1 ++ a2` is applying `a1`, then `a2`. */
  lemma {:induction false} SubstituteAppend(template: string, a1: seq<(string, string)>, a2: seq<(string, string)>)
    ensures Substitute(template, a1 + a2) == Substitute(Substitute(template, a1), a2)
    decreases |a2|
  {
    if a2 == [] {
      assert a1 + a2 == a1;
    } else {
      var init := a2[..|a2| - 1];
      assert (a1 + a2)[..|a1 + a2| - 1] == a1 + init;
      assert (a1 + a2)[|a1 + a2| - 1] == a2[|a2| - 1];
      SubstituteAppend(template, a1, init);
    }
  }

  /** The order of the placeholders matters: with overlapping names, the earlier one wins. */
  lemma PlaceholderOrderMatters()
    ensures Substitute("$mm", [("$m", "1"), ("$mm", "2")]) == "1m"
    ensures Substitute("$mm", [("$mm", "2"), ("$m", "1")]) == "2"
  {
    var a1 := [("$m", "1"), ("$mm", "2")];
    var a2 := [("$mm", "2"), ("$m", "1")];
    assert a1[..1] == [("$m", "1")] && a1[..1][..0] == [];
    assert a2[..1] == [("$mm", "2")] && a2[..1][..0] == [];
    ReplaceOnce("", "$m", "m", "1");
    assert "" + "$m" + "m" == "$mm" && "" + "1" + "m" == "1m";
    NoHeadNoOccurrence("1m", "$mm");
    ReplaceAllAbsent("1m", "$mm", "2");
    ReplaceOnce("", "$mm", "", "2");
    assert "" + "$mm" + "" == "$mm" && "" + "2" + "" == "2";
    NoHeadNoOccurrence("2", "$m");
    ReplaceAllAbsent("2", "$m", "1");
  }

  // ---- The TypeMapping implementation: template selection ----

  /** `array(element)`: template `array` with `$element`. */
  function ArrayOf(m: SerdeTypeMapping, element: string): (r: Result<string, TypeMappingError>)
    ensures r == Failure(NotFound("array")) <==> "array" !in m.typesMapping
    ensures r.Success? ==> '$' !in r.value
  {
    Lookup(m, "array", [("$element", element)])
  }

  /** `array_m(element, m)`: template `array_m` with `$element` and `$m`. */
  function ArrayMOf(m: SerdeTypeMapping, element: string, len: nat): (r: Result<string, TypeMappingError>)
    ensures r == Failure(NotFound("array_m")) <==> "array_m" !in m.typesMapping
    ensures r.Success? ==> '$' !in r.value
  {
    Lookup(m, "array_m", [("$element", element), ("$m", Decimal(len))])
  }

  /** `bytes_m(m)`: template `bytes_m` with `$m`. */
  function BytesMOf(m: SerdeTypeMapping, len: nat): (r: Result<string, TypeMappingError>)
    ensures r == Failure(NotFound("bytes_m")) <==> "bytes_m" !in m.typesMapping
    ensures r.Success? ==> '$' !in r.value
  {
    Lookup(m, "bytes_m", [("$m", Decimal(len))])
  }

  /** `fixed_m_n`: template `fixed_m_n` when signed, `ufixed_m_n` otherwise, with `$m`, `$n`. */
  function FixedMNOf(m: SerdeTypeMapping, signed: bool, bits: nat, decimals: nat): (r: Result<string, TypeMappingError>)
    ensures r == Failure(NotFound((if signed then "fixed_m_n" else "ufixed_m_n"))) <==> (if signed then "fixed_m_n" else "ufixed_m_n") !in m.typesMapping
    ensures r.Success? ==> '$' !in r.value
  {
    Lookup(m, if signed then "fixed_m_n" else "ufixed_m_n", [("$m", Decimal(bits)), ("$n", Decimal(decimals))])
  }

  /** `integer_m`: template `int_m` when signed, `uint_m` otherwise, with `$m`. */
  function IntegerMOf(m: SerdeTypeMapping, signed: bool, bits: nat): (r: Result<string, TypeMappingError>)
    ensures r == Failure(NotFound((if signed then "int_m" else "uint_m"))) <==> (if signed then "int_m" else "uint_m") !in m.typesMapping
    ensures r.Success? ==> '$' !in r.value
  {
    Lookup(m, if signed then "int_m" else "uint_m", [("$m", Decimal(bits))])
  }

  /** `simple(t)`: the template named by the type's display name, with no arguments. */
  function SimpleOf(m: SerdeTypeMapping, t: SimpleType): (r: Result<string, TypeMappingError>)
    ensures r == Failure(NotFound(t.DisplayName())) <==> t.DisplayName() !in m.typesMapping
    ensures r.Success? ==> '$' !in r.value
  {
    Lookup(m, t.DisplayName(), [])
  }

  /** The serde mapping seen through the operations the executor calls. Whatever it
      resolves is free of placeholders. */
  function AsTypeMapping(m: SerdeTypeMapping): (tm: TypeMapping)
    ensures forall k :: tm.simple(k).Success? ==> '$' !in tm.simple(k).value
    ensures forall n :: tm.bytesM(n).Success? ==> '$' !in tm.bytesM(n).value
    ensures forall s, b, d :: tm.fixedMN(s, b, d).Success? ==> '$' !in tm.fixedMN(s, b, d).value
    ensures forall s, b :: tm.integerM(s, b).Success? ==> '$' !in tm.integerM(s, b).value
    ensures forall e :: tm.arrayOf(e).Success? ==> '$' !in tm.arrayOf(e).value
    ensures forall e, n :: tm.arrayMOf(e, n).Success? ==> '$' !in tm.arrayMOf(e, n).value
  {
    TypeMapping(
      t => SimpleOf(m, t),
      (len: nat) => BytesMOf(m, len),
      (signed: bool, bits: nat, decimals: nat) => FixedMNOf(m, signed, bits, decimals),
      (signed: bool, bits: nat) => IntegerMOf(m, signed, bits),
      element => ArrayOf(m, element),
      (element: string, len: nat) => ArrayMOf(m, element, len))
  }

  /** Two tables agree on a template name: both lack it, or both hold the same text. */
  predicate SameTemplate(m1: SerdeTypeMapping, m2: SerdeTypeMapping, name: string)
  {
    && (name in m1.typesMapping <==> name in m2.typesMapping)
    && (name in m1.typesMapping ==> m1.typesMapping[name] == m2.typesMapping[name])
  }

  /** `get_mapping` reads nothing of the table but the one template it names. */
  lemma LookupReadsOneTemplate(m1: SerdeTypeMapping, m2: SerdeTypeMapping, name: string, args: seq<(string, string)>)
    requires SameTemplate(m1, m2, name)
    ensures Lookup(m1, name, args) == Lookup(m2, name, args)
  {
  }

  /** Every request depends on the table only through its own template: two tables that
      agree on that template give the same result. The signed and unsigned integer and
      fixed-point requests each read the template chosen by the sign. */
  lemma RequestsReadOwnTemplate(m1: SerdeTypeMapping, m2: SerdeTypeMapping, element: string, len: nat,
                                signed: bool, bits: nat, decimals: nat, t: SimpleType)
    ensures SameTemplate(m1, m2, "array") ==> ArrayOf(m1, element) == ArrayOf(m2, element)
    ensures SameTemplate(m1, m2, "array_m") ==> ArrayMOf(m1, element, len) == ArrayMOf(m2, element, len)
    ensures SameTemplate(m1, m2, "bytes_m") ==> BytesMOf(m1, len) == BytesMOf(m2, len)
    ensures SameTemplate(m1, m2, if signed then "fixed_m_n" else "ufixed_m_n") ==>
              FixedMNOf(m1, signed, bits, decimals) == FixedMNOf(m2, signed, bits, decimals)
    ensures SameTemplate(m1, m2, if signed then "int_m" else "uint_m") ==>
              IntegerMOf(m1, signed, bits) == IntegerMOf(m2, signed, bits)
    ensures SameTemplate(m1, m2, t.DisplayName()) ==> SimpleOf(m1, t) == SimpleOf(m2, t)
  {
    if SameTemplate(m1, m2, "array") {
      LookupReadsOneTemplate(m1, m2, "array", [("$element", element)]);
    }
    if SameTemplate(m1, m2, "array_m") {
      LookupReadsOneTemplate(m1, m2, "array_m", [("$element", element), ("$m", Decimal(len))]);
    }
    if SameTemplate(m1, m2, "bytes_m") {
      LookupReadsOneTemplate(m1, m2, "bytes_m", [("$m", Decimal(len))]);
    }
    var fixed := if signed then "fixed_m_n" else "ufixed_m_n";
    if SameTemplate(m1, m2, fixed) {
      LookupReadsOneTemplate(m1, m2, fixed, [("$m", Decimal(bits)), ("$n", Decimal(decimals))]);
    }
    var integer := if signed then "int_m" else "uint_m";
    if SameTemplate(m1, m2, integer) {
      LookupReadsOneTemplate(m1, m2, integer, [("$m", Decimal(bits))]);
    }
    if SameTemplate(m1, m2, t.DisplayName()) {
      LookupReadsOneTemplate(m1, m2, t.DisplayName(), []);
    }
  }

  // ---- A table matching the tests' expected outputs ----

  /** Templates rebuilt from the outputs the mapping tests expect (`Vec<uint256>`,
      `[uint256;64]`, `[u8;32]`, `Fixed<true,256,30>`, `Int<false,128>`,
      `ethers_rs::Address`, src/gen/mapping.rs:112-152). The mapping file itself is not
      part of this model. */
  function Shipped(): SerdeTypeMapping
  {
    SerdeTypeMapping(map[], map[
      "array" := "Vec<$element>",
      "array_m" := "[$element;$m]",
      "bytes_m" := "[u8;$m]",
      "fixed_m_n" := "Fixed<true,$m,$n>",
      "ufixed_m_n" := "Fixed<false,$m,$n>",
      "int_m" := "Int<true,$m>",
      "uint_m" := "Int<false,$m>",
      "address" := "ethers_rs::Address"])
  }

  lemma DecimalHasNoDollar(n: nat)
    ensures '$' !in Decimal(n)
  {
  }

  /** A character absent from the surrounding text is in the whole exactly when it is in
      the middle part. */
  lemma CharInWrapped(pre: string, x: string, post: string, c: char)
    requires c !in pre && c !in post
    ensures c in pre + x + post <==> c in x
  {
    assert pre + x + post == pre + (x + post);
  }

  /** Lookups are decided by the substituted text alone. */
  lemma LookupOf(m: SerdeTypeMapping, name: string, args: seq<(string, string)>, text: string)
    requires name in m.typesMapping && Substitute(m.typesMapping[name], args) == text
    ensures Lookup(m, name, args) == if '$' in text then Failure(Serde(text, Join(" ", Placeholders(args)))) else Success(text)
  {
  }

  lemma SubstituteOne(template: string, p: string, v: string)
    ensures Substitute(template, [(p, v)]) == ReplaceAll(template, p, v)
  {
    assert [(p, v)][..0] == [];
  }

  lemma SubstituteTwo(template: string, p1: string, v1: string, p2: string, v2: string)
    ensures Substitute(template, [(p1, v1), (p2, v2)]) == ReplaceAll(ReplaceAll(template, p1, v1), p2, v2)
  {
    var args := [(p1, v1), (p2, v2)];
    assert args[..1] == [(p1, v1)];
    SubstituteOne(template, p1, v1);
  }

  lemma ArrayText(element: string)
    ensures Substitute("Vec<$element>", [("$element", element)]) == "Vec<" + element + ">"
  {
    SubstituteOne("Vec<$element>", "$element", element);
    NoHeadNoOccurrence(">", "$element");
    ReplaceOnce("Vec<", "$element", ">", element);
    assert "Vec<" + "$element" + ">" == "Vec<$element>";
  }

  /** `array` wraps any element in `Vec<…>`; it fails exactly when the element holds a `$`. */
  lemma ShippedArray(element: string)
    ensures '$' !in element ==> ArrayOf(Shipped(), element) == Success("Vec<" + element + ">")
    ensures '$' in element ==> ArrayOf(Shipped(), element) == Failure(Serde("Vec<" + element + ">", "$element"))
  {
    var args := [("$element", element)];
    ArrayText(element);
    LookupOf(Shipped(), "array", args, "Vec<" + element + ">");
    CharInWrapped("Vec<", element, ">", '$');
    assert Join(" ", Placeholders(args)) == "$element";
  }

  /** Substituting a placeholder that occurs once, with no `$` around it. */
  lemma OnePlaceholder(pre: string, p: string, post: string, v: string)
    requires p != [] && p[0] == '$' && '$' !in pre && '$' !in post
    ensures Substitute(pre + p + post, [(p, v)]) == pre + v + post
  {
    SubstituteOne(pre + p + post, p, v);
    NoHeadNoOccurrence(post, p);
    ReplaceOnce(pre, p, post, v);
  }

  lemma ArrayMText(element: string, d: string)
    requires '$' !in element
    ensures Substitute("[$element;$m]", [("$element", element), ("$m", d)]) == "[" + element + ";" + d + "]"
  {
    SubstituteTwo("[$element;$m]", "$element", element, "$m", d);
    ShortNoOccurrence(";$m]", "$element");
    ReplaceOnce("[", "$element", ";$m]", element);
    assert "[" + "$element" + ";$m]" == "[$element;$m]";
    assert "[" + element + ";$m]" == ("[" + element + ";") + "$m" + "]";
    NoHeadNoOccurrence("]", "$m");
    ReplaceOnce("[" + element + ";", "$m", "]", d);
  }

  /** `array_m` gives `[element;m]` for an element without placeholders. */
  lemma ShippedArrayM(element: string, len: nat)
    requires '$' !in element
    ensures ArrayMOf(Shipped(), element, len) == Success("[" + element + ";" + Decimal(len) + "]")
  {
    var d := Decimal(len);
    ArrayMText(element, d);
    LookupOf(Shipped(), "array_m", [("$element", element), ("$m", d)], "[" + element + ";" + d + "]");
    DecimalHasNoDollar(len);
    CharInWrapped("[", element, ";", '$');
    CharInWrapped("[" + element + ";", d, "]", '$');
  }

  lemma CapturedText(d: string)
    ensures Substitute("[$element;$m]", [("$element", "$m"), ("$m", d)]) == "[" + d + ";" + d + "]"
  {
    SubstituteTwo("[$element;$m]", "$element", "$m", "$m", d);
    ElementIntoM();
    MIntoDigits(d);
  }

  /** The first substitution turns `$element` into `$m`. */
  lemma ElementIntoM()
    ensures ReplaceAll("[$element;$m]", "$element", "$m") == "[" + "$m" + ";$m]"
  {
    ShortNoOccurrence(";$m]", "$element");
    ReplaceOnce("[", "$element", ";$m]", "$m");
    assert "[" + "$element" + ";$m]" == "[$element;$m]";
  }

  /** The second substitution then replaces both occurrences of `$m`. */
  lemma MIntoDigits(d: string)
    ensures ReplaceAll("[" + "$m" + ";$m]", "$m", d) == "[" + d + ";" + d + "]"
  {
    assert "[" + "$m" + ";$m]" == "[" + ("$m" + ";$m]");
    ReplaceAllSkip("[", "$m" + ";$m]", "$m", d);
    ReplaceAllFront(";$m]", "$m", d);
    NoHeadNoOccurrence("]", "$m");
    ReplaceOnce(";", "$m", "]", d);
    assert ";" + "$m" + "]" == ";$m]";
    assert "[" + (d + (";" + d + "]")) == "[" + d + ";" + d + "]";
  }

  /** The placeholder check runs only after every substitution, so a later placeholder
      inside an earlier value is substituted too: `array_m("$m", len)` is `[len;len]`. */
  lemma ShippedArrayMCapturesPlaceholder(len: nat)
    ensures ArrayMOf(Shipped(), "$m", len) == Success("[" + Decimal(len) + ";" + Decimal(len) + "]")
  {
    var d := Decimal(len);
    DecimalHasNoDollar(len);
    CapturedText(d);
    LookupOf(Shipped(), "array_m", [("$element", "$m"), ("$m", d)], "[" + d + ";" + d + "]");
    CharInWrapped("[", d, ";", '$');
    CharInWrapped("[" + d + ";", d, "]", '$');
  }

  /** `bytes_m` gives `[u8;m]`. */
  lemma ShippedBytesM(len: nat)
    ensures BytesMOf(Shipped(), len) == Success("[u8;" + Decimal(len) + "]")
  {
    var d := Decimal(len);
    OnePlaceholder("[u8;", "$m", "]", d);
    assert "[u8;" + "$m" + "]" == "[u8;$m]";
    LookupOf(Shipped(), "bytes_m", [("$m", d)], "[u8;" + d + "]");
    DecimalHasNoDollar(len);
    CharInWrapped("[u8;", d, "]", '$');
  }

  lemma IntText(signed: bool, d: string)
    ensures signed ==> Substitute(Shipped().typesMapping["int_m"], [("$m", d)]) == "Int<true," + d + ">"
    ensures !signed ==> Substitute(Shipped().typesMapping["uint_m"], [("$m", d)]) == "Int<false," + d + ">"
  {
    if signed {
      OnePlaceholder("Int<true,", "$m", ">", d);
      assert "Int<true," + "$m" + ">" == "Int<true,$m>";
    } else {
      OnePlaceholder("Int<false,", "$m", ">", d);
      assert "Int<false," + "$m" + ">" == "Int<false,$m>";
    }
  }

  /** `integer_m` gives `Int<true,m>` for signed and `Int<false,m>` for unsigned widths. */
  lemma ShippedIntegerM(bits: nat)
    ensures IntegerMOf(Shipped(), true, bits) == Success("Int<true," + Decimal(bits) + ">")
    ensures IntegerMOf(Shipped(), false, bits) == Success("Int<false," + Decimal(bits) + ">")
  {
    var d := Decimal(bits);
    IntText(true, d);
    IntText(false, d);
    DecimalHasNoDollar(bits);
    CharInWrapped("Int<true,", d, ">", '$');
    CharInWrapped("Int<false,", d, ">", '$');
    LookupOf(Shipped(), "int_m", [("$m", d)], "Int<true," + d + ">");
    LookupOf(Shipped(), "uint_m", [("$m", d)], "Int<false," + d + ">");
  }

  lemma FixedText(signed: bool, dm: string, dn: string)
    requires '$' !in dm
    ensures signed ==>
      Substitute(Shipped().typesMapping["fixed_m_n"], [("$m", dm), ("$n", dn)]) == "Fixed<true," + dm + "," + dn + ">"
    ensures !signed ==>
      Substitute(Shipped().typesMapping["ufixed_m_n"], [("$m", dm), ("$n", dn)]) == "Fixed<false," + dm + "," + dn + ">"
  {
    if signed {
      FixedTwo("Fixed<true,", dm, dn);
      assert "Fixed<true," + "$m" + "," + "$n" + ">" == "Fixed<true,$m,$n>";
    } else {
      FixedTwo("Fixed<false,", dm, dn);
      assert "Fixed<false," + "$m" + "," + "$n" + ">" == "Fixed<false,$m,$n>";
    }
  }

  lemma FixedTwo(pre: string, dm: string, dn: string)
    requires '$' !in pre && '$' !in dm
    ensures Substitute(pre + "$m" + "," + "$n" + ">", [("$m", dm), ("$n", dn)]) == pre + dm + "," + dn + ">"
  {
    SubstituteTwo(pre + "$m" + "," + "$n" + ">", "$m", dm, "$n", dn);
    DollarMOnlyOnce();
    assert "," + "$n" + ">" == ",$n>";
    assert pre + "$m" + "," + "$n" + ">" == pre + "$m" + ",$n>";
    ReplaceOnce(pre, "$m", ",$n>", dm);
    assert pre + dm + ",$n>" == (pre + dm + ",") + "$n" + ">";
    NoHeadNoOccurrence(">", "$n");
    ReplaceOnce(pre + dm + ",", "$n", ">", dn);
  }

  lemma DollarMOnlyOnce()
    ensures !Occurs(",$n>", "$m")
  {
    var s := ",$n>";
    forall i: nat ensures !OccursAt(s, "$m", i) {
      if i + 2 <= |s| {
        assert s[i..i + 2] == [s[i], s[i + 1]];
      }
    }
  }

  /** `fixed_m_n` gives `Fixed<true,m,n>` for signed and `Fixed<false,m,n>` for unsigned types. */
  lemma ShippedFixedMN(bits: nat, decimals: nat)
    ensures FixedMNOf(Shipped(), true, bits, decimals) == Success("Fixed<true," + Decimal(bits) + "," + Decimal(decimals) + ">")
    ensures FixedMNOf(Shipped(), false, bits, decimals) == Success("Fixed<false," + Decimal(bits) + "," + Decimal(decimals) + ">")
  {
    var dm, dn := Decimal(bits), Decimal(decimals);
    DecimalHasNoDollar(bits);
    DecimalHasNoDollar(decimals);
    FixedText(true, dm, dn);
    FixedText(false, dm, dn);
    CharInWrapped("Fixed<true,", dm, ",", '$');
    CharInWrapped("Fixed<true," + dm + ",", dn, ">", '$');
    CharInWrapped("Fixed<false,", dm, ",", '$');
    CharInWrapped("Fixed<false," + dm + ",", dn, ">", '$');
    LookupOf(Shipped(), "fixed_m_n", [("$m", dm), ("$n", dn)], "Fixed<true," + dm + "," + dn + ">");
    LookupOf(Shipped(), "ufixed_m_n", [("$m", dm), ("$n", dn)], "Fixed<false," + dm + "," + dn + ">");
  }

  /** `simple(Address)` resolves the `address` template. */
  lemma ShippedAddress()
    ensures SimpleOf(Shipped(), Address) == Success("ethers_rs::Address")
  {
  }
}
