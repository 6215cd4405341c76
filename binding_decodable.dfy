/** The decodable expressions the Rust binding builds for event and error inputs: the
    mapped type, rewritten into turbofish form (`::` before its generic arguments), filled
    into the `rt_to_decodable` template together with the input's `indexed` flag. */
module BindingDecodable {
  import opened Wrappers
  import opened Abi
  import opened Strings
  import opened TypeMappings
  import opened RustTokens

  /** The rewrite loop: each regex match `m`, in order, has all of its occurrences in the
      current text replaced by `::m`. */
  function Turbofish(s: string, matches: seq<string>): string
  {
    if matches == [] then s
    else
      var m := matches[|matches| - 1];
      ReplaceAll(Turbofish(s, matches[..|matches| - 1]), m, "::" + m)
  }

  /** The loop of `to_decodable_token_stream` over the matches of `<.+>` in the type text. */
  method RewriteAngles(f: Foreign, s: string) returns (current: string)
    ensures current == Turbofish(s, f.angles(s))
  {
    var matches := f.angles(s);
    current := s;
    for i := 0 to |matches|
      invariant current == Turbofish(s, matches[..i])
    {
      assert matches[..i + 1][..i] == matches[..i];
      current := ReplaceAll(current, matches[i], "::" + matches[i]);
    }
    assert matches[..|matches|] == matches;
  }

  /** The text of a boolean, as `bool::to_string` gives it. */
  function BoolText(b: bool): string
  {
    if b then "true" else "false"
  }

  /** `to_decodable_token_stream`: the parsed mapped type, rewritten, and the `indexed`
      flag, filled into `rt_to_decodable`. */
  function Decodable(f: Foreign, m: SerdeTypeMapping, context: Parameter -> string, p: Parameter): Result<string, BindError>
  {
    match MappingParameter(f, context, p)
    case Failure(e) => Failure(e)
    case Success(t) =>
      TemplateStream(f, m, "rt_to_decodable", [("$type", Turbofish(t, f.angles(t))), ("$indexed", BoolText(p.indexed))])
  }

  method ToDecodable(f: Foreign, m: SerdeTypeMapping, context: Parameter -> string, p: Parameter)
    returns (r: Result<string, BindError>)
    ensures r == Decodable(f, m, context, p)
  {
    var mapped := MappingParameter(f, context, p);
    if mapped.Failure? {
      return Failure(mapped.error);
    }
    var current := RewriteAngles(f, mapped.value);
    r := TemplateStream(f, m, "rt_to_decodable", [("$type", current), ("$indexed", BoolText(p.indexed))]);
  }

  function Decodables(f: Foreign, m: SerdeTypeMapping, context: Parameter -> string, inputs: seq<Parameter>)
    : (rs: seq<Result<string, BindError>>)
    ensures |rs| == |inputs|
  {
    seq(|inputs|, i requires 0 <= i < |inputs| => Decodable(f, m, context, inputs[i]))
  }

  /** `to_decodable_token_streams`: one decodable per input, in order; the first failing
      input aborts the list. */
  method ToDecodables(f: Foreign, m: SerdeTypeMapping, context: Parameter -> string, inputs: seq<Parameter>)
    returns (r: Result<seq<string>, BindError>)
    ensures r == Collect(Decodables(f, m, context, inputs))
    ensures r.Success? ==> |r.value| == |inputs|
    ensures r.Success? ==> forall i :: 0 <= i < |inputs| ==> Decodable(f, m, context, inputs[i]) == Success(r.value[i])
  {
    var rs := Decodables(f, m, context, inputs);
    var streams := [];
    for i := 0 to |inputs|
      invariant Collect(rs[..i]) == Success(streams)
    {
      var d := ToDecodable(f, m, context, inputs[i]);
      CollectStep(rs, i, streams);
      if d.Failure? {
        return Failure(d.error);
      }
      streams := streams + [d.value];
    }
    assert rs[..|inputs|] == rs;
    CollectSucceeds(rs);
    assert forall i :: 0 <= i < |inputs| ==> rs[i] == Decodable(f, m, context, inputs[i]);
    return Success(streams);
  }

  // ---- What `<.+>` matches on one line ----

  /** The position of the first `c` in `s`. */
  function FirstIndex(s: string, c: char): (i: nat)
    requires c in s
    ensures i < |s| && s[i] == c && c !in s[..i]
  {
    if s[0] == c then 0 else 1 + FirstIndex(s[1..], c)
  }

  /** The position of the last `c` in `s`. */
  function LastIndex(s: string, c: char): (j: nat)
    requires c in s
    ensures j < |s| && s[j] == c && c !in s[j + 1..]
  {
    if s[|s| - 1] == c then |s| - 1 else LastIndex(s[..|s| - 1], c)
  }

  /** The matches of the greedy regex `<.+>` in a string without line breaks: `.+` takes as
      much as it can, so the only candidate starts at the first `<` and ends at the last
      `>`, and it matches when at least one character lies between them. */
  function GreedyAngles(s: string): seq<string>
  {
    if '<' in s && '>' in s && FirstIndex(s, '<') + 2 <= LastIndex(s, '>')
    then [s[FirstIndex(s, '<')..LastIndex(s, '>') + 1]]
    else []
  }

  /** On a single line, where the regex matches as `GreedyAngles` describes, the rewrite
      inserts `::` once, right before the first `<`, when `<…>` with something inside
      occurs; otherwise the type text passes through unchanged. */
  lemma TurbofishOnLine(f: Foreign, s: string)
    requires '\n' !in s && f.angles(s) == GreedyAngles(s)
    ensures GreedyAngles(s) != [] ==>
              Turbofish(s, f.angles(s)) == s[..FirstIndex(s, '<')] + "::" + s[FirstIndex(s, '<')..]
    ensures GreedyAngles(s) == [] ==> Turbofish(s, f.angles(s)) == s
    ensures '<' !in s ==> Turbofish(s, f.angles(s)) == s
  {
    if GreedyAngles(s) != [] {
      TurbofishGreedy(s);
    }
  }

  lemma TurbofishGreedy(s: string)
    requires GreedyAngles(s) != []
    ensures Turbofish(s, GreedyAngles(s)) == s[..FirstIndex(s, '<')] + "::" + s[FirstIndex(s, '<')..]
  {
    var i, j := FirstIndex(s, '<'), LastIndex(s, '>');
    assert GreedyAngles(s) == [s[i..j + 1]];
    TurbofishOne(s, s[i..j + 1]);
    SpliceAt(s, i, j);
  }

  /** The text from a first `<` at `i` to a last `>` at `j`, replaced by itself with `::`
      in front, gives `::` inserted at `i`. */
  lemma SpliceAt(s: string, i: nat, j: nat)
    requires i <= j < |s| && s[i] == '<' && '<' !in s[..i] && s[j] == '>' && '>' !in s[j + 1..]
    ensures ReplaceAll(s, s[i..j + 1], "::" + s[i..j + 1]) == s[..i] + "::" + s[i..]
  {
    MatchEnds(s, i, j);
    ThreeParts(s, i, j);
    InsertBeforeMatch(s, s[..i], s[i..j + 1], s[j + 1..]);
  }

  /** The match begins with the first `<` and ends with the last `>`. */
  lemma MatchEnds(s: string, i: nat, j: nat)
    requires i <= j < |s| && s[i] == '<' && '<' !in s[..i] && s[j] == '>' && '>' !in s[j + 1..]
    ensures s[i..j + 1] != [] && s[i..j + 1][0] !in s[..i]
    ensures s[i..j + 1][|s[i..j + 1]| - 1] !in s[j + 1..]
  {
    assert s[i..j + 1][0] == s[i] && s[i..j + 1][|s[i..j + 1]| - 1] == s[j];
  }

  lemma ThreeParts(s: string, i: nat, j: nat)
    requires i <= j < |s|
    ensures s == s[..i] + s[i..j + 1] + s[j + 1..]
    ensures s[i..] == s[i..j + 1] + s[j + 1..]
  {
  }

  lemma TurbofishOne(s: string, pat: string)
    ensures Turbofish(s, [pat]) == ReplaceAll(s, pat, "::" + pat)
  {
    assert [pat][..0] == [];
  }

  /** Replacing the match that runs from the first `<` to the last `>` by itself with `::`
      in front: nothing before it starts a match and nothing after it ends one. */
  lemma InsertBeforeMatch(s: string, pre: string, pat: string, post: string)
    requires s == pre + pat + post
    requires pat != [] && pat[0] !in pre && pat[|pat| - 1] !in post
    ensures ReplaceAll(s, pat, "::" + pat) == pre + "::" + (pat + post)
  {
    NoLastNoOccurrence(post, pat);
    ReplaceOnce(pre, pat, post, "::" + pat);
  }

  /** The outcome of a whole list: it succeeds exactly when every input does, with one
      decodable per input. */
  lemma DecodablesOutcome(f: Foreign, m: SerdeTypeMapping, context: Parameter -> string, inputs: seq<Parameter>)
    ensures Collect(Decodables(f, m, context, inputs)).Success? <==>
              forall i :: 0 <= i < |inputs| ==> Decodable(f, m, context, inputs[i]).Success?
    ensures Collect(Decodables(f, m, context, inputs)).Failure? ==>
              exists i :: 0 <= i < |inputs| && Decodable(f, m, context, inputs[i]).Failure? &&
                (forall j :: 0 <= j < i ==> Decodable(f, m, context, inputs[j]).Success?) &&
                Collect(Decodables(f, m, context, inputs)).error == Decodable(f, m, context, inputs[i]).error
  {
    var rs := Decodables(f, m, context, inputs);
    CollectSucceeds(rs);
    assert forall i :: 0 <= i < |inputs| ==> rs[i] == Decodable(f, m, context, inputs[i]);
    if Collect(rs).Failure? {
      var i := CollectFails(rs);
      assert forall j :: 0 <= j < i ==> rs[j].Success?;
    }
  }
}
