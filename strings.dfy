/** String helpers with the semantics of the Rust standard library calls the source makes. */
module Strings {

  /** `parts.join(sep)` */
  function Join(sep: string, parts: seq<string>): (r: string)
    ensures parts == [] ==> r == ""
    ensures |parts| == 1 ==> r == parts[0]
  {
    if parts == [] then ""
    else if |parts| == 1 then parts[0]
    else parts[0] + sep + Join(sep, parts[1..])
  }

  /** A joined string starts with the first part. */
  lemma JoinCoversFirst(sep: string, parts: seq<string>)
    requires parts != []
    ensures |Join(sep, parts)| >= |parts[0]|
    ensures Join(sep, parts)[..|parts[0]|] == parts[0]
  {
  }

  /** The text `quote!(#(#parts <sep>)*)` produces: every part followed by the separator. */
  function Terminated(parts: seq<string>, sep: string): string
  {
    if parts == [] then "" else Terminated(parts[..|parts| - 1], sep) + parts[|parts| - 1] + sep
  }

  /** `n.to_string()` for an unsigned integer: its decimal digits, most significant first. */
  function Decimal(n: nat): (r: string)
    ensures |r| > 0
    ensures forall i :: 0 <= i < |r| ==> '0' <= r[i] <= '9'
  {
    if n < 10 then [DigitChar(n)] else Decimal(n / 10) + [DigitChar(n % 10)]
  }

  function DigitChar(d: nat): (c: char)
    requires d < 10
    ensures '0' <= c <= '9'
  {
    ['0', '1', '2', '3', '4', '5', '6', '7', '8', '9'][d]
  }

  /** True iff `pat` occurs in `s` at index `i`. */
  predicate OccursAt(s: string, pat: string, i: nat)
  {
    i + |pat| <= |s| && s[i..i + |pat|] == pat
  }

  ghost predicate Occurs(s: string, pat: string)
  {
    exists i: nat :: OccursAt(s, pat, i)
  }

  /** `s.replace(pat, val)`: every non-overlapping occurrence of `pat`, scanning left to
      right, is replaced by `val`. An empty pattern matches at every character boundary. */
  function ReplaceAll(s: string, pat: string, val: string): string
    decreases |s|
  {
    if pat == [] then
      if s == [] then val else val + [s[0]] + ReplaceAll(s[1..], pat, val)
    else if |s| < |pat| then s
    else if s[..|pat|] == pat then val + ReplaceAll(s[|pat|..], pat, val)
    else [s[0]] + ReplaceAll(s[1..], pat, val)
  }

  /** Every character of a replacement result comes from the subject or from the value. */
  lemma {:induction false} ReplaceAllChars(s: string, pat: string, val: string, c: char)
    requires c !in s && c !in val
    ensures c !in ReplaceAll(s, pat, val)
    decreases |s|
  {
    if pat == [] {
      if s != [] { ReplaceAllChars(s[1..], pat, val, c); }
    } else if |s| < |pat| {
    } else if s[..|pat|] == pat {
      ReplaceAllChars(s[|pat|..], pat, val, c);
    } else {
      ReplaceAllChars(s[1..], pat, val, c);
    }
  }

  /** A subject that does not contain the (non-empty) pattern is returned unchanged. */
  lemma {:induction false} ReplaceAllAbsent(s: string, pat: string, val: string)
    requires pat != [] && !Occurs(s, pat)
    ensures ReplaceAll(s, pat, val) == s
    decreases |s|
  {
    if |s| >= |pat| {
      assert !OccursAt(s, pat, 0);
      assert s[..|pat|] != pat;
      forall i: nat ensures !OccursAt(s[1..], pat, i) {
        assert !OccursAt(s, pat, i + 1);
        if i + |pat| <= |s[1..]| {
          assert s[1..][i..i + |pat|] == s[i + 1..i + 1 + |pat|];
        }
      }
      ReplaceAllAbsent(s[1..], pat, val);
    }
  }

  /** A piece that does not contain the pattern's first character passes through unchanged,
      and the scan resumes right after it. */
  lemma {:induction false} ReplaceAllSkip(piece: string, rest: string, pat: string, val: string)
    requires pat != [] && pat[0] !in piece
    ensures ReplaceAll(piece + rest, pat, val) == piece + ReplaceAll(rest, pat, val)
    decreases |piece|
  {
    if piece != [] {
      var s := piece + rest;
      assert s[1..] == piece[1..] + rest;
      ReplaceAllSkip(piece[1..], rest, pat, val);
      assert piece == [piece[0]] + piece[1..];
      if |s| < |pat| {
        assert |rest| < |pat|;
        assert ReplaceAll(s, pat, val) == s;
        assert ReplaceAll(rest, pat, val) == rest;
        assert ReplaceAll(piece + rest, pat, val) == piece + ReplaceAll(rest, pat, val);
      } else {
        assert s[..|pat|] != pat by {
          assert s[..|pat|][0] == piece[0];
        }
        assert ReplaceAll(s, pat, val) == [s[0]] + ReplaceAll(s[1..], pat, val);
        assert s[0] == piece[0];
        assert ReplaceAll(piece + rest, pat, val) == piece + ReplaceAll(rest, pat, val);
      }
    } else {
      assert piece + rest == rest;
    }
  }

  /** An occurrence of the pattern at the front is replaced and the scan resumes after it. */
  lemma ReplaceAllFront(rest: string, pat: string, val: string)
    requires pat != []
    ensures ReplaceAll(pat + rest, pat, val) == val + ReplaceAll(rest, pat, val)
  {
    var s := pat + rest;
    assert s[..|pat|] == pat;
    assert s[|pat|..] == rest;
  }

  /** Replacing a pattern inside a string made of pattern-free pieces joined by the pattern
      replaces exactly the joints: `pieces.join(pat).replace(pat, val) == pieces.join(val)`,
      provided the pattern's first character occurs in no piece. */
  lemma {:induction false} ReplaceJoined(pieces: seq<string>, pat: string, val: string)
    requires pat != []
    requires forall i :: 0 <= i < |pieces| ==> pat[0] !in pieces[i]
    ensures ReplaceAll(Join(pat, pieces), pat, val) == Join(val, pieces)
    decreases |pieces|
  {
    if |pieces| == 1 {
      ReplaceAllSkip(pieces[0], "", pat, val);
      assert pieces[0] + "" == pieces[0];
    } else if |pieces| > 1 {
      var tail := Join(pat, pieces[1..]);
      assert Join(pat, pieces) == pieces[0] + (pat + tail);
      ReplaceAllSkip(pieces[0], pat + tail, pat, val);
      ReplaceAllFront(tail, pat, val);
      ReplaceJoined(pieces[1..], pat, val);
    }
  }

  /** A pattern whose first character a string lacks does not occur in it. */
  lemma NoHeadNoOccurrence(s: string, pat: string)
    requires pat != [] && pat[0] !in s
    ensures !Occurs(s, pat)
  {
    forall i: nat ensures !OccursAt(s, pat, i) {
      if i + |pat| <= |s| {
        assert s[i..i + |pat|][0] == s[i];
      }
    }
  }

  /** A pattern whose last character a string lacks does not occur in it. */
  lemma NoLastNoOccurrence(s: string, pat: string)
    requires pat != [] && pat[|pat| - 1] !in s
    ensures !Occurs(s, pat)
  {
    forall i: nat ensures !OccursAt(s, pat, i) {
      if i + |pat| <= |s| {
        assert s[i..i + |pat|][|pat| - 1] == s[i + |pat| - 1];
      }
    }
  }

  /** A pattern longer than a string does not occur in it. */
  lemma ShortNoOccurrence(s: string, pat: string)
    requires |s| < |pat|
    ensures !Occurs(s, pat)
  {
  }

  /** Replacing in a string that holds the pattern once, after a prefix that lacks the
      pattern's first character: only that occurrence changes. */
  lemma ReplaceOnce(pre: string, pat: string, post: string, val: string)
    requires pat != [] && pat[0] !in pre && !Occurs(post, pat)
    ensures ReplaceAll(pre + pat + post, pat, val) == pre + val + post
  {
    assert pre + pat + post == pre + (pat + post);
    ReplaceAllSkip(pre, pat + post, pat, val);
    ReplaceAllFront(post, pat, val);
    ReplaceAllAbsent(post, pat, val);
  }

  lemma TerminatedSnoc(parts: seq<string>, x: string, sep: string)
    ensures Terminated(parts + [x], sep) == Terminated(parts, sep) + x + sep
  {
    assert (parts + [x])[..|parts|] == parts;
  }

  /** The string with every character `c` removed (`s.replace(c, "")`). */
  function Remove(s: string, c: char): (r: string)
    ensures c !in r
    ensures |r| <= |s|
  {
    if s == [] then [] else (if s[0] == c then [] else [s[0]]) + Remove(s[1..], c)
  }

  /** Removing a single character is the same as replacing it by the empty string. */
  lemma {:induction false} RemoveIsReplace(s: string, c: char)
    ensures Remove(s, c) == ReplaceAll(s, [c], "")
    decreases |s|
  {
    if s != [] {
      RemoveIsReplace(s[1..], c);
      assert s[..1] == [s[0]];
    }
  }
}
