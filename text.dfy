/** The string operations the monitor applies: Java's `String.contains`,
    `String.trim` and `String.replace("\n", " ")`, and Hutool's
    `StrUtil.format` with `{}` placeholders. */
module Text {

  /** `needle` occurs in `hay` starting at index `i`. */
  ghost predicate OccursAt(hay: string, needle: string, i: int)
  {
    0 <= i && i + |needle| <= |hay| && hay[i..i + |needle|] == needle
  }

  /** `hay.contains(needle)`: scans `hay` from the left for an occurrence. */
  function Contains(hay: string, needle: string): (r: bool)
    ensures r <==> exists i :: OccursAt(hay, needle, i)
    decreases |hay|
  {
    if |needle| > |hay| then
      assert forall i :: !OccursAt(hay, needle, i);
      false
    else if hay[..|needle|] == needle then
      assert OccursAt(hay, needle, 0);
      true
    else
      var r := Contains(hay[1..], needle);
      assert forall i :: OccursAt(hay[1..], needle, i) <==> OccursAt(hay, needle, i + 1) by {
        forall i ensures OccursAt(hay[1..], needle, i) <==> OccursAt(hay, needle, i + 1) {
          if 0 <= i && i + |needle| <= |hay[1..]| {
            assert hay[1..][i..i + |needle|] == hay[i + 1..i + 1 + |needle|];
          }
        }
      }
      assert forall i :: OccursAt(hay, needle, i) ==> i > 0;
      assert r ==> exists i :: OccursAt(hay, needle, i) by {
        if r {
          var j :| OccursAt(hay[1..], needle, j);
          assert OccursAt(hay, needle, j + 1);
        }
      }
      assert (exists i :: OccursAt(hay, needle, i)) ==> r by {
        if exists i :: OccursAt(hay, needle, i) {
          var j :| OccursAt(hay, needle, j);
          assert OccursAt(hay[1..], needle, j - 1);
        }
      }
      r
  }

  /** A text without the first character of `needle` does not contain it. */
  lemma ContainsNeedsFirstChar(hay: string, needle: string)
    requires needle != [] && needle[0] !in hay
    ensures !Contains(hay, needle)
  {
  }

  /** The characters `String.trim` strips: every code point up to U+0020. */
  predicate IsTrimmable(c: char)
  {
    c <= ' '
  }

  /** The index of the first character of `s` at or after `i` that is not
      trimmable, or `|s|` when there is none. */
  function SkipStart(s: string, i: nat): (st: nat)
    requires i <= |s|
    ensures i <= st <= |s|
    decreases |s| - i
  {
    if i < |s| && IsTrimmable(s[i]) then SkipStart(s, i + 1) else i
  }

  /** The end of `s[st..len]` once its trailing trimmable characters are
      dropped. */
  function SkipEnd(s: string, st: nat, len: nat): (end: nat)
    requires st <= len <= |s|
    ensures st <= end <= len
  {
    if st < len && IsTrimmable(s[len - 1]) then SkipEnd(s, st, len - 1) else len
  }

  /** `s.trim()`: the start index moves past the leading trimmable
      characters, the end index back over the trailing ones, and the
      characters between them are kept. */
  function Trim(s: string): string
  {
    var st := SkipStart(s, 0);
    s[st..SkipEnd(s, st, |s|)]
  }

  /** `r` is the slice of `s` at `i`, and everything around it is trimmable. */
  ghost predicate TrimmedAt(s: string, r: string, i: int)
  {
    && 0 <= i && i + |r| <= |s| && r == s[i..i + |r|]
    && (forall k :: 0 <= k < i ==> IsTrimmable(s[k]))
    && (forall k :: i + |r| <= k < |s| ==> IsTrimmable(s[k]))
  }

  /** Everything `SkipStart` passes over is trimmable, and it stops at a
      kept character. */
  lemma {:induction false} SkipStartSkipsTrimmable(s: string, i: nat)
    requires i <= |s|
    ensures forall k :: i <= k < SkipStart(s, i) ==> IsTrimmable(s[k])
    ensures SkipStart(s, i) < |s| ==> !IsTrimmable(s[SkipStart(s, i)])
    decreases |s| - i
  {
    if i < |s| && IsTrimmable(s[i]) {
      SkipStartSkipsTrimmable(s, i + 1);
    }
  }

  lemma {:induction false} SkipEndSkipsTrimmable(s: string, st: nat, len: nat)
    requires st <= len <= |s|
    ensures forall k :: SkipEnd(s, st, len) <= k < len ==> IsTrimmable(s[k])
    ensures st < SkipEnd(s, st, len) ==> !IsTrimmable(s[SkipEnd(s, st, len) - 1])
  {
    if st < len && IsTrimmable(s[len - 1]) {
      SkipEndSkipsTrimmable(s, st, len - 1);
    }
  }

  /** The trimmed form is a slice of `s` with only trimmable characters
      around it, and it neither starts nor ends with one. */
  lemma TrimSlice(s: string)
    ensures exists i :: TrimmedAt(s, Trim(s), i)
    ensures var r := Trim(s); r != [] ==> !IsTrimmable(r[0]) && !IsTrimmable(r[|r| - 1])
  {
    var st := SkipStart(s, 0);
    var end := SkipEnd(s, st, |s|);
    SkipStartSkipsTrimmable(s, 0);
    SkipEndSkipsTrimmable(s, st, |s|);
    assert st < end ==> SkipEnd(s, st, |s|) == end && st < |s|;
    assert TrimmedAt(s, Trim(s), st);
  }

  /** A string that neither starts nor ends with a trimmable character is
      its own trimmed form; in particular trimming twice changes nothing. */
  lemma TrimKeepsTrimmed(s: string)
    requires s != [] ==> !IsTrimmable(s[0]) && !IsTrimmable(s[|s| - 1])
    ensures Trim(s) == s
  {
    assert SkipStart(s, 0) == 0;
    assert SkipEnd(s, 0, |s|) == |s|;
  }

  lemma TrimIdempotent(s: string)
    ensures Trim(Trim(s)) == Trim(s)
  {
    TrimSlice(s);
    TrimKeepsTrimmed(Trim(s));
  }

  /** `s.replace("\n", " ")`. */
  function ReplaceNewlines(s: string): (r: string)
  {
    if s == [] then [] else [if s[0] == '\n' then ' ' else s[0]] + ReplaceNewlines(s[1..])
  }

  /** The replacement keeps the length and changes each character on its
      own: a line break becomes a space, anything else stays. */
  lemma {:induction false} ReplaceNewlinesPointwise(s: string)
    ensures |ReplaceNewlines(s)| == |s|
    ensures forall k :: 0 <= k < |s| ==> ReplaceNewlines(s)[k] == if s[k] == '\n' then ' ' else s[k]
  {
    if s != [] {
      ReplaceNewlinesPointwise(s[1..]);
      assert forall k :: 0 < k < |s| ==> s[k] == s[1..][k - 1];
    }
  }

  /** After the replacement no line break is left, and a text without line
      breaks is not changed. */
  lemma ReplaceNewlinesLeavesNone(s: string)
    ensures '\n' !in ReplaceNewlines(s)
    ensures '\n' !in s ==> ReplaceNewlines(s) == s
  {
    ReplaceNewlinesPointwise(s);
    if '\n' !in s {
      assert forall k :: 0 <= k < |s| ==> ReplaceNewlines(s)[k] == s[k];
    }
  }

  /** `StrUtil.format(template, args)`: scanning `template` from the left,
      the i-th `{}` is replaced by `args[i]`; once the arguments run out the
      rest of the template is kept as written. A Java `null` argument is
      passed here as the text "null", which is what the formatter appends
      for it. Backslash-escaped placeholders are not modelled: the
      monitor's templates hold no backslash. */
  function Format(template: string, args: seq<string>): string
    decreases |template|
  {
    if args == [] || |template| < 2 then template
    else if template[0] == '{' && template[1] == '}' then args[0] + Format(template[2..], args[1..])
    else [template[0]] + Format(template[1..], args)
  }

  /** Literal text without a brace passes through the formatter unchanged. */
  lemma {:induction false} FormatLiteral(lit: string, rest: string, args: seq<string>)
    requires '{' !in lit
    ensures Format(lit + rest, args) == lit + Format(rest, args)
    decreases |lit|
  {
    if args == [] || |lit + rest| < 2 || lit == [] {
      if lit == [] { assert lit + rest == rest; }
    } else {
      assert (lit + rest)[0] == lit[0];
      assert (lit + rest)[1..] == lit[1..] + rest;
      FormatLiteral(lit[1..], rest, args);
    }
  }

  /** A brace-free literal followed by a placeholder: the literal is kept
      and the placeholder takes the first argument. */
  lemma FormatStep(lit: string, arg: string, rest: string, args: seq<string>)
    requires '{' !in lit
    ensures Format(lit + "{}" + rest, [arg] + args) == lit + arg + Format(rest, args)
  {
    assert lit + "{}" + rest == lit + ("{}" + rest);
    FormatLiteral(lit, "{}" + rest, [arg] + args);
    assert ("{}" + rest)[2..] == rest;
    assert ([arg] + args)[1..] == args;
  }

  /** A template `l0 {} l1 {} ... {}` with brace-free literals `li`, given
      exactly as many arguments as it has placeholders, becomes the literals
      interleaved with the arguments. Stated for three and four
      placeholders, the two shapes the monitor uses. */
  lemma FormatThree(l0: string, l1: string, l2: string, a: string, b: string, c: string)
    requires '{' !in l0 && '{' !in l1 && '{' !in l2
    ensures Format(l0 + "{}" + l1 + "{}" + l2 + "{}", [a, b, c]) == l0 + a + l1 + b + l2 + c
  {
    var t2 := l2 + "{}" + "";
    var t1 := l1 + "{}" + t2;
    var t0 := l0 + "{}" + t1;
    assert t0 == l0 + "{}" + l1 + "{}" + l2 + "{}";
    FormatStep(l2, c, "", []);
    assert [c] + [] == [c];
    FormatStep(l1, b, t2, [c]);
    assert [b] + [c] == [b, c];
    FormatStep(l0, a, t1, [b, c]);
    assert [a] + [b, c] == [a, b, c];
  }

  lemma FormatFour(l0: string, l1: string, l2: string, l3: string, a: string, b: string, c: string, d: string)
    requires '{' !in l0 && '{' !in l1 && '{' !in l2 && '{' !in l3
    ensures Format(l0 + "{}" + l1 + "{}" + l2 + "{}" + l3 + "{}", [a, b, c, d])
         == l0 + a + l1 + b + l2 + c + l3 + d
  {
    var t := l1 + "{}" + l2 + "{}" + l3 + "{}";
    assert l0 + "{}" + l1 + "{}" + l2 + "{}" + l3 + "{}" == l0 + "{}" + t;
    assert [a, b, c, d] == [a] + [b, c, d];
    FormatStep(l0, a, t, [b, c, d]);
    FormatThree(l1, l2, l3, b, c, d);
  }
}
