/** String operations of the JavaScript / Python runtimes that the triage
    code relies on: toLowerCase, trim/strip, includes, startsWith, split,
    join, replace (first occurrence) and decimal number rendering.
    Case mapping covers ASCII letters only. */
module Text {

  // ---------------------------------------------------------------- case

  function LowerChar(c: char): char {
    if 'A' <= c <= 'Z' then (c as int + 32) as char else c
  }

  /** String.prototype.toLowerCase (ASCII letters). */
  function Lower(s: string): (r: string)
    ensures |r| == |s|
    ensures forall i :: 0 <= i < |s| ==> r[i] == LowerChar(s[i])
  {
    seq(|s|, i requires 0 <= i < |s| => LowerChar(s[i]))
  }

  lemma LowerIdempotent(s: string)
    ensures Lower(Lower(s)) == Lower(s)
  {
    assert forall i :: 0 <= i < |s| ==> LowerChar(LowerChar(s[i])) == LowerChar(s[i]);
  }

  lemma LowerAppend(a: string, b: string)
    ensures Lower(a + b) == Lower(a) + Lower(b)
  {
  }

  function UpperChar(c: char): char {
    if 'a' <= c <= 'z' then (c as int - 32) as char else c
  }

  /** String.prototype.toUpperCase (ASCII letters). */
  function Upper(s: string): (r: string)
    ensures |r| == |s|
    ensures forall i :: 0 <= i < |s| ==> r[i] == UpperChar(s[i])
  {
    seq(|s|, i requires 0 <= i < |s| => UpperChar(s[i]))
  }

  /** Upper-casing keeps the letters and only changes their case. */
  lemma UpperLower(s: string)
    ensures Lower(Upper(s)) == Lower(s)
    ensures Upper(Upper(s)) == Upper(s)
  {
    assert forall i :: 0 <= i < |s| ==> LowerChar(UpperChar(s[i])) == LowerChar(s[i]);
  }

  // ---------------------------------------------------------- whitespace

  /** Whitespace as removed by trim() / strip(): the ASCII blanks, the
      line and paragraph separators, no-break space and the BOM. */
  predicate IsSpace(c: char) {
    c == ' ' || c == '\t' || c == '\n' || c == '\r' || c == '\U{000B}' || c == '\U{000C}'
    || c == '\U{00A0}' || c == '\U{FEFF}' || c == '\U{2028}' || c == '\U{2029}'
  }

  function TrimStart(s: string): (r: string)
    ensures |r| <= |s|
    ensures r == s[|s| - |r|..]
    ensures r != [] ==> !IsSpace(r[0])
    ensures forall i :: 0 <= i < |s| - |r| ==> IsSpace(s[i])
    decreases |s|
  {
    if |s| > 0 && IsSpace(s[0]) then TrimStart(s[1..]) else s
  }

  function TrimEnd(s: string): (r: string)
    ensures |r| <= |s|
    ensures r == s[..|r|]
    ensures r != [] ==> !IsSpace(r[|r| - 1])
    ensures forall i :: |r| <= i < |s| ==> IsSpace(s[i])
    decreases |s|
  {
    if |s| > 0 && IsSpace(s[|s| - 1]) then TrimEnd(s[..|s| - 1]) else s
  }

  /** String.prototype.trim / str.strip(). */
  function Trim(s: string): (r: string)
    ensures r != [] ==> !IsSpace(r[0]) && !IsSpace(r[|r| - 1])
  {
    TrimEnd(TrimStart(s))
  }

  /** A string is blank when trimming leaves nothing. */
  predicate IsBlank(s: string) {
    Trim(s) == ""
  }

  lemma {:induction false} TrimStartNoop(s: string)
    requires s == [] || !IsSpace(s[0])
    ensures TrimStart(s) == s
  {
  }

  lemma {:induction false} TrimEndNoop(s: string)
    requires s == [] || !IsSpace(s[|s| - 1])
    ensures TrimEnd(s) == s
  {
  }

  /** A trimmed string has nothing left to trim. */
  lemma TrimIdempotent(s: string)
    ensures Trim(Trim(s)) == Trim(s)
  {
    var t := Trim(s);
    TrimStartNoop(t);
    TrimEndNoop(t);
  }

  /** Blank means: every character is whitespace. */
  lemma {:induction false} BlankIffAllSpace(s: string)
    ensures IsBlank(s) <==> forall i :: 0 <= i < |s| ==> IsSpace(s[i])
  {
    var a := TrimStart(s);
    if IsBlank(s) {
      assert |a| == 0;
    }
  }

  // ------------------------------------------------------- substrings

  predicate StartsWith(s: string, p: string) {
    |p| <= |s| && s[..|p|] == p
  }

  predicate EndsWith(s: string, p: string) {
    |p| <= |s| && s[|s| - |p|..] == p
  }

  /** String.prototype.includes / Python's `in` on strings. */
  predicate Contains(s: string, t: string)
    decreases |s|
  {
    StartsWith(s, t) || (|s| > 0 && Contains(s[1..], t))
  }

  /** `t` occurs in `s` starting at index `i`. */
  predicate OccursAt(s: string, t: string, i: int) {
    0 <= i <= |s| - |t| && s[i..i + |t|] == t
  }

  /** The recursive definition agrees with "t occurs at some index". */
  lemma {:induction false} ContainsAt(s: string, t: string)
    ensures Contains(s, t) <==> exists i :: OccursAt(s, t, i)
    decreases |s|
  {
    if StartsWith(s, t) {
      assert OccursAt(s, t, 0);
    }
    if |s| > 0 {
      ContainsAt(s[1..], t);
      if Contains(s[1..], t) {
        var i :| OccursAt(s[1..], t, i);
        assert s[i + 1..i + 1 + |t|] == t;
        assert OccursAt(s, t, i + 1);
      }
      if exists i :: OccursAt(s, t, i) {
        var i :| OccursAt(s, t, i);
        if i > 0 {
          assert s[1..][i - 1..i - 1 + |t|] == t;
          assert OccursAt(s[1..], t, i - 1);
        }
      }
    }
  }

  /** Every string occurs in a string that has it at a known position. */
  lemma ContainsInfix(a: string, t: string, b: string)
    ensures Contains(a + t + b, t)
  {
    var s := a + t + b;
    assert s[|a|..|a| + |t|] == t;
    assert OccursAt(s, t, |a|);
    ContainsAt(s, t);
  }

  lemma ContainsEmpty(s: string)
    ensures Contains(s, "")
  {
    assert StartsWith(s, "");
  }

  lemma ContainsExtend(a: string, t: string, b: string)
    requires Contains(a, t)
    ensures Contains(a + b, t) && Contains(b + a, t)
  {
    ContainsAt(a, t);
    var i :| OccursAt(a, t, i);
    assert (a + b)[i..i + |t|] == t;
    assert (b + a)[|b| + i..|b| + i + |t|] == t;
    assert OccursAt(a + b, t, i) && OccursAt(b + a, t, |b| + i);
    ContainsAt(a + b, t);
    ContainsAt(b + a, t);
  }

  /** A string never contains a longer one. */
  lemma ContainsLength(s: string, t: string)
    requires Contains(s, t)
    ensures |t| <= |s|
  {
    ContainsAt(s, t);
  }

  /** Lower-casing commutes with an occurrence. */
  lemma ContainsLower(s: string, t: string)
    requires Contains(s, t)
    ensures Contains(Lower(s), Lower(t))
  {
    ContainsAt(s, t);
    var i :| OccursAt(s, t, i);
    assert Lower(s)[i..i + |t|] == Lower(t);
    assert OccursAt(Lower(s), Lower(t), i);
    ContainsAt(Lower(s), Lower(t));
  }

  /** Index of the first occurrence of `t` in `s`, or -1 (String.prototype.indexOf). */
  function IndexOf(s: string, t: string): (r: int)
    ensures r == -1 || 0 <= r <= |s| - |t|
    ensures r >= 0 ==> OccursAt(s, t, r)
    ensures r >= 0 ==> forall j :: 0 <= j < r ==> !OccursAt(s, t, j)
    ensures r == -1 ==> forall j :: !OccursAt(s, t, j)
    decreases |s|
  {
    if StartsWith(s, t) then 0
    else if |s| == 0 then -1
    else
      var k := IndexOf(s[1..], t);
      assert |t| <= |s| ==> s[0..|t|] == s[..|t|];
      assert !OccursAt(s, t, 0);
      ShiftOccurrence(s, t);
      if k < 0 then -1 else k + 1
  }

  lemma ShiftOccurrence(s: string, t: string)
    requires |s| > 0
    ensures forall j :: 1 <= j ==> (OccursAt(s, t, j) <==> OccursAt(s[1..], t, j - 1))
  {
    forall j | 1 <= j ensures OccursAt(s, t, j) <==> OccursAt(s[1..], t, j - 1) {
      if 1 <= j <= |s| - |t| {
        assert s[j..j + |t|] == s[1..][j - 1..j - 1 + |t|];
      }
    }
  }

  lemma IndexOfFound(s: string, t: string)
    ensures IndexOf(s, t) >= 0 <==> Contains(s, t)
  {
    ContainsAt(s, t);
  }

  /** The replacement text that String.prototype.replace builds from its
      second argument when the pattern is a string (the GetSubstitution
      operation of ECMA-262, with no capture groups): "$$" stands for '$',
      "$&" for the matched text, "$`" for the text before the match and
      "$'" for the text after it; every other character, a '$' that starts
      none of these pairs included, stands for itself. */
  function Substitution(rep: string, matched: string, before: string, after: string): string
    decreases |rep|
  {
    if |rep| == 0 then ""
    else if |rep| >= 2 && rep[0] == '$' && rep[1] == '$' then "$" + Substitution(rep[2..], matched, before, after)
    else if |rep| >= 2 && rep[0] == '$' && rep[1] == '&' then matched + Substitution(rep[2..], matched, before, after)
    else if |rep| >= 2 && rep[0] == '$' && rep[1] == '`' then before + Substitution(rep[2..], matched, before, after)
    else if |rep| >= 2 && rep[0] == '$' && rep[1] == '\'' then after + Substitution(rep[2..], matched, before, after)
    else [rep[0]] + Substitution(rep[1..], matched, before, after)
  }

  /** A replacement without '$' is taken verbatim. */
  lemma {:induction false} SubstitutionVerbatim(rep: string, matched: string, before: string, after: string)
    requires '$' !in rep
    ensures Substitution(rep, matched, before, after) == rep
    decreases |rep|
  {
    if |rep| > 0 {
      assert rep[0] != '$';
      assert '$' !in rep[1..] by {
        forall k | 0 <= k < |rep[1..]| ensures rep[1..][k] != '$' {
          assert rep[1..][k] == rep[k + 1];
        }
      }
      SubstitutionVerbatim(rep[1..], matched, before, after);
      assert [rep[0]] + rep[1..] == rep;
    }
  }

  /** String.prototype.replace with a string pattern: only the first
      occurrence is replaced, by the substitution built from `rep`; nothing
      changes when there is none. */
  function ReplaceFirst(s: string, pat: string, rep: string): (r: string)
  {
    var i := IndexOf(s, pat);
    if i < 0 then s
    else s[..i] + Substitution(rep, pat, s[..i], s[i + |pat|..]) + s[i + |pat|..]
  }

  /** Only the first occurrence is replaced: the text around it is kept,
      so a later occurrence survives, shifted by the change in length. */
  lemma ReplaceFirstSpec(s: string, pat: string, rep: string)
    requires Contains(s, pat)
    ensures var i := IndexOf(s, pat);
      var r := ReplaceFirst(s, pat, rep);
      && 0 <= i && OccursAt(s, pat, i)
      && (forall j :: 0 <= j < i ==> !OccursAt(s, pat, j))
      && var sub := Substitution(rep, pat, s[..i], s[i + |pat|..]);
      && r == s[..i] + sub + s[i + |pat|..]
      && (forall j :: i + |pat| <= j && OccursAt(s, pat, j) ==> OccursAt(r, pat, j - |pat| + |sub|))
  {
    IndexOfFound(s, pat);
    var i := IndexOf(s, pat);
    var sub := Substitution(rep, pat, s[..i], s[i + |pat|..]);
    assert ReplaceFirst(s, pat, rep) == s[..i] + sub + s[i + |pat|..];
    LaterOccurrences(s, pat, sub, i);
  }

  /** Every occurrence after a replaced span moves with the text after it. */
  lemma LaterOccurrences(s: string, pat: string, rep: string, i: int)
    requires 0 <= i && i + |pat| <= |s|
    ensures forall j :: i + |pat| <= j && OccursAt(s, pat, j) ==>
      OccursAt(s[..i] + rep + s[i + |pat|..], pat, j - |pat| + |rep|)
  {
    forall j | i + |pat| <= j && OccursAt(s, pat, j)
      ensures OccursAt(s[..i] + rep + s[i + |pat|..], pat, j - |pat| + |rep|)
    {
      OccurrenceAfter(s, pat, rep, i, j);
    }
  }

  /** An occurrence after the replaced span moves with the text after it. */
  lemma OccurrenceAfter(s: string, pat: string, rep: string, i: int, j: int)
    requires 0 <= i && i + |pat| <= j && OccursAt(s, pat, j)
    ensures OccursAt(s[..i] + rep + s[i + |pat|..], pat, j - |pat| + |rep|)
  {
    var r := s[..i] + rep + s[i + |pat|..];
    var k := j - |pat| + |rep|;
    assert r[k..k + |pat|] == s[j..j + |pat|];
  }

  /** String.prototype.replace(/x/g, y) for one character. */
  function ReplaceAllChar(s: string, x: char, y: char): (r: string)
    ensures |r| == |s|
    ensures forall i :: 0 <= i < |s| ==> r[i] == if s[i] == x then y else s[i]
  {
    seq(|s|, i requires 0 <= i < |s| => if s[i] == x then y else s[i])
  }

  // ------------------------------------------------------ split and join

  /** String.prototype.split with a one-character separator. */
  function Split(s: string, sep: char): (r: seq<string>)
    ensures |r| >= 1
    ensures forall i :: 0 <= i < |r| ==> sep !in r[i]
    decreases |s|
  {
    if |s| == 0 then [""]
    else
      var rest := Split(s[1..], sep);
      if s[0] == sep then [""] + rest else [[s[0]] + rest[0]] + rest[1..]
  }

  /** Array.prototype.join / str.join. */
  function Join(xs: seq<string>, sep: string): string
  {
    if |xs| == 0 then "" else if |xs| == 1 then xs[0] else xs[0] + sep + Join(xs[1..], sep)
  }

  /** Splitting loses nothing: joining the pieces gives the input back. */
  lemma {:induction false} JoinSplit(s: string, sep: char)
    ensures Join(Split(s, sep), [sep]) == s
    decreases |s|
  {
    if |s| > 0 {
      var rest := Split(s[1..], sep);
      JoinSplit(s[1..], sep);
      if s[0] == sep {
        assert Split(s, sep) == [""] + rest;
        assert (["" ] + rest)[1..] == rest;
      } else {
        var r := Split(s, sep);
        assert r == [[s[0]] + rest[0]] + rest[1..];
        if |rest| == 1 {
          assert Join(r, [sep]) == [s[0]] + rest[0];
        } else {
          assert r[1..] == rest[1..];
          assert Join(rest, [sep]) == rest[0] + [sep] + Join(rest[1..], [sep]);
        }
      }
    }
  }

  /** The first piece of a split is the text before the first separator. */
  lemma {:induction false} SplitHead(p: string, sep: char, q: string)
    requires sep !in p
    ensures Split(p + [sep] + q, sep)[0] == p
    decreases |p|
  {
    var s := p + [sep] + q;
    if p == [] {
      assert s[0] == sep;
    } else {
      assert s[1..] == p[1..] + [sep] + q;
      SplitHead(p[1..], sep, q);
      assert [p[0]] + p[1..] == p;
    }
  }

  /** A piece without the separator, followed by the separator, splits off
      as one whole piece. */
  lemma {:induction false} SplitSegment(p: string, sep: char, q: string)
    requires sep !in p
    ensures Split(p + [sep] + q, sep) == [p] + Split(q, sep)
    decreases |p|
  {
    var s := p + [sep] + q;
    if p == [] {
      assert s[0] == sep && s[1..] == q;
    } else {
      assert s[1..] == p[1..] + [sep] + q;
      SplitSegment(p[1..], sep, q);
      assert [p[0]] + p[1..] == p;
    }
  }

  /** Text without the separator splits into itself alone. */
  lemma {:induction false} SplitNone(p: string, sep: char)
    requires sep !in p
    ensures Split(p, sep) == [p]
    decreases |p|
  {
    if p != [] {
      SplitNone(p[1..], sep);
      assert [p[0]] + p[1..] == p;
    }
  }

  /** Joining pieces that do not contain the separator, then splitting,
      gives the pieces back in order. */
  lemma {:induction false} SplitJoin(xs: seq<string>, sep: char)
    requires |xs| >= 1
    requires forall i :: 0 <= i < |xs| ==> sep !in xs[i]
    ensures Split(Join(xs, [sep]), sep) == xs
  {
    if |xs| == 1 {
      SplitNone(xs[0], sep);
    } else {
      SplitJoin(xs[1..], sep);
      SplitSegment(xs[0], sep, Join(xs[1..], [sep]));
      assert [xs[0]] + xs[1..] == xs;
    }
  }

  /** Trimming removes one trailing blank from text that has no outer
      whitespace of its own. */
  lemma TrimOneSpace(p: string)
    requires p != [] && !IsSpace(p[0]) && !IsSpace(p[|p| - 1])
    ensures Trim(p + " ") == p
  {
    TrimStartNoop(p + " ");
    assert (p + " ")[..|p + " "| - 1] == p;
    TrimEndNoop(p);
  }

  // ------------------------------------------------------------ numbers

  function DigitChar(d: nat): char
    requires d < 10
  {
    "0123456789"[d]
  }

  function NatToString(n: nat): (r: string)
    ensures |r| >= 1
    ensures forall i :: 0 <= i < |r| ==> '0' <= r[i] <= '9'
  {
    if n < 10 then [DigitChar(n)] else NatToString(n / 10) + [DigitChar(n % 10)]
  }

  /** Number.prototype.toString / String(n) for an integer. */
  function IntToString(n: int): (r: string)
    ensures |r| >= 1
  {
    if n < 0 then "-" + NatToString(-n) else NatToString(n)
  }
}
