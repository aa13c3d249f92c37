/**
 * String helpers with the meaning JavaScript gives them: literal global
 * replacement (`s.replace(/lit/g, r)`), `split` on one character, `trim`,
 * the `\s` character class, and the decimal rendering of numbers in
 * template literals.
 */
module Text {

  /** The characters JavaScript's `\s` matches and `String.prototype.trim`
      removes: WhiteSpace and LineTerminator of ECMA-262. */
  predicate IsJsWhitespace(c: char) {
    c == '\t' || c == '\n' || c == '\U{B}' || c == '\U{C}' || c == '\r' || c == ' '
    || c == '\U{A0}' || c == '\U{1680}' || ('\U{2000}' <= c <= '\U{200A}')
    || c == '\U{2028}' || c == '\U{2029}' || c == '\U{202F}' || c == '\U{205F}'
    || c == '\U{3000}' || c == '\U{FEFF}'
  }

  /** The characters `.` does not match in a JavaScript regular expression. */
  predicate IsLineTerminator(c: char) {
    c == '\n' || c == '\r' || c == '\U{2028}' || c == '\U{2029}'
  }

  predicate IsDigit(c: char) { '0' <= c <= '9' }

  predicate AllDigits(s: string) { forall i :: 0 <= i < |s| ==> IsDigit(s[i]) }

  /** `p` occurs in `s` at position `i`. */
  predicate OccursAt(s: string, p: string, i: nat) {
    i + |p| <= |s| && s[i..i + |p|] == p
  }

  /** `s.includes(p)`. */
  predicate Contains(s: string, p: string) {
    exists i: nat :: i + |p| <= |s| && OccursAt(s, p, i)
  }

  /** `s.startsWith(p)`. */
  predicate StartsWith(s: string, p: string) {
    |p| <= |s| && s[..|p|] == p
  }

  /** `s.endsWith(p)`. */
  predicate EndsWith(s: string, p: string) {
    |p| <= |s| && s[|s| - |p|..] == p
  }

  /** `${b}` for a boolean. */
  function BoolText(b: bool): string {
    if b then "true" else "false"
  }

  // ---------------------------------------------------------------------------
  // Global replacement of a literal pattern

  /** The text that replaces a match when the replacement is given as a
      string (GetSubstitution of ECMA-262, for a pattern without capture
      groups), `before` and `after` being the text around the match: `$$`
      stands for a dollar sign, `$&` for the match, `` $` `` for the text
      before the match and `$'` for the text after it; any other `$` stands
      for itself. */
  function Substitution(rep: string, before: string, matched: string, after: string): (r: string)
    ensures '$' !in rep ==> r == rep
    decreases |rep|
  {
    if rep == [] then []
    else if rep[0] == '$' && |rep| >= 2 && IsDollarForm(rep[1]) then
      DollarForm(rep[1], before, matched, after) + Substitution(rep[2..], before, matched, after)
    else
      assert '$' !in rep ==> '$' !in rep[1..];
      [rep[0]] + Substitution(rep[1..], before, matched, after)
  }

  /** The characters that make a `$` form with the dollar before them. */
  predicate IsDollarForm(c: char) {
    c == '$' || c == '&' || c == '`' || c == '\''
  }

  /** What `$c` stands for. */
  function DollarForm(c: char, before: string, matched: string, after: string): string
    requires IsDollarForm(c)
  {
    if c == '$' then ['$']
    else if c == '&' then matched
    else if c == '`' then before
    else after
  }

  /** The four `$` forms, each followed by the rest of the replacement. */
  lemma SubstitutionForms(rest: string, before: string, matched: string, after: string)
    ensures Substitution("$$" + rest, before, matched, after) == "$" + Substitution(rest, before, matched, after)
    ensures Substitution("$&" + rest, before, matched, after) == matched + Substitution(rest, before, matched, after)
    ensures Substitution("$`" + rest, before, matched, after) == before + Substitution(rest, before, matched, after)
    ensures Substitution("$'" + rest, before, matched, after) == after + Substitution(rest, before, matched, after)
  {
    assert ("$$" + rest)[2..] == rest;
    assert ("$&" + rest)[2..] == rest;
    assert ("$`" + rest)[2..] == rest;
    assert ("$'" + rest)[2..] == rest;
  }

  /** `s.replace(/pat/g, rep)` for a pattern without metacharacters, on the
      part `rest` of `s` that follows the already scanned `before`: a left to
      right scan that replaces every non-overlapping occurrence of `pat`. */
  function ReplaceScan(before: string, rest: string, pat: string, rep: string): string
    requires pat != []
    decreases |rest|
  {
    if |rest| < |pat| then rest
    else if rest[..|pat|] == pat then
      Substitution(rep, before, pat, rest[|pat|..]) + ReplaceScan(before + pat, rest[|pat|..], pat, rep)
    else [rest[0]] + ReplaceScan(before + [rest[0]], rest[1..], pat, rep)
  }

  /** `s.replace(/pat/g, rep)`. */
  function ReplaceAll(s: string, pat: string, rep: string): string
    requires pat != []
  {
    ReplaceScan([], s, pat, rep)
  }

  /** Every character of an occurring pattern occurs in the text. */
  lemma ContainsChar(s: string, pat: string, k: nat)
    requires k < |pat|
    ensures Contains(s, pat) ==> pat[k] in s
  {
    if Contains(s, pat) {
      var i: nat :| i + |pat| <= |s| && OccursAt(s, pat, i);
      assert s[i + k] == s[i..i + |pat|][k];
    }
  }

  /** A text without an occurrence has none in its tail either. */
  lemma NotContainsTail(s: string, pat: string)
    requires s != []
    ensures !Contains(s, pat) ==> !Contains(s[1..], pat)
  {
    if Contains(s[1..], pat) {
      var i: nat :| i + |pat| <= |s[1..]| && OccursAt(s[1..], pat, i);
      assert s[i + 1..i + 1 + |pat|] == s[1..][i..i + |pat|];
      assert OccursAt(s, pat, i + 1);
    }
  }

  lemma {:induction false} ReplaceScanAbsent(before: string, rest: string, pat: string, rep: string)
    requires pat != [] && !Contains(rest, pat)
    ensures ReplaceScan(before, rest, pat, rep) == rest
    decreases |rest|
  {
    if |rest| >= |pat| {
      assert !OccursAt(rest, pat, 0);
      NotContainsTail(rest, pat);
      ReplaceScanAbsent(before + [rest[0]], rest[1..], pat, rep);
      assert rest == [rest[0]] + rest[1..];
    }
  }

  /** A replacement whose pattern does not occur leaves the text unchanged. */
  lemma ReplaceAllAbsent(s: string, pat: string, rep: string)
    requires pat != [] && !Contains(s, pat)
    ensures ReplaceAll(s, pat, rep) == s
  {
    ReplaceScanAbsent([], s, pat, rep);
  }

  lemma {:induction false} ReplaceScanSelf(before: string, rest: string, pat: string)
    requires pat != [] && '$' !in pat
    ensures ReplaceScan(before, rest, pat, pat) == rest
    decreases |rest|
  {
    if |rest| >= |pat| {
      if rest[..|pat|] == pat {
        ReplaceScanSelf(before + pat, rest[|pat|..], pat);
        assert rest == rest[..|pat|] + rest[|pat|..];
      } else {
        ReplaceScanSelf(before + [rest[0]], rest[1..], pat);
        assert rest == [rest[0]] + rest[1..];
      }
    }
  }

  /** Replacing a pattern free of `$` by itself is the identity: every
      character of the input is either kept or re-emitted by the
      replacement. */
  lemma ReplaceAllSelf(s: string, pat: string)
    requires pat != [] && '$' !in pat
    ensures ReplaceAll(s, pat, pat) == s
  {
    ReplaceScanSelf([], s, pat);
  }

  /** A text that is exactly the pattern becomes the expanded replacement. */
  lemma ReplaceAllWhole(pat: string, rep: string)
    requires pat != []
    ensures ReplaceAll(pat, pat, rep) == Substitution(rep, [], pat, [])
  {
    var empty: string := [];
    assert pat[..|pat|] == pat && pat[|pat|..] == empty;
    assert ReplaceAll(pat, pat, rep)
        == Substitution(rep, [], pat, empty) + ReplaceScan([] + pat, empty, pat, rep);
    assert ReplaceScan([] + pat, empty, pat, rep) == empty;
  }

  /** The text before the first occurrence is copied; that occurrence is
      substituted, with the whole text before it and the text after it at
      hand, and the scan resumes right after it. The first occurrence is the
      one after `a` when `a` and all of `pat` but its last character hold
      none. */
  lemma {:induction false} ReplaceScanFirst(before: string, a: string, pat: string, b: string, rep: string)
    requires pat != [] && !Contains(a + pat[..|pat| - 1], pat)
    ensures ReplaceScan(before, a + pat + b, pat, rep)
         == a + Substitution(rep, before + a, pat, b) + ReplaceScan(before + a + pat, b, pat, rep)
    decreases |a|
  {
    var x := Substitution(rep, before + a, pat, b);
    var y := ReplaceScan(before + a + pat, b, pat, rep);
    if a == [] {
      assert a + pat + b == pat + b && before + a == before;
      ReplaceScanMatch(before, pat, b, rep);
    } else {
      var before', a' := before + [a[0]], a[1..];
      assert before' + a' == before + a;
      assert before' + a' + pat == before + a + pat;
      NoOccurrenceAtFront(a, pat, b);
      assert a + pat + b == [a[0]] + (a' + pat + b);
      ReplaceScanSkip(before, a[0], a' + pat + b, pat, rep);
      ReplaceScanFirst(before', a', pat, b, rep);
      calc {
        ReplaceScan(before, a + pat + b, pat, rep);
        [a[0]] + (a' + x + y);
        { assert a == [a[0]] + a'; }
        a + x + y;
      }
    }
  }

  /** An occurrence at the front of the rest is substituted. */
  lemma ReplaceScanMatch(before: string, pat: string, b: string, rep: string)
    requires pat != []
    ensures ReplaceScan(before, pat + b, pat, rep)
         == Substitution(rep, before, pat, b) + ReplaceScan(before + pat, b, pat, rep)
  {
    assert (pat + b)[..|pat|] == pat && (pat + b)[|pat|..] == b;
  }

  /** A character that does not start an occurrence is copied. */
  lemma ReplaceScanSkip(before: string, c: char, rest: string, pat: string, rep: string)
    requires pat != [] && |[c] + rest| >= |pat| && ([c] + rest)[..|pat|] != pat
    ensures ReplaceScan(before, [c] + rest, pat, rep) == [c] + ReplaceScan(before + [c], rest, pat, rep)
  {
    assert ([c] + rest)[0] == c && ([c] + rest)[1..] == rest;
  }

  /** When `a` is not empty, the pattern does not start `a + pat + b`, and
      the condition on `a` carries over to its tail. */
  lemma NoOccurrenceAtFront(a: string, pat: string, b: string)
    requires pat != [] && a != [] && !Contains(a + pat[..|pat| - 1], pat)
    ensures |a + pat + b| >= |pat| && (a + pat + b)[..|pat|] != pat
    ensures !Contains(a[1..] + pat[..|pat| - 1], pat)
  {
    var t := a + pat[..|pat| - 1];
    assert (a + pat + b)[..|pat|] == t[..|pat|];
    assert !OccursAt(t, pat, 0);
    NotContainsTail(t, pat);
    assert t[1..] == a[1..] + pat[..|pat| - 1];
  }

  /** The whole replacement, cut at the first occurrence. */
  lemma ReplaceAllFirst(a: string, pat: string, b: string, rep: string)
    requires pat != [] && !Contains(a + pat[..|pat| - 1], pat)
    ensures ReplaceAll(a + pat + b, pat, rep)
         == a + Substitution(rep, a, pat, b) + ReplaceScan(a + pat, b, pat, rep)
  {
    ReplaceScanFirst([], a, pat, b, rep);
    assert [] + a == a;
  }

  /** With a replacement free of `$`, the scan does not depend on the text
      already scanned. */
  lemma {:induction false} ReplaceScanLiteral(before: string, rest: string, pat: string, rep: string)
    requires pat != [] && '$' !in rep
    ensures ReplaceScan(before, rest, pat, rep) == ReplaceAll(rest, pat, rep)
    decreases |rest|
  {
    if |rest| >= |pat| {
      if rest[..|pat|] == pat {
        ReplaceScanLiteral(before + pat, rest[|pat|..], pat, rep);
        ReplaceScanLiteral([] + pat, rest[|pat|..], pat, rep);
        assert ReplaceScan([], rest, pat, rep) == rep + ReplaceScan([] + pat, rest[|pat|..], pat, rep);
      } else {
        ReplaceScanLiteral(before + [rest[0]], rest[1..], pat, rep);
        ReplaceScanLiteral([] + [rest[0]], rest[1..], pat, rep);
        assert ReplaceScan([], rest, pat, rep) == [rest[0]] + ReplaceScan([] + [rest[0]], rest[1..], pat, rep);
      }
    }
  }

  /** For a replacement free of `$`: the text before the first occurrence
      is kept, the occurrence becomes the replacement, and the rest is
      replaced on its own. */
  lemma ReplaceAllFirstLiteral(a: string, pat: string, b: string, rep: string)
    requires pat != [] && '$' !in rep
    requires !Contains(a + pat[..|pat| - 1], pat)
    ensures ReplaceAll(a + pat + b, pat, rep) == a + rep + ReplaceAll(b, pat, rep)
  {
    ReplaceAllFirst(a, pat, b, rep);
    ReplaceScanLiteral(a + pat, b, pat, rep);
  }

  // ---------------------------------------------------------------------------
  // Splitting and joining on one character

  /** `s.split(c)` for a one-character separator: the pieces between
      separators, always at least one, empty pieces included. */
  function Split(s: string, c: char): (pieces: seq<string>)
    ensures |pieces| >= 1
  {
    if s == [] then [[]]
    else
      var rest := Split(s[1..], c);
      if s[0] == c then [[]] + rest else [[s[0]] + rest[0]] + rest[1..]
  }

  /** `parts.join(sep)`. */
  function Join(parts: seq<string>, sep: string): string {
    if parts == [] then [] else if |parts| == 1 then parts[0] else parts[0] + sep + Join(parts[1..], sep)
  }

  function CountChar(s: string, c: char): nat {
    if s == [] then 0 else (if s[0] == c then 1 else 0) + CountChar(s[1..], c)
  }

  /** There is one piece more than there are separators. */
  lemma {:induction false} SplitCount(s: string, c: char)
    ensures |Split(s, c)| == CountChar(s, c) + 1
  {
    if s != [] {
      SplitCount(s[1..], c);
    }
  }

  /** No piece contains the separator. */
  lemma {:induction false} SplitPieces(s: string, c: char)
    ensures forall k :: 0 <= k < |Split(s, c)| ==> c !in Split(s, c)[k]
  {
    if s != [] {
      var rest := Split(s[1..], c);
      SplitPieces(s[1..], c);
      var ps := Split(s, c);
      if s[0] == c {
        assert ps == [[]] + rest;
        forall k | 0 <= k < |ps| ensures c !in ps[k] {
          if k > 0 { assert ps[k] == rest[k - 1]; }
        }
      } else {
        assert ps == [[s[0]] + rest[0]] + rest[1..];
        forall k | 0 <= k < |ps| ensures c !in ps[k] {
          if k > 0 { assert ps[k] == rest[k]; }
        }
      }
    }
  }

  /** Joining the pieces with the separator gives back the input. */
  lemma {:induction false} SplitJoinBack(s: string, c: char)
    ensures Join(Split(s, c), [c]) == s
  {
    if s != [] {
      var rest := Split(s[1..], c);
      SplitJoinBack(s[1..], c);
      var ps := Split(s, c);
      if s[0] == c {
        assert ps == [[]] + rest;
        assert ps[1..] == rest;
        assert Join(ps, [c]) == [] + [c] + Join(rest, [c]);
        assert [c] + s[1..] == s;
      } else {
        assert ps == [[s[0]] + rest[0]] + rest[1..];
        if |rest| == 1 {
          assert Join(ps, [c]) == [s[0]] + rest[0];
          assert Join(rest, [c]) == rest[0];
        } else {
          assert ps[1..] == rest[1..];
          assert Join(rest, [c]) == rest[0] + [c] + Join(rest[1..], [c]);
          assert Join(ps, [c]) == [s[0]] + rest[0] + [c] + Join(rest[1..], [c]);
        }
        assert [s[0]] + s[1..] == s;
      }
    }
  }

  /** `split` and `join` on one character are inverse: joining the pieces
      gives back the input, no piece contains the separator, and there is
      one piece more than separators. */
  lemma SplitJoin(s: string, c: char)
    ensures Join(Split(s, c), [c]) == s
    ensures forall k :: 0 <= k < |Split(s, c)| ==> c !in Split(s, c)[k]
    ensures |Split(s, c)| == CountChar(s, c) + 1
  {
    SplitJoinBack(s, c);
    SplitPieces(s, c);
    SplitCount(s, c);
  }

  // ---------------------------------------------------------------------------
  // Trimming

  function TrimStart(s: string): (r: string)
    ensures |r| <= |s| && r == s[|s| - |r|..]
  {
    if s != [] && IsJsWhitespace(s[0]) then TrimStart(s[1..]) else s
  }

  function TrimEnd(s: string): (r: string)
    ensures |r| <= |s| && r == s[..|r|]
  {
    if s != [] && IsJsWhitespace(s[|s| - 1]) then TrimEnd(s[..|s| - 1]) else s
  }

  /** `s.trim()`. */
  function Trim(s: string): string {
    TrimEnd(TrimStart(s))
  }

  lemma {:induction false} TrimStartSpec(s: string)
    ensures forall k :: 0 <= k < |s| - |TrimStart(s)| ==> IsJsWhitespace(s[k])
    ensures TrimStart(s) != [] ==> !IsJsWhitespace(TrimStart(s)[0])
  {
    if s != [] && IsJsWhitespace(s[0]) {
      TrimStartSpec(s[1..]);
      forall k | 0 <= k < |s| - |TrimStart(s)| ensures IsJsWhitespace(s[k]) {
        if k > 0 { assert s[k] == s[1..][k - 1]; }
      }
    }
  }

  lemma {:induction false} TrimEndSpec(s: string)
    ensures forall k :: |TrimEnd(s)| <= k < |s| ==> IsJsWhitespace(s[k])
    ensures TrimEnd(s) != [] ==> !IsJsWhitespace(TrimEnd(s)[|TrimEnd(s)| - 1])
  {
    if s != [] && IsJsWhitespace(s[|s| - 1]) {
      TrimEndSpec(s[..|s| - 1]);
    }
  }

  /** The trimmed text is a slice of the input, starting where the leading
      whitespace ends. */
  lemma TrimSlice(s: string)
    ensures var i := |s| - |TrimStart(s)|;
            i + |Trim(s)| <= |s| && Trim(s) == s[i..i + |Trim(s)|]
  {
    var t := TrimStart(s);
    var i := |s| - |t|;
    var e := TrimEnd(t);
    assert t == s[i..];
    assert e == t[..|e|];
  }

  /** Only whitespace lies outside that slice. */
  lemma TrimOutside(s: string)
    ensures var i := |s| - |TrimStart(s)|;
            && (forall k :: 0 <= k < i ==> IsJsWhitespace(s[k]))
            && (forall k :: i + |Trim(s)| <= k < |s| ==> IsJsWhitespace(s[k]))
  {
    var t := TrimStart(s);
    var i := |s| - |t|;
    TrimStartSpec(s);
    TrimEndSpec(t);
    TrimSlice(s);
    assert t == s[i..];
    forall k | i + |Trim(s)| <= k < |s| ensures IsJsWhitespace(s[k]) {
      assert s[k] == t[k - i];
    }
  }

  lemma TrimFirst(s: string)
    ensures Trim(s) != [] ==> TrimStart(s) != [] && Trim(s)[0] == TrimStart(s)[0]
  {
    var t := TrimStart(s);
    var e := TrimEnd(t);
    if e != [] {
      assert e[0] == t[..|e|][0];
    }
  }

  /** The trimmed text neither starts nor ends with whitespace. */
  lemma TrimEnds(s: string)
    ensures Trim(s) != [] ==> !IsJsWhitespace(Trim(s)[0]) && !IsJsWhitespace(Trim(s)[|Trim(s)| - 1])
  {
    TrimFirst(s);
    TrimStartSpec(s);
    TrimEndSpec(TrimStart(s));
  }

  /** `trim` removes exactly the leading and trailing whitespace: the result
      is the slice `s[i..j]` with only whitespace outside it, and it neither
      starts nor ends with whitespace. */
  lemma TrimSpec(s: string)
    ensures var i := |s| - |TrimStart(s)|;
            && i + |Trim(s)| <= |s| && Trim(s) == s[i..i + |Trim(s)|]
            && (forall k :: 0 <= k < i ==> IsJsWhitespace(s[k]))
            && (forall k :: i + |Trim(s)| <= k < |s| ==> IsJsWhitespace(s[k]))
    ensures Trim(s) != [] ==> !IsJsWhitespace(Trim(s)[0]) && !IsJsWhitespace(Trim(s)[|Trim(s)| - 1])
  {
    TrimSlice(s);
    TrimOutside(s);
    TrimEnds(s);
  }

  // ---------------------------------------------------------------------------
  // Decimal numbers

  function DigitChar(d: nat): char
    requires d < 10
  {
    "0123456789"[d]
  }

  /** `${n}` for a non-negative integer. */
  function NatToString(n: nat): (r: string)
    ensures |r| >= 1 && AllDigits(r)
    ensures n < 10 <==> |r| == 1
    decreases n
  {
    if n < 10 then [DigitChar(n)] else NatToString(n / 10) + [DigitChar(n % 10)]
  }

  /** `${n}` for an integer: a minus sign, then the magnitude. */
  function IntToString(n: int): string {
    if n < 0 then "-" + NatToString(-n) else NatToString(n)
  }

  /** The value of a non-empty string of decimal digits. */
  function DigitsValue(s: string): nat
    requires AllDigits(s)
  {
    if s == [] then 0 else 10 * DigitsValue(s[..|s| - 1]) + ((s[|s| - 1] as int) - ('0' as int))
  }

  /** Reading the rendering back gives the number: distinct indexes are
      rendered as distinct texts. */
  lemma {:induction false} NatToStringRoundTrip(n: nat)
    ensures DigitsValue(NatToString(n)) == n
    decreases n
  {
    var r := NatToString(n);
    if n >= 10 {
      NatToStringRoundTrip(n / 10);
      assert r[..|r| - 1] == NatToString(n / 10);
    }
  }

  lemma NatToStringInjective(m: nat, n: nat)
    ensures NatToString(m) == NatToString(n) ==> m == n
  {
    NatToStringRoundTrip(m);
    NatToStringRoundTrip(n);
  }

  // ---------------------------------------------------------------------------
  // Regrouping concatenations

  /** A concatenation starts with its first part and ends with its last. */
  lemma Framed(a: string, b: string, c: string)
    ensures StartsWith(a + b + c, a) && EndsWith(a + b + c, c)
  {
    assert (a + b + c)[..|a|] == a;
    assert (a + b + c)[|a + b|..] == c;
  }

  lemma Chain2(x: string, a: string, b: string)
    ensures x + a + b == x + (a + b)
  {
  }

  lemma Chain3(x: string, a: string, b: string, c: string)
    ensures x + a + b + c == x + (a + b + c)
  {
  }

  lemma Chain4(x: string, a: string, b: string, c: string, d: string)
    ensures x + a + b + c + d == x + (a + b + c + d)
  {
  }

  lemma Chain5(x: string, a: string, b: string, c: string, d: string, e: string)
    ensures x + a + b + c + d + e == x + (a + b + c + d + e)
  {
  }

  lemma Chain6(x: string, a: string, b: string, c: string, d: string, e: string, f: string)
    ensures x + a + b + c + d + e + f == x + (a + b + c + d + e + f)
  {
  }

  lemma Chain7(x: string, a: string, b: string, c: string, d: string, e: string, f: string, g: string)
    ensures x + a + b + c + d + e + f + g == x + (a + b + c + d + e + f + g)
  {
  }

  lemma Chain8(x: string, a: string, b: string, c: string, d: string, e: string, f: string, g: string, h: string)
    ensures x + a + b + c + d + e + f + g + h == x + (a + b + c + d + e + f + g + h)
  {
  }

  lemma Chain9(x: string, a: string, b: string, c: string, d: string, e: string, f: string, g: string, h: string,
               k: string)
    ensures x + a + b + c + d + e + f + g + h + k == x + (a + b + c + d + e + f + g + h + k)
  {
  }
}
