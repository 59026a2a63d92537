/** Strings as the model needs them: splitting into lines, searching,
    character classes of JavaScript regular expressions, decimal digits and
    the conversions `parseInt`, `parseFloat`, `Number` and `String` perform on
    them. Case mapping is ASCII only. */
module Text {
  import opened Common

  /** `\d` */
  predicate IsDigit(c: char)
  {
    '0' <= c <= '9'
  }

  /** `[\d.]` */
  predicate IsDecimalChar(c: char)
  {
    IsDigit(c) || c == '.'
  }

  /** `\s` of a JavaScript regular expression. */
  predicate IsSpace(c: char)
  {
    c == ' ' || c == '\t' || c == '\n' || c == '\r' || c == '\U{000B}' || c == '\U{000C}'
    || c == '\U{00A0}' || c == '\U{1680}' || ('\U{2000}' <= c <= '\U{200A}')
    || c == '\U{2028}' || c == '\U{2029}' || c == '\U{202F}' || c == '\U{205F}'
    || c == '\U{3000}' || c == '\U{FEFF}'
  }

  function LowerChar(c: char): char
  {
    if 'A' <= c <= 'Z' then (c as int + 32) as char else c
  }

  function UpperChar(c: char): char
  {
    if 'a' <= c <= 'z' then (c as int - 32) as char else c
  }

  /** `toLowerCase()` */
  function Lower(s: string): (r: string)
    ensures |r| == |s| && forall k | 0 <= k < |s| :: r[k] == LowerChar(s[k])
  {
    seq(|s|, k requires 0 <= k < |s| => LowerChar(s[k]))
  }

  /** `toUpperCase()` */
  function Upper(s: string): (r: string)
    ensures |r| == |s| && forall k | 0 <= k < |s| :: r[k] == UpperChar(s[k])
  {
    seq(|s|, k requires 0 <= k < |s| => UpperChar(s[k]))
  }

  /** A string without upper-case letters comes back from upper-casing and
      lower-casing unchanged. */
  lemma LowerOfUpper(s: string)
    requires forall k | 0 <= k < |s| :: !('A' <= s[k] <= 'Z')
    ensures Lower(Upper(s)) == s
  {
  }

  /** `s.endsWith(suffix)` */
  predicate EndsWith(s: string, suffix: string)
  {
    |suffix| <= |s| && s[|s| - |suffix|..] == suffix
  }

  /** `s.includes(p)` */
  predicate Contains(s: string, p: string)
    decreases |s|
  {
    p <= s || (s != [] && Contains(s[1..], p))
  }

  lemma {:induction false} ContainsWitness(s: string, p: string)
    ensures Contains(s, p) <==> exists i | 0 <= i <= |s| :: p <= s[i..]
    decreases |s|
  {
    if p <= s {
      assert s[0..] == s;
    } else if s != [] {
      ContainsWitness(s[1..], p);
      if Contains(s[1..], p) {
        var i :| 0 <= i <= |s[1..]| && p <= s[1..][i..];
        assert s[1..][i..] == s[i + 1..];
      }
      if exists i | 0 <= i <= |s| :: p <= s[i..] {
        var i :| 0 <= i <= |s| && p <= s[i..];
        if i > 0 {
          assert s[1..][i - 1..] == s[i..];
        }
      }
    }
  }

  /** A text contains whatever it ends with. */
  lemma {:induction false} ContainsEnd(a: string, p: string)
    ensures Contains(a + p, p)
    decreases |a|
  {
    if a == [] {
      assert a + p == p;
    } else {
      assert (a + p)[1..] == a[1..] + p;
      ContainsEnd(a[1..], p);
    }
  }

  /** The position after the longest run of characters satisfying `p` that
      starts at `i`: how a greedy `p+` or `p*` ends. */
  function RunEnd(s: string, i: nat, p: char -> bool): (j: nat)
    requires i <= |s|
    ensures i <= j <= |s|
    decreases |s| - i
  {
    if i < |s| && p(s[i]) then RunEnd(s, i + 1, p) else i
  }

  /** Every character of the run satisfies `p`, and the one after it does
      not. */
  lemma {:induction false} RunEndFacts(s: string, i: nat, p: char -> bool)
    requires i <= |s|
    ensures forall k | i <= k < RunEnd(s, i, p) :: p(s[k])
    ensures RunEnd(s, i, p) < |s| ==> !p(s[RunEnd(s, i, p)])
    decreases |s| - i
  {
    if i < |s| && p(s[i]) {
      RunEndFacts(s, i + 1, p);
    }
  }

  /** A run over all of `s` stops where `t` starts, unless `t` continues it. */
  lemma {:induction false} RunEndAcross(s: string, t: string, i: nat, p: char -> bool)
    requires i <= |s|
    requires forall k | i <= k < |s| :: p(s[k])
    requires t == [] || !p(t[0])
    ensures RunEnd(s + t, i, p) == |s|
    decreases |s| - i
  {
    if i < |s| {
      assert (s + t)[i] == s[i];
      RunEndAcross(s, t, i + 1, p);
    } else if t != [] {
      assert (s + t)[i] == t[0];
    }
  }

  /** A run is ended by the first position where `p` fails. */
  lemma {:induction false} RunEndAt(s: string, i: nat, j: nat, p: char -> bool)
    requires i <= j <= |s|
    requires forall k | i <= k < j :: p(s[k])
    requires j < |s| ==> !p(s[j])
    ensures RunEnd(s, i, p) == j
    decreases j - i
  {
    if i < j {
      RunEndAt(s, i + 1, j, p);
    }
  }

  /** The same run seen from inside a longer string. */
  lemma {:induction false} RunEndShift(pre: string, s: string, i: nat, p: char -> bool)
    requires i <= |s|
    ensures RunEnd(pre + s, |pre| + i, p) == |pre| + RunEnd(s, i, p)
    decreases |s| - i
  {
    if i < |s| {
      assert (pre + s)[|pre| + i] == s[i];
      if p(s[i]) {
        RunEndShift(pre, s, i + 1, p);
      }
    }
  }

  // ---------------------------------------------------------------------
  // Lines

  /** `s.split('\n')` */
  function Lines(s: string): (r: seq<string>)
    ensures |r| >= 1
    ensures forall k | 0 <= k < |r| :: '\n' !in r[k]
    decreases |s|
  {
    if s == [] then [""]
    else
      var rest := Lines(s[1..]);
      if s[0] == '\n' then [""] + rest
      else [[s[0]] + rest[0]] + rest[1..]
  }

  /** `lines.join('\n')` */
  function JoinLines(ls: seq<string>): string
    requires |ls| >= 1
  {
    if |ls| == 1 then ls[0] else ls[0] + "\n" + JoinLines(ls[1..])
  }

  lemma {:induction false} JoinLinesOfLines(s: string)
    ensures JoinLines(Lines(s)) == s
    decreases |s|
  {
    if s != [] {
      var rest := Lines(s[1..]);
      JoinLinesOfLines(s[1..]);
      if s[0] == '\n' {
        assert ([""] + rest)[1..] == rest;
      } else {
        var ls := [[s[0]] + rest[0]] + rest[1..];
        if |rest| > 1 {
          assert ls[1..] == rest[1..];
          assert JoinLines(rest) == rest[0] + "\n" + JoinLines(rest[1..]);
        }
      }
    }
  }

  /** A line followed by a line break splits off as the first line. */
  lemma {:induction false} LinesOfLineBreak(a: string, t: string)
    requires '\n' !in a
    ensures Lines(a + "\n" + t) == [a] + Lines(t)
    decreases |a|
  {
    if a == [] {
      assert ([] + "\n" + t)[1..] == t;
    } else {
      assert (a + "\n" + t)[1..] == a[1..] + "\n" + t;
      LinesOfLineBreak(a[1..], t);
      assert [a[0]] + a[1..] == a;
    }
  }

  lemma {:induction false} LinesOfLine(a: string)
    requires '\n' !in a
    ensures Lines(a) == [a]
    decreases |a|
  {
    if a != [] {
      LinesOfLine(a[1..]);
      assert [a[0]] + a[1..] == a;
    }
  }

  /** Splitting undoes joining, for lines without line breaks. */
  lemma {:induction false} LinesOfJoinLines(ls: seq<string>)
    requires |ls| >= 1
    requires forall k | 0 <= k < |ls| :: '\n' !in ls[k]
    ensures Lines(JoinLines(ls)) == ls
    decreases |ls|
  {
    if |ls| == 1 {
      LinesOfLine(ls[0]);
    } else {
      LinesOfJoinLines(ls[1..]);
      LinesOfLineBreak(ls[0], JoinLines(ls[1..]));
      assert [ls[0]] + ls[1..] == ls;
    }
  }

  // ---------------------------------------------------------------------
  // Digits and numbers

  /** The value of a decimal digit; other characters never reach it. */
  function DigitValue(c: char): (d: nat)
    ensures d < 10
    ensures IsDigit(c) ==> d == c as int - '0' as int
  {
    if IsDigit(c) then c as int - '0' as int else 0
  }

  function DigitChar(d: nat): (c: char)
    requires d < 10
    ensures IsDigit(c) && DigitValue(c) == d
  {
    (d + '0' as int) as char
  }

  predicate AllDigits(s: string)
  {
    forall k | 0 <= k < |s| :: IsDigit(s[k])
  }

  /** `parseInt` of a string of decimal digits. */
  function DigitsValue(ds: string): nat
  {
    if ds == [] then 0 else 10 * DigitsValue(ds[..|ds| - 1]) + DigitValue(ds[|ds| - 1])
  }

  /** `String(n)` for a natural number. */
  function NatToString(n: nat): (r: string)
    ensures |r| >= 1 && AllDigits(r)
    decreases n
  {
    if n < 10 then [DigitChar(n)] else NatToString(n / 10) + [DigitChar(n % 10)]
  }

  lemma {:induction false} NatToStringValue(n: nat)
    ensures DigitsValue(NatToString(n)) == n
    decreases n
  {
    var s := NatToString(n);
    if n >= 10 {
      NatToStringValue(n / 10);
      assert s[..|s| - 1] == NatToString(n / 10);
    }
  }

  /** `String(n)` for an integer. */
  function IntToString(n: int): (r: string)
    ensures |r| >= 1
    ensures 0 <= n ==> r == NatToString(n)
    ensures n < 0 ==> r == "-" + NatToString(-n)
  {
    if n < 0 then "-" + NatToString(-n) else NatToString(n)
  }

  function Pow10(k: nat): (r: nat)
    ensures r >= 1
  {
    if k == 0 then 1 else 10 * Pow10(k - 1)
  }

  /** The value of the decimal literal `intDigits.fracDigits`. */
  function DecimalValue(intDigits: string, fracDigits: string): (r: real)
    ensures r >= 0.0
  {
    DigitsValue(intDigits) as real + DigitsValue(fracDigits) as real / Pow10(|fracDigits|) as real
  }

  /** Where the decimal literal at the start of `s` ends, and where its
      integer digits end: digits, then optionally a point and more digits. */
  function LiteralEnds(s: string): (e: (nat, nat))
    ensures e.0 <= e.1 <= |s|
    ensures AllDigits(s[..e.0])
    ensures e.1 > e.0 ==> s[e.0] == '.' && AllDigits(s[e.0 + 1..e.1])
    ensures e.1 == e.0 ==> e.0 == |s| || s[e.0] != '.'
  {
    var i := RunEnd(s, 0, IsDigit);
    RunEndFacts(s, 0, IsDigit);
    if i < |s| && s[i] == '.' then
      RunEndFacts(s, i + 1, IsDigit);
      (i, RunEnd(s, i + 1, IsDigit))
    else (i, i)
  }

  function FracDigits(s: string): (f: string)
    ensures AllDigits(f)
  {
    var (i, j) := LiteralEnds(s);
    if j > i then s[i + 1..j] else []
  }

  /** `parseFloat(s)` for a string without sign, exponent or leading white
      space: the longest decimal literal at the start of `s`, NaN when there
      is none. */
  function ParseFloat(s: string): (r: JsNumber)
    ensures r.NaN? <==> LiteralEnds(s).0 == 0 && FracDigits(s) == []
    ensures r.Finite? ==> r.v >= 0.0
  {
    var (i, j) := LiteralEnds(s);
    if i == 0 && FracDigits(s) == [] then NaN else Finite(DecimalValue(s[..i], FracDigits(s)))
  }

  /** `Number(s)` for a string made of digits and points: NaN unless the
      whole string is one decimal literal. */
  function NumberOf(s: string): (r: JsNumber)
    ensures s != [] && LiteralEnds(s).1 < |s| ==> r.NaN?
  {
    if s == [] then Finite(0.0)
    else if LiteralEnds(s).1 < |s| then NaN
    else ParseFloat(s)
  }

  /** `parseFloat` of a digit string is the number the digits spell. */
  lemma ParseDigits(d: string)
    requires d != [] && AllDigits(d)
    ensures ParseFloat(d) == Finite(DigitsValue(d) as real)
  {
    RunEndAt(d, 0, |d|, IsDigit);
    assert d[..|d|] == d;
  }

  lemma NatLiteral(n: nat, t: string)
    requires t == [] || !IsDecimalChar(t[0])
    ensures LiteralEnds(NatToString(n) + t) == (|NatToString(n)|, |NatToString(n)|)
    ensures (NatToString(n) + t)[..|NatToString(n)|] == NatToString(n)
  {
    var s := NatToString(n);
    RunEndAcross(s, t, 0, IsDigit);
    assert (s + t)[..|s|] == s;
  }

  /** `parseFloat` and `Number` read back what `String` wrote. */
  lemma ParseNatToString(n: nat)
    ensures ParseFloat(NatToString(n)) == Finite(n as real)
    ensures NumberOf(NatToString(n)) == Finite(n as real)
  {
    var s := NatToString(n);
    NatLiteral(n, []);
    assert s + [] == s;
    NatToStringValue(n);
  }

  // ---------------------------------------------------------------------
  // Replacing white space

  /** `s.replace(/\s+/g, sep)`: every maximal run of white space becomes one
      `sep`. */
  function ReplaceSpaceRuns(s: string, sep: char): (r: string)
    ensures !IsSpace(sep) ==> forall k | 0 <= k < |r| :: !IsSpace(r[k])
    ensures (forall k | 0 <= k < |s| :: !IsSpace(s[k])) ==> r == s
    decreases |s|
  {
    if s == [] then []
    else if IsSpace(s[0]) then [sep] + ReplaceSpaceRuns(s[RunEnd(s, 1, IsSpace)..], sep)
    else [s[0]] + ReplaceSpaceRuns(s[1..], sep)
  }

  lemma ConsSplit(head: string, st: string, at: string, y: string, sep: char)
    requires ReplaceSpaceRuns(st, sep) == ReplaceSpaceRuns(at, sep) + [sep] + y
    ensures head + ReplaceSpaceRuns(st, sep) == (head + ReplaceSpaceRuns(at, sep)) + [sep] + y
  {
  }

  /** A leading run of white space becomes one `sep`. */
  lemma LeadingRun(ws: string, b: string, sep: char)
    requires ws != [] && forall k | 0 <= k < |ws| :: IsSpace(ws[k])
    requires b == [] || !IsSpace(b[0])
    ensures ReplaceSpaceRuns(ws + b, sep) == [sep] + ReplaceSpaceRuns(b, sep)
  {
    var s := ws + b;
    RunEndAt(s, 1, |ws|, IsSpace);
    assert s[|ws|..] == b;
  }

  /** A text that starts with white space loses its first run whether or
      not more text follows. */
  lemma SpaceHead(a: string, t: string, sep: char)
    requires a != [] && IsSpace(a[0]) && !IsSpace(a[|a| - 1])
    ensures RunEnd(a, 1, IsSpace) < |a|
    ensures ReplaceSpaceRuns(a + t, sep) == [sep] + ReplaceSpaceRuns(a[RunEnd(a, 1, IsSpace)..] + t, sep)
  {
    var s := a + t;
    var j := RunEnd(a, 1, IsSpace);
    RunEndFacts(a, 1, IsSpace);
    RunEndAt(s, 1, j, IsSpace);
    assert s[j..] == a[j..] + t;
  }

  /** One maximal run of white space becomes exactly one `sep`, and the text
      on either side of it is replaced on its own. */
  lemma {:induction false} ReplaceSpaceRunsSplit(a: string, ws: string, b: string, sep: char)
    requires a == [] || !IsSpace(a[|a| - 1])
    requires ws != [] && forall k | 0 <= k < |ws| :: IsSpace(ws[k])
    requires b == [] || !IsSpace(b[0])
    ensures ReplaceSpaceRuns(a + ws + b, sep) == ReplaceSpaceRuns(a, sep) + [sep] + ReplaceSpaceRuns(b, sep)
    decreases |a|
  {
    var s := a + ws + b;
    if a == [] {
      assert s == ws + b;
      LeadingRun(ws, b, sep);
    } else if IsSpace(a[0]) {
      var j := RunEnd(a, 1, IsSpace);
      SpaceHead(a, ws + b, sep);
      assert s == a + (ws + b);
      assert a[j..] + (ws + b) == a[j..] + ws + b;
      ReplaceSpaceRunsSplit(a[j..], ws, b, sep);
      ConsSplit([sep], a[j..] + ws + b, a[j..], ReplaceSpaceRuns(b, sep), sep);
    } else {
      assert s[1..] == a[1..] + ws + b;
      ReplaceSpaceRunsSplit(a[1..], ws, b, sep);
      ConsSplit([a[0]], s[1..], a[1..], ReplaceSpaceRuns(b, sep), sep);
    }
  }
}
