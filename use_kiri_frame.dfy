/** The pure parts of the `useKiriFrame` hook: reading statistics from the
    comment lines of exported G-code, the settings `processModel` passes to
    the frame API, and the footer macros that put the statistics into the
    G-code. The regular expressions are multi-line and case-insensitive; each
    becomes a matcher at one position plus a search for the leftmost match. */
module UseKiriFrame {
  import opened Common
  import opened Text

  // ---------------------------------------------------------------------
  // Matching at one position

  /** The line terminators of JavaScript regular expressions: what `^` in
      multi-line mode follows and what `.` does not match. */
  predicate IsLineTerminator(c: char)
  {
    c == '\n' || c == '\r' || c == '\U{2028}' || c == '\U{2029}'
  }

  /** `.` */
  predicate NotLineTerminator(c: char)
  {
    !IsLineTerminator(c)
  }

  /** `^` in multi-line mode. */
  predicate LineStart(s: string, i: nat)
  {
    i == 0 || (0 < i <= |s| && IsLineTerminator(s[i - 1]))
  }

  /** `[;#]` */
  predicate IsCommentMark(c: char)
  {
    c == ';' || c == '#'
  }

  /** The lower-case word `w` at position `i`, in either case. Without the
      `u` flag only ASCII letters fold, so ASCII case mapping is exact. */
  predicate WordAt(s: string, i: nat, w: string)
  {
    i + |w| <= |s| && Lower(s[i..i + |w|]) == w
  }

  /** The patterns the hook uses: `^[;#]\s*NAME\s*[=]\s*([0-9.]+)` (with
      `[:=]` when `colonToo`, with `([0-9]+)` when `digitsOnly`), and
      `^[;#].*filament.*?([0-9.]+)\s*mm`. */
  datatype Pattern =
    | Assignment(name: string, colonToo: bool, digitsOnly: bool)
    | FilamentMm

  predicate IsSeparator(p: Pattern, c: char)
    requires p.Assignment?
  {
    c == '=' || (p.colonToo && c == ':')
  }

  /** The class of the captured characters. */
  function CaptureChar(digitsOnly: bool): char -> bool
  {
    if digitsOnly then IsDigit else IsDecimalChar
  }

  /** The capture of an assignment pattern matched at `i`. Each greedy run
      is followed by a character it cannot contain, so taking the longest
      run is the only way the match can succeed. */
  function AssignmentAt(s: string, i: nat, p: Pattern): (r: Option<string>)
    requires p.Assignment? && i <= |s|
    ensures r.Some? ==> r.value != [] && forall k | 0 <= k < |r.value| :: CaptureChar(p.digitsOnly)(r.value[k])
  {
    if !(LineStart(s, i) && i < |s| && IsCommentMark(s[i])) then None
    else
      var j := RunEnd(s, i + 1, IsSpace);
      if !WordAt(s, j, p.name) then None
      else
        var k := RunEnd(s, j + |p.name|, IsSpace);
        if !(k < |s| && IsSeparator(p, s[k])) then None
        else
          var m := RunEnd(s, k + 1, IsSpace);
          var e := RunEnd(s, m, CaptureChar(p.digitsOnly));
          RunEndFacts(s, m, CaptureChar(p.digitsOnly));
          if e == m then None else Some(s[m..e])
  }

  /** `([0-9.]+)\s*mm` at `p`: the number, when `mm` follows it. */
  function NumberMmAt(s: string, p: nat): (r: Option<string>)
    requires p <= |s|
    ensures r.Some? ==> r.value != [] && forall k | 0 <= k < |r.value| :: IsDecimalChar(r.value[k])
  {
    var e := RunEnd(s, p, IsDecimalChar);
    RunEndFacts(s, p, IsDecimalChar);
    if e > p && WordAt(s, RunEnd(s, e, IsSpace), "mm") then Some(s[p..e]) else None
  }

  /** `.*?([0-9.]+)\s*mm` from `p`: the lazy `.*?` stops at the first
      position before the line's end where the number and `mm` follow. */
  function LazyNumberMm(s: string, p: nat, end: nat): (r: Option<string>)
    requires p <= end <= |s|
    ensures r.Some? ==> r.value != [] && forall k | 0 <= k < |r.value| :: IsDecimalChar(r.value[k])
    decreases end - p
  {
    if p == end then None
    else if NumberMmAt(s, p).Some? then NumberMmAt(s, p)
    else LazyNumberMm(s, p + 1, end)
  }

  /** `.*filament` then the rest: the greedy `.*` tries the occurrences of
      `filament` from the last one on the line (at most `f`) backwards. */
  function GreedyFilament(s: string, lo: nat, f: nat, end: nat): (r: Option<string>)
    requires lo <= f && f + 8 <= end <= |s|
    ensures r.Some? ==> r.value != [] && forall k | 0 <= k < |r.value| :: IsDecimalChar(r.value[k])
    decreases f
  {
    var here := if WordAt(s, f, "filament") then LazyNumberMm(s, f + 8, end) else None;
    if here.Some? then here
    else if f == lo then None
    else GreedyFilament(s, lo, f - 1, end)
  }

  /** The capture of the filament pattern matched at `i`. */
  function FilamentAt(s: string, i: nat): (r: Option<string>)
    requires i <= |s|
    ensures r.Some? ==> r.value != [] && forall k | 0 <= k < |r.value| :: IsDecimalChar(r.value[k])
  {
    if !(LineStart(s, i) && i < |s| && IsCommentMark(s[i])) then None
    else
      var end := RunEnd(s, i + 1, NotLineTerminator);
      if end < i + 1 + 8 then None else GreedyFilament(s, i + 1, end - 8, end)
  }

  function MatchAt(s: string, i: nat, p: Pattern): (r: Option<string>)
    requires i <= |s|
    ensures r.Some? ==> r.value != [] && forall k | 0 <= k < |r.value| :: IsDecimalChar(r.value[k])
    ensures r.Some? && p.Assignment? && p.digitsOnly ==> forall k | 0 <= k < |r.value| :: IsDigit(r.value[k])
  {
    if p.Assignment? then AssignmentAt(s, i, p) else FilamentAt(s, i)
  }

  // ---------------------------------------------------------------------
  // The leftmost match

  /** Where `s.match(pattern)` matches first, searching from `i`. */
  function FirstMatch(s: string, i: nat, p: Pattern): (r: Option<nat>)
    requires i <= |s|
    ensures r.Some? ==> i <= r.value <= |s| && MatchAt(s, r.value, p).Some?
    ensures r.Some? ==> forall k | i <= k < r.value :: MatchAt(s, k, p).None?
    ensures r.None? <==> forall k | i <= k <= |s| :: MatchAt(s, k, p).None?
    decreases |s| - i
  {
    if MatchAt(s, i, p).Some? then Some(i)
    else if i == |s| then None
    else FirstMatch(s, i + 1, p)
  }

  /** The capture group of `s.match(pattern)`, `None` for `null`. */
  function Capture(s: string, p: Pattern): (r: Option<string>)
    ensures r.Some? <==> exists k | 0 <= k <= |s| :: MatchAt(s, k, p).Some?
    ensures r.Some? ==> r.value != [] && forall k | 0 <= k < |r.value| :: IsDecimalChar(r.value[k])
    ensures r.Some? && p.Assignment? && p.digitsOnly ==> AllDigits(r.value)
  {
    var k := FirstMatch(s, 0, p);
    if k.Some? then MatchAt(s, k.value, p) else None
  }

  /** The leftmost match is at `k` when it matches there and nowhere
      before. */
  lemma CaptureAt(s: string, p: Pattern, k: nat)
    requires k <= |s| && MatchAt(s, k, p).Some?
    requires forall j | 0 <= j < k :: MatchAt(s, j, p).None?
    ensures Capture(s, p) == MatchAt(s, k, p)
  {
  }

  // ---------------------------------------------------------------------
  // Statistics

  /** `{ timeSec, filamentMM, layers }`, `None` for `null`. */
  datatype GcodeStats = GcodeStats(timeSec: Option<JsNumber>, filamentMM: Option<JsNumber>, layers: Option<JsNumber>)

  const TimeMacro := Assignment("time", false, false)
  const TimeTag := Assignment("time", true, false)
  const MaterialMacro := Assignment("material", false, false)
  const LayersMacro := Assignment("layers", false, true)

  /** `m1 || m2` on the first matches of two patterns. */
  function FirstCapture(s: string, a: Pattern, b: Pattern): (r: Option<string>)
    ensures r.Some? <==> Capture(s, a).Some? || Capture(s, b).Some?
    ensures Capture(s, a).Some? ==> r == Capture(s, a)
    ensures Capture(s, a).None? ==> r == Capture(s, b)
    ensures r.Some? ==> r.value != [] && forall k | 0 <= k < |r.value| :: IsDecimalChar(r.value[k])
  {
    var m := Capture(s, a);
    if m.Some? then m else Capture(s, b)
  }

  /** `Number(m[1])` of a capture, `null` without one; a run of decimal
      characters never spells a negative number. */
  function NumberOfCapture(c: Option<string>): (r: Option<JsNumber>)
    requires c.Some? ==> forall k | 0 <= k < |c.value| :: IsDecimalChar(c.value[k])
    ensures r.Some? <==> c.Some?
    ensures r.Some? && r.value.Finite? ==> r.value.v >= 0.0
  {
    if c.Some? then Some(NumberOf(c.value)) else None
  }

  /** `Number` of a string of digits is the number they spell. */
  lemma DigitsNumber(d: string)
    requires d != [] && AllDigits(d)
    ensures NumberOf(d) == Finite(DigitsValue(d) as real)
  {
    RunEndAt(d, 0, |d|, IsDigit);
    ParseDigits(d);
  }

  /** `parseGcodeStats`: each statistic is `null` unless a comment line
      matches. Time comes from the `time=` macro, else from a `TIME:` or
      `TIME=` tag; material from the `material=` macro, else from the first
      comment line mentioning filament followed by a number and `mm`;
      layers only from the `layers=` macro, and are then a whole number. */
  function ParseGcodeStats(gcode: string): (r: GcodeStats)
    ensures r.timeSec.Some? <==> Capture(gcode, TimeMacro).Some? || Capture(gcode, TimeTag).Some?
    ensures Capture(gcode, TimeMacro).Some? ==> r.timeSec == NumberOfCapture(Capture(gcode, TimeMacro))
    ensures r.filamentMM.Some? <==> Capture(gcode, MaterialMacro).Some? || Capture(gcode, FilamentMm).Some?
    ensures Capture(gcode, TimeMacro).None? ==> r.timeSec == NumberOfCapture(Capture(gcode, TimeTag))
    ensures Capture(gcode, MaterialMacro).Some? ==> r.filamentMM == NumberOfCapture(Capture(gcode, MaterialMacro))
    ensures Capture(gcode, MaterialMacro).None? ==> r.filamentMM == NumberOfCapture(Capture(gcode, FilamentMm))
    ensures r.layers.Some? <==> Capture(gcode, LayersMacro).Some?
    ensures r.layers.Some? ==> r.layers.value.Finite? && r.layers.value.v >= 0.0 && Floor(r.layers.value.v) as real == r.layers.value.v
    ensures r.timeSec.Some? && r.timeSec.value.Finite? ==> r.timeSec.value.v >= 0.0
    ensures r.filamentMM.Some? && r.filamentMM.value.Finite? ==> r.filamentMM.value.v >= 0.0
  {
    var layers := Capture(gcode, LayersMacro);
    assert layers.Some? ==> NumberOf(layers.value) == Finite(DigitsValue(layers.value) as real) by {
      if layers.Some? {
        DigitsNumber(layers.value);
      }
    }
    GcodeStats(
      NumberOfCapture(FirstCapture(gcode, TimeMacro, TimeTag)),
      NumberOfCapture(FirstCapture(gcode, MaterialMacro, FilamentMm)),
      NumberOfCapture(layers))
  }

  /** A comment line naming the filament and its length in millimetres. */
  function FilamentLine(d: string): string
  {
    "; filament " + d + " mm"
  }

  /** Going back from `f` to `g` past no occurrence of `filament`, the
      greedy `.*filament` finds what it finds starting from `g`. */
  lemma {:induction false} GreedySkips(s: string, lo: nat, f: nat, g: nat, end: nat, v: Option<string>)
    requires lo <= g <= f && f + 8 <= end <= |s|
    requires forall t | g < t <= f :: s[t] != 'f' && s[t] != 'F'
    requires GreedyFilament(s, lo, g, end) == v
    ensures GreedyFilament(s, lo, f, end) == v
    decreases f
  {
    if g < f {
      assert Lower(s[f..f + 8])[0] == LowerChar(s[f]) != "filament"[0];
      assert !WordAt(s, f, "filament");
      assert GreedyFilament(s, lo, f, end) == GreedyFilament(s, lo, f - 1, end);
      GreedySkips(s, lo, f - 1, g, end, v);
    }
  }

  /** The characters of `; filament d mm` as the steps of the filament
      pattern see them. */
  lemma FilamentLineChars(d: string)
    requires AllDigits(d)
    ensures var w, n := FilamentLine(d), |d|;
      && |w| == 14 + n && w[0] == ';' && w[10] == ' ' && w[11 + n] == ' ' && w[12 + n] == 'm'
      && w[2..10] == "filament" && w[11..11 + n] == d && w[12 + n..] == "mm"
      && (forall t | 0 <= t < |w| :: NotLineTerminator(w[t]))
      && (forall t | 2 < t < |w| :: w[t] != 'f' && w[t] != 'F')
  {
    var w := FilamentLine(d);
    var p, q := "; filament ", " mm";
    assert w == p + d + q;
    forall t | 0 <= t < |w|
      ensures NotLineTerminator(w[t]) && (2 < t ==> w[t] != 'f' && w[t] != 'F')
    {
      if t < 11 {
        assert w[t] == p[t];
      } else if t < 11 + |d| {
        assert w[t] == d[t - 11];
      } else {
        assert w[t] == q[t - 11 - |d|];
      }
    }
  }

  /** At `i` starts a comment line of `14 + n` characters, ended by a
      line break or by the end of the text. */
  predicate CommentLine(s: string, i: nat, n: nat)
  {
    && i + 14 + n <= |s| && LineStart(s, i) && s[i] == ';'
    && (i + 14 + n < |s| ==> !NotLineTerminator(s[i + 14 + n]))
    && (forall t | i + 1 <= t < i + 14 + n :: NotLineTerminator(s[t]))
  }

  /** After the word `filament` at `i + 2` the line holds no further `f`. */
  predicate NoLaterF(s: string, i: nat, n: nat)
  {
    && i + 14 + n <= |s|
    && (forall t | i + 2 < t < i + 14 + n :: s[t] != 'f' && s[t] != 'F')
  }

  /** The line at `i` reads `; filament <n digits> mm`, in any letter case,
      from its third character on. */
  predicate FilamentWords(s: string, i: nat, n: nat)
  {
    && n > 0 && i + 14 + n <= |s|
    && WordAt(s, i + 2, "filament")
    && s[i + 10] == ' ' && s[i + 11 + n] == ' ' && s[i + 12 + n] == 'm' && WordAt(s, i + 12 + n, "mm")
    && (forall t | i + 11 <= t < i + 11 + n :: IsDigit(s[t]))
  }

  /** `.*?([0-9.]+)\s*mm` from the space after the word `filament`: the
      lazy `.*?` skips that space and stops at the digits before ` mm`. */
  lemma NumberAfterWord(s: string, i: nat, n: nat)
    requires FilamentWords(s, i, n)
    ensures LazyNumberMm(s, i + 10, i + 14 + n) == Some(s[i + 11..i + 11 + n])
  {
    var p := i + 10;
    RunEndAt(s, p + 1, p + 1 + n, IsDecimalChar);
    RunEndAt(s, p + 1 + n, p + 2 + n, IsSpace);
    assert NumberMmAt(s, p + 1) == Some(s[p + 1..p + 1 + n]);
    RunEndAt(s, p, p, IsDecimalChar);
    assert NumberMmAt(s, p).None?;
  }

  /** From the word `filament` itself the rest of the pattern matches. */
  lemma GreedyAtWord(s: string, i: nat, n: nat)
    requires FilamentWords(s, i, n)
    ensures GreedyFilament(s, i + 1, i + 2, i + 14 + n) == Some(s[i + 11..i + 11 + n])
  {
    NumberAfterWord(s, i, n);
  }

  /** On such a line the greedy `.*filament` backs off to the word
      `filament` after the comment mark, and the rest of the pattern
      matches from there. */
  lemma FilamentGreedy(s: string, i: nat, n: nat)
    requires NoLaterF(s, i, n) && FilamentWords(s, i, n)
    ensures GreedyFilament(s, i + 1, i + 6 + n, i + 14 + n) == Some(s[i + 11..i + 11 + n])
  {
    GreedyAtWord(s, i, n);
    GreedySkips(s, i + 1, i + 6 + n, i + 2, i + 14 + n, Some(s[i + 11..i + 11 + n]));
  }

  /** Placed between line breaks, a line of characters that are no line
      terminators and starts with `;` is a comment line. */
  lemma CommentLineAt(pre: string, w: string, post: string, n: nat)
    requires pre == [] || pre[|pre| - 1] == '\n'
    requires post == [] || post[0] == '\n'
    requires |w| == 14 + n && w[0] == ';'
    requires forall t | 0 <= t < |w| :: NotLineTerminator(w[t])
    ensures CommentLine(pre + w + post, |pre|, n)
  {
    var s, i := pre + w + post, |pre|;
    assert forall t | 0 <= t < |w| :: s[i + t] == w[t];
  }

  /** Embedded in a text, a line keeps the absence of a later `f`. */
  lemma NoLaterFAt(pre: string, w: string, post: string, n: nat)
    requires |w| == 14 + n
    requires forall t | 2 < t < |w| :: w[t] != 'f' && w[t] != 'F'
    ensures NoLaterF(pre + w + post, |pre|, n)
  {
    var s, i := pre + w + post, |pre|;
    assert forall t | 0 <= t < |w| :: s[i + t] == w[t];
  }

  /** Embedded in a text, a line keeps its words and digits. */
  lemma FilamentWordsAt(pre: string, w: string, post: string, n: nat)
    requires n > 0 && |w| == 14 + n && w[10] == ' ' && w[11 + n] == ' ' && w[12 + n] == 'm'
    requires w[2..10] == "filament" && w[12 + n..] == "mm" && AllDigits(w[11..11 + n])
    ensures FilamentWords(pre + w + post, |pre|, n)
    ensures (pre + w + post)[|pre| + 11..|pre| + 11 + n] == w[11..11 + n]
  {
    var s, i := pre + w + post, |pre|;
    assert s[i..i + |w|] == w;
    assert s[i + 2..i + 10] == w[2..10] && s[i + 12 + n..i + 14 + n] == w[12 + n..];
    assert Lower("filament") == "filament" && Lower("mm") == "mm";
    assert s[i + 11..i + 11 + n] == w[11..11 + n];
    forall t | i + 11 <= t < i + 11 + n
      ensures IsDigit(s[t])
    {
      assert s[t] == w[11..11 + n][t - i - 11];
    }
  }

  /** Between line breaks, `; filament <digits> mm` has the shape the
      steps of the filament pattern need. */
  lemma FilamentLineShaped(pre: string, d: string, post: string)
    requires pre == [] || pre[|pre| - 1] == '\n'
    requires post == [] || post[0] == '\n'
    requires d != [] && AllDigits(d)
    ensures var s, i, n := pre + FilamentLine(d) + post, |pre|, |d|;
      && CommentLine(s, i, n) && NoLaterF(s, i, n) && FilamentWords(s, i, n)
      && s[i + 11..i + 11 + n] == d
  {
    var w, n := FilamentLine(d), |d|;
    FilamentLineChars(d);
    CommentLineAt(pre, w, post, n);
    NoLaterFAt(pre, w, post, n);
    FilamentWordsAt(pre, w, post, n);
  }

  /** The steps of the filament pattern at `i`: the comment mark starts
      a line, `.*` runs to the line's end at `i + 14 + n`, and the greedy
      `.*filament`, backing off from there, captures `n` characters. */
  predicate FilamentRun(s: string, i: nat, n: nat)
  {
    && i + 14 + n <= |s| && LineStart(s, i) && IsCommentMark(s[i])
    && RunEnd(s, i + 1, NotLineTerminator) == i + 14 + n
    && GreedyFilament(s, i + 1, i + 6 + n, i + 14 + n) == Some(s[i + 11..i + 11 + n])
  }

  /** On a line of the filament shape the steps go as `FilamentRun` says. */
  lemma FilamentSteps(s: string, i: nat, n: nat)
    requires CommentLine(s, i, n) && NoLaterF(s, i, n) && FilamentWords(s, i, n)
    ensures FilamentRun(s, i, n)
  {
    RunEndAt(s, i + 1, i + 14 + n, NotLineTerminator);
    FilamentGreedy(s, i, n);
  }

  /** Those steps make the filament pattern match at `i`. */
  lemma FilamentRunMatches(s: string, i: nat, n: nat)
    requires FilamentRun(s, i, n)
    ensures FilamentAt(s, i) == Some(s[i + 11..i + 11 + n])
  {
  }

  /** `; filament <digits> mm` between line breaks goes through those
      steps. */
  lemma FilamentLineRuns(pre: string, d: string, post: string)
    requires pre == [] || pre[|pre| - 1] == '\n'
    requires post == [] || post[0] == '\n'
    requires d != [] && AllDigits(d)
    ensures FilamentRun(pre + FilamentLine(d) + post, |pre|, |d|)
    ensures (pre + FilamentLine(d) + post)[|pre| + 11..|pre| + 11 + |d|] == d
  {
    FilamentLineShaped(pre, d, post);
    FilamentSteps(pre + FilamentLine(d) + post, |pre|, |d|);
  }

  /** A line `; filament <digits> mm` at a line start matches the filament
      pattern and captures the digits: the only `filament` of the line is
      the one the greedy `.*` falls back to, and the lazy `.*?` stops at the
      first number followed by `mm`. */
  lemma FilamentLineMatches(pre: string, d: string, post: string)
    requires pre == [] || pre[|pre| - 1] == '\n'
    requires post == [] || post[0] == '\n'
    requires d != [] && AllDigits(d)
    ensures MatchAt(pre + FilamentLine(d) + post, |pre|, FilamentMm) == Some(d)
  {
    FilamentLineRuns(pre, d, post);
    FilamentRunMatches(pre + FilamentLine(d) + post, |pre|, |d|);
  }

  /** Without a `material=` macro, the first comment line giving the
      filament as a whole number of millimetres sets the filament length. */
  lemma FilamentFallback(pre: string, d: string, post: string)
    requires pre == [] || pre[|pre| - 1] == '\n'
    requires post == [] || post[0] == '\n'
    requires d != [] && AllDigits(d)
    requires forall k | 0 <= k < |pre| :: MatchAt(pre + FilamentLine(d) + post, k, FilamentMm).None?
    requires Capture(pre + FilamentLine(d) + post, MaterialMacro).None?
    ensures ParseGcodeStats(pre + FilamentLine(d) + post).filamentMM == Some(Finite(DigitsValue(d) as real))
  {
    var s := pre + FilamentLine(d) + post;
    FilamentLineMatches(pre, d, post);
    CaptureAt(s, FilamentMm, |pre|);
    DigitsNumber(d);
  }

  // ---------------------------------------------------------------------
  // Footer macros

  const FooterLines := ["; time={time}", "; material={material}", "; layers={layers}"]

  /** The G-code footer `processModel` configures. */
  function Footer(): (r: string)
    ensures Lines(r) == FooterLines
  {
    LinesOfJoinLines(FooterLines);
    JoinLines(FooterLines)
  }

  /** A footer line once the frame has replaced its `{name}` macro by a
      whole number. */
  function FilledLine(name: string, v: nat): string
  {
    "; " + name + "=" + NatToString(v)
  }

  /** The footer as exported, with the three statistics filled in. */
  function Filled(time: nat, material: nat, layers: nat): string
  {
    JoinLines([FilledLine("time", time), FilledLine("material", material), FilledLine("layers", layers)])
  }

  predicate IsLowerWord(w: string)
  {
    w != [] && forall k | 0 <= k < |w| :: 'a' <= w[k] <= 'z'
  }

  /** An assignment pattern matches at `i` when each of its steps does. */
  lemma AssignmentSteps(s: string, i: nat, p: Pattern, j: nat, m: nat, e: nat)
    requires p.Assignment? && i < |s| && LineStart(s, i) && IsCommentMark(s[i])
    requires RunEnd(s, i + 1, IsSpace) == j && WordAt(s, j, p.name)
    requires RunEnd(s, j + |p.name|, IsSpace) == j + |p.name| && m == j + |p.name| + 1
    requires j + |p.name| < |s| && IsSeparator(p, s[j + |p.name|])
    requires RunEnd(s, m, IsSpace) == m && RunEnd(s, m, CaptureChar(p.digitsOnly)) == e && m < e
    ensures AssignmentAt(s, i, p) == Some(s[m..e])
  {
  }

  /** An assignment `; name=digits` at a line start matches its pattern
      and captures the digits. */
  lemma {:induction false} AssignmentLineMatches(s: string, i: nat, d: string, p: Pattern)
    requires p.Assignment? && IsLowerWord(p.name) && d != [] && AllDigits(d)
    requires LineStart(s, i) && i + 3 + |p.name| + |d| <= |s|
    requires s[i] == ';' && s[i + 1] == ' ' && s[i + 2..i + 2 + |p.name|] == p.name && s[i + 2 + |p.name|] == '='
    requires s[i + 3 + |p.name|..i + 3 + |p.name| + |d|] == d
    requires i + 3 + |p.name| + |d| < |s| ==> s[i + 3 + |p.name| + |d|] == '\n'
    ensures MatchAt(s, i, p) == Some(d)
  {
    var j := i + 2;
    var k := j + |p.name|;
    var m := k + 1;
    var e := m + |d|;
    assert s[j] == p.name[0];
    RunEndAt(s, i + 1, j, IsSpace);
    assert Lower(p.name) == p.name;
    RunEndAt(s, k, k, IsSpace);
    assert s[m] == d[0];
    RunEndAt(s, m, m, IsSpace);
    assert forall t | m <= t < e :: s[t] == d[t - m];
    RunEndAt(s, m, e, CaptureChar(p.digitsOnly));
    AssignmentSteps(s, i, p, j, m, e);
  }

  /** The characters of `; name=d` placed after `pre` and before `post`. */
  lemma AssignmentLineShape(pre: string, name: string, d: string, post: string)
    requires pre == [] || pre[|pre| - 1] == '\n'
    requires post == [] || post[0] == '\n'
    ensures var s, i := pre + ("; " + name + "=" + d) + post, |pre|;
      && |s| == i + 3 + |name| + |d| + |post| && LineStart(s, i)
      && s[i] == ';' && s[i + 1] == ' ' && s[i + 2 + |name|] == '='
      && s[i + 2..i + 2 + |name|] == name && s[i + 3 + |name|..i + 3 + |name| + |d|] == d
      && (i + 3 + |name| + |d| < |s| ==> s[i + 3 + |name| + |d|] == '\n')
  {
    var s, i := pre + ("; " + name + "=" + d) + post, |pre|;
    assert s[i + 2..i + 2 + |name|] == name by {
      assert forall t | 0 <= t < |name| :: s[i + 2 + t] == name[t];
    }
    assert s[i + 3 + |name|..i + 3 + |name| + |d|] == d by {
      assert forall t | 0 <= t < |d| :: s[i + 3 + |name| + t] == d[t];
    }
  }

  /** A filled line matches the assignment pattern of its own name, and
      captures the number. */
  lemma {:induction false} FilledLineMatches(pre: string, name: string, v: nat, post: string, p: Pattern)
    requires p.Assignment? && p.name == name && IsLowerWord(name)
    requires pre == [] || pre[|pre| - 1] == '\n'
    requires post == [] || post[0] == '\n'
    ensures MatchAt(pre + FilledLine(name, v) + post, |pre|, p) == Some(NatToString(v))
  {
    var d := NatToString(v);
    AssignmentLineShape(pre, name, d, post);
    AssignmentLineMatches(pre + FilledLine(name, v) + post, |pre|, d, p);
  }

  /** A filled line does not match the pattern of a name with another
      first letter. */
  lemma {:induction false} FilledLineOtherName(pre: string, name: string, v: nat, post: string, p: Pattern)
    requires p.Assignment? && p.name != [] && IsLowerWord(name) && p.name[0] != name[0]
    ensures MatchAt(pre + FilledLine(name, v) + post, |pre|, p).None?
  {
    var s := pre + FilledLine(name, v) + post;
    var i := |pre|;
    var j := i + 2;
    assert s == pre + "; " + name + "=" + NatToString(v) + post;
    assert s[i + 1] == ' ' && s[j] == name[0];
    RunEndAt(s, i + 1, j, IsSpace);
    if j + |p.name| <= |s| {
      assert Lower(s[j..j + |p.name|])[0] == name[0];
    }
  }

  /** Inside a line without terminators no position is a line start, so
      nothing matches there. */
  lemma InsideLineFails(pre: string, line: string, post: string, p: Pattern)
    requires forall k | 0 <= k < |line| :: !IsLineTerminator(line[k])
    ensures forall k | |pre| < k <= |pre| + |line| :: MatchAt(pre + line + post, k, p).None?
  {
    forall k | |pre| < k <= |pre| + |line|
      ensures MatchAt(pre + line + post, k, p).None?
    {
      assert (pre + line + post)[k - 1] == line[k - 1 - |pre|];
    }
  }

  lemma FilledLineSingle(name: string, v: nat)
    requires IsLowerWord(name)
    ensures forall k | 0 <= k < |FilledLine(name, v)| :: !IsLineTerminator(FilledLine(name, v)[k])
  {
    var d := NatToString(v);
    assert FilledLine(name, v) == "; " + name + "=" + d;
    forall k | 0 <= k < |FilledLine(name, v)|
      ensures !IsLineTerminator(FilledLine(name, v)[k])
    {
      if k >= 3 + |name| {
        assert FilledLine(name, v)[k] == d[k - 3 - |name|];
      }
    }
  }

  lemma StatNamesAreWords()
    ensures IsLowerWord("time") && IsLowerWord("material") && IsLowerWord("layers")
  {
  }

  /** The filled footer is its three lines with line breaks between. */
  lemma FilledJoin(time: nat, material: nat, layers: nat)
    ensures Filled(time, material, layers)
      == FilledLine("time", time) + "\n" + FilledLine("material", material) + "\n" + FilledLine("layers", layers)
  {
    var l1, l2, l3 := FilledLine("time", time), FilledLine("material", material), FilledLine("layers", layers);
    var ls := [l1, l2, l3];
    assert ls[1..] == [l2, l3];
    assert [l2, l3][1..] == [l3];
    assert JoinLines([l2, l3]) == l2 + "\n" + l3;
    assert l1 + "\n" + (l2 + "\n" + l3) == l1 + "\n" + l2 + "\n" + l3;
  }

  /** The filled footer, split at its first, second and third line. */
  lemma FilledFirst(time: nat, material: nat, layers: nat)
    ensures Filled(time, material, layers)
      == [] + FilledLine("time", time) + ("\n" + FilledLine("material", material) + "\n" + FilledLine("layers", layers))
  {
    FilledJoin(time, material, layers);
    var l1, l2, l3 := FilledLine("time", time), FilledLine("material", material), FilledLine("layers", layers);
    assert [] + l1 + ("\n" + l2 + "\n" + l3) == l1 + "\n" + l2 + "\n" + l3;
  }

  lemma FilledSecond(time: nat, material: nat, layers: nat)
    ensures Filled(time, material, layers)
      == (FilledLine("time", time) + "\n") + FilledLine("material", material) + ("\n" + FilledLine("layers", layers))
  {
    FilledJoin(time, material, layers);
    var l1, l2, l3 := FilledLine("time", time), FilledLine("material", material), FilledLine("layers", layers);
    assert (l1 + "\n") + l2 + ("\n" + l3) == l1 + "\n" + l2 + "\n" + l3;
  }

  lemma FilledThird(time: nat, material: nat, layers: nat)
    ensures Filled(time, material, layers)
      == (FilledLine("time", time) + "\n" + FilledLine("material", material) + "\n") + FilledLine("layers", layers) + []
  {
    FilledJoin(time, material, layers);
    var l1, l2, l3 := FilledLine("time", time), FilledLine("material", material), FilledLine("layers", layers);
    assert (l1 + "\n" + l2 + "\n") + l3 + [] == l1 + "\n" + l2 + "\n" + l3;
  }

  /** Nothing at or inside a filled line matches a pattern whose name
      starts with another letter. */
  lemma FilledLineFails(pre: string, name: string, v: nat, post: string, p: Pattern)
    requires p.Assignment? && p.name != [] && IsLowerWord(name) && p.name[0] != name[0]
    ensures forall k | |pre| <= k <= |pre| + |FilledLine(name, v)| :: MatchAt(pre + FilledLine(name, v) + post, k, p).None?
  {
    FilledLineSingle(name, v);
    FilledLineOtherName(pre, name, v, post, p);
    InsideLineFails(pre, FilledLine(name, v), post, p);
  }

  lemma FilledTime(time: nat, material: nat, layers: nat)
    ensures Capture(Filled(time, material, layers), TimeMacro) == Some(NatToString(time))
  {
    var post1 := "\n" + FilledLine("material", material) + "\n" + FilledLine("layers", layers);
    StatNamesAreWords();
    FilledFirst(time, material, layers);
    FilledLineMatches([], "time", time, post1, TimeMacro);
    CaptureAt(Filled(time, material, layers), TimeMacro, 0);
  }

  lemma FilledMaterial(time: nat, material: nat, layers: nat)
    ensures Capture(Filled(time, material, layers), MaterialMacro) == Some(NatToString(material))
  {
    var post1 := "\n" + FilledLine("material", material) + "\n" + FilledLine("layers", layers);
    var pre2, post2 := FilledLine("time", time) + "\n", "\n" + FilledLine("layers", layers);
    StatNamesAreWords();
    FilledFirst(time, material, layers);
    FilledLineFails([], "time", time, post1, MaterialMacro);
    FilledSecond(time, material, layers);
    FilledLineMatches(pre2, "material", material, post2, MaterialMacro);
    CaptureAt(Filled(time, material, layers), MaterialMacro, |pre2|);
  }

  lemma FilledLayers(time: nat, material: nat, layers: nat)
    ensures Capture(Filled(time, material, layers), LayersMacro) == Some(NatToString(layers))
  {
    var post1 := "\n" + FilledLine("material", material) + "\n" + FilledLine("layers", layers);
    var pre2, post2 := FilledLine("time", time) + "\n", "\n" + FilledLine("layers", layers);
    var pre3 := FilledLine("time", time) + "\n" + FilledLine("material", material) + "\n";
    StatNamesAreWords();
    FilledFirst(time, material, layers);
    FilledLineFails([], "time", time, post1, LayersMacro);
    FilledSecond(time, material, layers);
    FilledLineFails(pre2, "material", material, post2, LayersMacro);
    FilledThird(time, material, layers);
    FilledLineMatches(pre3, "layers", layers, [], LayersMacro);
    CaptureAt(Filled(time, material, layers), LayersMacro, |pre3|);
  }

  /** The footer round trip: G-code whose footer the frame filled in reads
      back exactly the three numbers it wrote. */
  lemma {:induction false} FooterRoundTrip(time: nat, material: nat, layers: nat)
    ensures ParseGcodeStats(Filled(time, material, layers))
      == GcodeStats(Some(Finite(time as real)), Some(Finite(material as real)), Some(Finite(layers as real)))
  {
    FilledTime(time, material, layers);
    FilledMaterial(time, material, layers);
    FilledLayers(time, material, layers);
    ParseNatToString(time);
    ParseNatToString(material);
    ParseNatToString(layers);
  }

  // ---------------------------------------------------------------------
  // processModel's settings

  /** The parameters `processModel` reads; `None` is `null` or undefined. */
  datatype ModelParams = ModelParams(layerHeight: Option<real>, nozzle: Option<real>, infillPct: Option<real>, filamentDiameter: Option<real>)

  /** What `processModel` passes to `setDevice` and `setProcess`. */
  datatype FrameSetup = FrameSetup(
    footer: string, extruders: nat, filamentDiameter: real,
    sliceHeight: real, nozzle: real, sparse: real, firstLayerHeight: real)

  /** The infill fraction: the percentage (20 when missing) over 100,
      clamped to [0, 1]. */
  function Sparse(infillPct: Option<real>): (r: real)
    ensures 0.0 <= r <= 1.0
    ensures infillPct.None? ==> r == 0.2
    ensures infillPct.Some? && 0.0 <= infillPct.value <= 100.0 ==> r * 100.0 == infillPct.value
    ensures infillPct.Some? && infillPct.value < 0.0 ==> r == 0.0
    ensures infillPct.Some? && infillPct.value > 100.0 ==> r == 1.0
  {
    var x := OrElse(infillPct, 20.0) / 100.0;
    var capped := if x < 1.0 then x else 1.0;
    if capped > 0.0 then capped else 0.0
  }

  /** The settings of `processModel`: it fails, configuring nothing, unless
      the frame is ready and its API loaded; otherwise the footer carries the
      three macros, the first layer is as high as the others, and missing
      parameters default to 0.2 mm layers, a 0.4 mm nozzle and 1.75 mm
      filament. */
  function ProcessModelSetup(ready: bool, hasApi: bool, params: ModelParams): (r: Result<FrameSetup, string>)
    ensures r.Err? <==> !ready || !hasApi
    ensures r.Err? ==> r.error == "Kiri not ready"
    ensures r.Ok? ==> Lines(r.value.footer) == FooterLines && r.value.extruders == 1
    ensures r.Ok? ==> r.value.sliceHeight == r.value.firstLayerHeight
    ensures r.Ok? ==> r.value.sparse == Sparse(params.infillPct) && 0.0 <= r.value.sparse <= 1.0
    ensures r.Ok? && params.layerHeight.None? ==> r.value.sliceHeight == 0.2
    ensures r.Ok? && params.layerHeight.Some? ==> r.value.sliceHeight == params.layerHeight.value
    ensures r.Ok? && params.nozzle.None? ==> r.value.nozzle == 0.4
    ensures r.Ok? && params.nozzle.Some? ==> r.value.nozzle == params.nozzle.value
    ensures r.Ok? && params.filamentDiameter.None? ==> r.value.filamentDiameter == 1.75
    ensures r.Ok? && params.filamentDiameter.Some? ==> r.value.filamentDiameter == params.filamentDiameter.value
  {
    if !ready || !hasApi then Err("Kiri not ready")
    else
      var height := OrElse(params.layerHeight, 0.2);
      Ok(FrameSetup(Footer(), 1, OrElse(params.filamentDiameter, 1.75),
        height, OrElse(params.nozzle, 0.4), Sparse(params.infillPct), height))
  }

  /** `parseGcodeStats(gcode || '')`: the statistics `processModel` returns
      with the exported G-code; without G-code every statistic is `null`. */
  function ExportedStats(gcode: Option<string>): (r: GcodeStats)
    ensures gcode.None? ==> r == GcodeStats(None, None, None)
    ensures gcode.Some? ==> r == ParseGcodeStats(gcode.value)
    ensures gcode.Some? ==> (r.layers.Some? <==> Capture(gcode.value, LayersMacro).Some?)
  {
    var text := OrElse(gcode, "");
    assert text == [] ==> forall p: Pattern :: MatchAt(text, 0, p).None?;
    ParseGcodeStats(text)
  }
}
