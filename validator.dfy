/**
 * The reply parser of the validator agent: it reads the four sub-scores, the
 * total and the one-line verdict out of the evaluator's free text, never
 * throws, and decides `passed` from the reported total alone.
 *
 * Numbers are exact decimals (`real`); `parseFloat` is modelled on the only
 * characters a capture of `[\d.]+` can hold.
 */
module Validator {
  import opened Types

  const MIN_PASS_SCORE: real := 8.0
  const VERDICT_FALLBACK: string := "Verdict not found."
  const ERROR_FEEDBACK: string := "Script validation failed due to an error."
  const VERDICT_LABEL: string := "VERDICT:"

  /** `\d` (without the `u` flag: ASCII digits only). */
  predicate IsDigit(c: char)
  {
    '0' <= c <= '9'
  }

  /** The character class `[\d.]`. */
  predicate IsNumeral(c: char)
  {
    IsDigit(c) || c == '.'
  }

  /** `.` in a regular expression without the `s` flag. */
  predicate IsLineChar(c: char)
  {
    !IsLineTerminator(c)
  }

  /** The character classes the two regular expressions use: `\s`, `\d`, `[\d.]` and `.`. */
  datatype CharClass = Space | Digit | Numeral | LineChar

  predicate InClass(c: char, cls: CharClass)
  {
    match cls
    case Space => IsSpace(c)
    case Digit => IsDigit(c)
    case Numeral => IsNumeral(c)
    case LineChar => IsLineChar(c)
  }

  /** Length of the longest run of characters of class `cls` that starts at `i` (a greedy `cls*`). */
  function RunLength(s: string, i: nat, cls: CharClass): (n: nat)
    requires i <= |s|
    ensures i + n <= |s|
    ensures forall j | i <= j < i + n :: InClass(s[j], cls)
    ensures i + n == |s| || !InClass(s[i + n], cls)
    decreases |s| - i
  {
    if i < |s| && InClass(s[i], cls) then 1 + RunLength(s, i + 1, cls) else 0
  }

  // ---------------------------------------------------------------------
  // scoreRegex(name) = /name:\s*\[\s*([\d.]+)\s*\]/ and String.match
  // ---------------------------------------------------------------------

  /** Where `\s*` starting at `i` stops. */
  function SkipSpace(s: string, i: nat): (j: nat)
    requires i <= |s|
    ensures i <= j <= |s|
    ensures forall k | i <= k < j :: IsSpace(s[k])
    ensures j == |s| || !IsSpace(s[j])
  {
    i + RunLength(s, i, Space)
  }

  /** The capture of `([\d.]+)\s*\]` when it matches starting exactly at `start`. */
  function CaptureAt(s: string, start: nat): (m: Option<string>)
    requires start <= |s|
    ensures m.Some? ==> |m.value| > 0 && forall i | 0 <= i < |m.value| :: IsNumeral(m.value[i])
  {
    var len := RunLength(s, start, Numeral);
    var close := SkipSpace(s, start + len);
    if len == 0 || close == |s| || s[close] != ']' then None
    else Some(s[start..start + len])
  }

  /** The capture of `\[\s*([\d.]+)\s*\]` when it matches starting exactly at `open`. */
  function BracketAt(s: string, open: nat): (m: Option<string>)
    requires open <= |s|
    ensures m.Some? ==> |m.value| > 0 && forall i | 0 <= i < |m.value| :: IsNumeral(m.value[i])
  {
    if open == |s| || s[open] != '[' then None else CaptureAt(s, SkipSpace(s, open + 1))
  }

  /**
   * The capture of `name:\s*\[\s*([\d.]+)\s*\]` when the pattern matches
   * starting exactly at position `p`. The pattern has no lookbehind, so this
   * depends only on the text from `p` on.
   */
  function FieldAt(s: string, name: string, p: nat): (m: Option<string>)
    requires p <= |s|
    ensures m.Some? ==> OccursAt(s, name + ":", p)
    ensures m.Some? ==> |m.value| > 0 && forall i | 0 <= i < |m.value| :: IsNumeral(m.value[i])
  {
    var m := LeadingField(s[p..], name);
    assert m.Some? ==> s[p..][..|name| + 1] == s[p..p + |name| + 1];
    m
  }

  /**
   * The capture when the pattern matches at the very start of `t`. Every
   * quantifier in the pattern is followed by a character its class excludes,
   * so greedy matching never backtracks and the match is unique.
   */
  function LeadingField(t: string, name: string): (m: Option<string>)
    ensures m.Some? ==> OccursAt(t, name + ":", 0)
    ensures m.Some? ==> |m.value| > 0 && forall i | 0 <= i < |m.value| :: IsNumeral(m.value[i])
  {
    if !OccursAt(t, name + ":", 0) then None
    else BracketAt(t, SkipSpace(t, |name| + 1))
  }

  /**
   * `s.match(scoreRegex(name))` searching from position `p`: the leftmost
   * position where the whole pattern matches, with its capture.
   */
  function MatchField(s: string, name: string, p: nat): (m: Option<(nat, string)>)
    requires p <= |s|
    ensures m.Some? ==> p <= m.value.0 <= |s| && FieldAt(s, name, m.value.0) == Some(m.value.1)
    ensures m.Some? ==> forall q | p <= q < m.value.0 :: FieldAt(s, name, q).None?
    ensures m.None? ==> forall q | p <= q <= |s| :: FieldAt(s, name, q).None?
    decreases |s| - p
  {
    match FieldAt(s, name, p)
    case Some(c) => Some((p, c))
    case None =>
      if p == |s| then None
      else
        var m := MatchField(s, name, p + 1);
        assert m.Some? ==> FieldAt(s, name, m.value.0) == Some(m.value.1);
        m
  }

  // ---------------------------------------------------------------------
  // parseFloat
  // ---------------------------------------------------------------------

  predicate AllDigits(ds: string)
  {
    forall i | 0 <= i < |ds| :: IsDigit(ds[i])
  }

  /** The value of a string of decimal digits. */
  function DigitsValue(ds: string): nat
    requires AllDigits(ds)
    decreases |ds|
  {
    if ds == [] then 0 else DigitsValue(ds[..|ds| - 1]) * 10 + (ds[|ds| - 1] as int - '0' as int)
  }

  function Pow10(n: nat): (r: nat)
    ensures r >= 1
  {
    if n == 0 then 1 else 10 * Pow10(n - 1)
  }

  /** The value of the decimal `whole.fraction`. */
  function DecimalValue(whole: string, fraction: string): (x: real)
    requires AllDigits(whole) && AllDigits(fraction)
    ensures x >= DigitsValue(whole) as real
  {
    DigitsValue(whole) as real + DigitsValue(fraction) as real / Pow10(|fraction|) as real
  }

  /**
   * `parseFloat(cap)` for a capture of `[\d.]+`: the value of the longest
   * prefix of the form `digits`, `digits.digits?` or `.digits`; `None` stands
   * for `NaN` (no such prefix).
   */
  function ParseFloat(cap: string): (r: Option<real>)
    requires forall i | 0 <= i < |cap| :: IsNumeral(cap[i])
    ensures r.Some? ==> r.value >= 0.0
  {
    var a := RunLength(cap, 0, Digit);
    var whole := DigitsValue(cap[..a]);
    if a < |cap| && cap[a] == '.' then
      var b := RunLength(cap, a + 1, Digit);
      if a == 0 && b == 0 then None
      else Some(DecimalValue(cap[..a], cap[a + 1..a + 1 + b]))
    else if a == 0 then None
    else Some(whole as real)
  }

  /** `extractScore(name)`: the parsed capture, or 0 when there is no match or the capture is `NaN`. */
  function ExtractScore(s: string, name: string): (score: real)
    ensures score >= 0.0
  {
    match MatchField(s, name, 0)
    case None => 0.0
    case Some((_, cap)) => ScoreOf(cap)
  }

  /** The score a capture stands for: `parseFloat(cap)`, or 0 when that is `NaN`. */
  function ScoreOf(cap: string): (score: real)
    requires forall i | 0 <= i < |cap| :: IsNumeral(cap[i])
    ensures score >= 0.0
    ensures ParseFloat(cap).Some? ==> score == ParseFloat(cap).value
    ensures ParseFloat(cap).None? ==> score == 0.0
  {
    match ParseFloat(cap)
    case None => 0.0
    case Some(v) => v
  }

  // ---------------------------------------------------------------------
  // The verdict: /VERDICT:\s*(.*)/, trimmed, with a fallback
  // ---------------------------------------------------------------------

  /** `s.indexOf(pat, from)` as an option: the leftmost occurrence at or after `from`. */
  function IndexOf(s: string, pat: string, from: nat): (r: Option<nat>)
    requires from <= |s|
    ensures r.Some? ==> from <= r.value && OccursAt(s, pat, r.value)
    ensures r.Some? ==> forall j | from <= j < r.value :: !OccursAt(s, pat, j)
    ensures r.None? ==> forall j | from <= j :: !OccursAt(s, pat, j)
    decreases |s| - from
  {
    if from + |pat| > |s| then None
    else if s[from..from + |pat|] == pat then Some(from)
    else IndexOf(s, pat, from + 1)
  }

  /**
   * The verdict line: after the first `VERDICT:`, skip whitespace (which may
   * cross line breaks), capture up to the next line terminator and trim;
   * a missing or blank capture gives the fallback.
   */
  function Verdict(s: string): (r: string)
    ensures r != []
  {
    match IndexOf(s, VERDICT_LABEL, 0)
    case None => VERDICT_FALLBACK
    case Some(i) =>
      var t := Trim(VerdictLine(s, i));
      if t == [] then VERDICT_FALLBACK else t
  }

  /** The untrimmed capture of `\s*(.*)` after the `VERDICT:` found at `i`. */
  function VerdictLine(s: string, i: nat): (line: string)
    requires OccursAt(s, VERDICT_LABEL, i)
  {
    var start := SkipSpace(s, i + |VERDICT_LABEL|);
    s[start..start + RunLength(s, start, LineChar)]
  }

  /**
   * `validateScript` once the backend has answered (or thrown): the parsed
   * evaluation, or the all-zero failing evaluation of the outer catch.
   */
  function ValidateScript(reply: Outcome): (v: ValidationResult)
    ensures v.passed <==> v.total >= MIN_PASS_SCORE
    ensures v.feedback != []
    ensures v.total >= 0.0
    ensures reply.Ok? ==> v.fullEvaluation == reply.text
    ensures reply.Err? ==> v == ZeroValidation(ERROR_FEEDBACK, "Error during validation: " + reply.message)
  {
    match reply
    case Err(message) =>
      ZeroValidation(ERROR_FEEDBACK, "Error during validation: " + message)
    case Ok(text) =>
      var total := ExtractScore(text, "TOTAL");
      ValidationResult(
        ValidationScores(
          ExtractScore(text, "SCORE_HOOK"),
          ExtractScore(text, "SCORE_VALUE"),
          ExtractScore(text, "SCORE_RETENTION"),
          ExtractScore(text, "SCORE_CTA")),
        total,
        total >= MIN_PASS_SCORE,
        Verdict(text),
        text)
  }

  // ---------------------------------------------------------------------
  // Properties of the parser
  // ---------------------------------------------------------------------

  /** The digits JavaScript prints for a natural number read back as that number. */
  lemma {:induction false} DigitsValueOfNatText(n: nat)
    ensures AllDigits(NatText(n)) && DigitsValue(NatText(n)) == n
    decreases n
  {
    var t := NatText(n);
    if n >= 10 {
      DigitsValueOfNatText(n / 10);
      assert t[..|t| - 1] == NatText(n / 10);
      assert t[|t| - 1] == DigitChar(n % 10);
    }
  }

  /** `parseFloat` reads a whole natural number back exactly. */
  lemma ParseFloatOfNatText(n: nat)
    ensures ParseFloat(NatText(n)) == Some(n as real)
  {
    var t := NatText(n);
    DigitsValueOfNatText(n);
    RunLengthIs(t, 0, Digit, |t|);
    assert t[..|t|] == t;
  }

  /**
   * `parseFloat` stops at the second dot: `digits.digits` followed by `.` and
   * anything else is read as the decimal `digits.digits` (so `2.5.1` is 2.5).
   */
  lemma ParseFloatStopsAtSecondDot(whole: string, fraction: string, rest: string)
    requires AllDigits(whole) && AllDigits(fraction) && |whole| + |fraction| > 0
    requires rest == [] || rest[0] == '.'
    requires forall i | 0 <= i < |rest| :: IsNumeral(rest[i])
    ensures ParseFloat(whole + "." + fraction + rest) == Some(DecimalValue(whole, fraction))
  {
    var cap := whole + "." + fraction + rest;
    var a := |whole| + 1;
    var b := a + |fraction|;
    assert cap[|whole|] == '.';
    assert forall k | 0 <= k < |whole| :: IsDigit(cap[k]) by {
      forall k | 0 <= k < |whole| ensures IsDigit(cap[k]) { assert cap[k] == whole[k]; }
    }
    RunLengthIs(cap, 0, Digit, |whole|);
    assert forall k | a <= k < b :: IsDigit(cap[k]) by {
      forall k | a <= k < b ensures IsDigit(cap[k]) { assert cap[k] == fraction[k - a]; }
    }
    assert b == |cap| || !IsDigit(cap[b]) by {
      if rest != [] {
        assert cap[b] == rest[0];
      }
    }
    RunLengthIs(cap, a, Digit, |fraction|);
    assert cap[..|whole|] == whole;
    assert cap[a..b] == fraction;
  }

  /** A capture that starts with a dot not followed by a digit (`.`, `..5`) is `NaN`. */
  lemma ParseFloatNaN(cap: string)
    requires |cap| > 0 && cap[0] == '.' && (|cap| == 1 || cap[1] == '.')
    requires forall i | 0 <= i < |cap| :: IsNumeral(cap[i])
    ensures ParseFloat(cap) == None
  {
  }

  /** `RunLength` is determined by the run it must find. */
  lemma RunLengthIs(s: string, i: nat, cls: CharClass, n: nat)
    requires i + n <= |s|
    requires forall k | i <= k < i + n :: InClass(s[k], cls)
    requires i + n == |s| || !InClass(s[i + n], cls)
    ensures RunLength(s, i, cls) == n
  {
  }

  /** `SkipSpace` is determined by the whitespace it must skip. */
  lemma SkipSpaceIs(s: string, i: nat, j: nat)
    requires i <= j < |s| && !IsSpace(s[j])
    requires forall k | i <= k < j :: IsSpace(s[k])
    ensures SkipSpace(s, i) == j
  {
    RunLengthIs(s, i, Space, j - i);
  }

  /** A numeral run `start..stop`, whitespace and `]` at `close` is captured. */
  lemma CaptureMatches(s: string, start: nat, stop: nat, close: nat)
    requires start < stop <= close < |s| && s[close] == ']'
    requires forall k | start <= k < stop :: IsNumeral(s[k])
    requires forall k | stop <= k < close :: IsSpace(s[k])
    ensures CaptureAt(s, start) == Some(s[start..stop])
  {
    RunLengthIs(s, start, Numeral, stop - start);
    SkipSpaceIs(s, stop, close);
  }

  /**
   * The pattern matches at the start of `t` when `name:` stands there, then
   * whitespace up to `[` at `open`, whitespace up to a numeral run
   * `start..stop`, and whitespace up to `]` at `close`; the capture is the
   * numeral run. (A match at position `p` of `s` is one at the start of `s[p..]`.)
   */
  lemma FieldMatches(t: string, name: string, open: nat, start: nat, stop: nat, close: nat)
    requires |name| + 1 <= open < start < stop <= close < |t|
    requires OccursAt(t, name + ":", 0)
    requires forall k | |name| + 1 <= k < open :: IsSpace(t[k])
    requires t[open] == '[' && t[close] == ']'
    requires forall k | open + 1 <= k < start :: IsSpace(t[k])
    requires forall k | start <= k < stop :: IsNumeral(t[k])
    requires forall k | stop <= k < close :: IsSpace(t[k])
    ensures LeadingField(t, name) == Some(t[start..stop])
  {
    assert BracketAt(t, open) == Some(t[start..stop]) by {
      SkipSpaceIs(t, open + 1, start);
      CaptureMatches(t, start, stop, close);
    }
    assert SkipSpace(t, |name| + 1) == open by {
      SkipSpaceIs(t, |name| + 1, open);
    }
  }

  /** No occurrence of `pat` starts inside `pre` when `pat` follows it. */
  predicate NoneBefore(pre: string, pat: string)
  {
    forall q | 0 <= q < |pre| :: !OccursAt(pre + pat, pat, q)
  }

  /** Occurrences in a text that starts with `pre + pat` are those in `pre + pat`, up to `|pre|`. */
  lemma OccursInPrefix(s: string, pre: string, pat: string, q: nat)
    requires |pre| + |pat| <= |s| && s[..|pre| + |pat|] == pre + pat && q < |pre|
    ensures OccursAt(s, pat, q) <==> OccursAt(pre + pat, pat, q)
  {
    assert s[q..q + |pat|] == (pre + pat)[q..q + |pat|];
  }

  /** The text `NAME: [value]`, with whitespace `w1`, `w2`, `w3` where the pattern allows it. */
  function FieldText(name: string, w1: string, w2: string, cap: string, w3: string): string
  {
    name + ":" + w1 + "[" + w2 + cap + w3 + "]"
  }

  /**
   * A field in the requested form `NAME: [value]` (optional whitespace around
   * the bracket and its content), after a preamble in which no `NAME:` starts,
   * is read as `parseFloat(value)`, or 0 when that is `NaN`.
   */
  lemma FieldAfter(pre: string, name: string, w1: string, w2: string, cap: string, w3: string, rest: string)
    requires NoneBefore(pre, name + ":")
    requires AllSpace(w1) && AllSpace(w2) && AllSpace(w3)
    requires |cap| > 0 && forall i | 0 <= i < |cap| :: IsNumeral(cap[i])
    ensures ExtractScore(pre + FieldText(name, w1, w2, cap, w3) + rest, name) == ScoreOf(cap)
  {
    var line := FieldText(name, w1, w2, cap, w3) + rest;
    var s := pre + line;
    assert FieldAt(s, name, |pre|) == Some(cap) by {
      FieldAtStart(name, w1, w2, cap, w3, rest);
      assert line[0..] == line && s[|pre|..] == line;
    }
    NoFieldBefore(pre, line, name);
    LeftmostMatch(s, name, |pre|, cap);
    assert s == pre + FieldText(name, w1, w2, cap, w3) + rest;
  }

  /** The pattern matches at the start of `NAME: [value]` and captures `value`. */
  lemma FieldAtStart(name: string, w1: string, w2: string, cap: string, w3: string, rest: string)
    requires AllSpace(w1) && AllSpace(w2) && AllSpace(w3)
    requires |cap| > 0 && forall i | 0 <= i < |cap| :: IsNumeral(cap[i])
    ensures FieldAt(FieldText(name, w1, w2, cap, w3) + rest, name, 0) == Some(cap)
  {
    var s := name + ":" + w1 + "[" + w2 + cap + w3 + "]" + rest;
    var a := |name| + 1;
    var open := a + |w1|;
    var start := open + 1 + |w2|;
    var stop := start + |cap|;
    var close := stop + |w3|;
    assert OccursAt(s, name + ":", 0) by { assert s[..a] == name + ":"; }
    assert s[open] == '[' && s[close] == ']';
    assert forall k | a <= k < open :: IsSpace(s[k]) by {
      forall k | a <= k < open ensures IsSpace(s[k]) { assert s[k] == w1[k - a]; }
    }
    assert forall k | open + 1 <= k < start :: IsSpace(s[k]) by {
      forall k | open + 1 <= k < start ensures IsSpace(s[k]) { assert s[k] == w2[k - open - 1]; }
    }
    assert s[start..stop] == cap;
    assert forall k | start <= k < stop :: IsNumeral(s[k]) by {
      forall k | start <= k < stop ensures IsNumeral(s[k]) { assert s[k] == cap[k - start]; }
    }
    assert forall k | stop <= k < close :: IsSpace(s[k]) by {
      forall k | stop <= k < close ensures IsSpace(s[k]) { assert s[k] == w3[k - stop]; }
    }
    FieldMatches(s, name, open, start, stop, close);
    assert s[0..] == s;
  }

  /** When `line` starts with `NAME:` and none starts in `pre`, the pattern matches nowhere in `pre`. */
  lemma NoFieldBefore(pre: string, line: string, name: string)
    requires NoneBefore(pre, name + ":") && OccursAt(line, name + ":", 0)
    ensures forall q | 0 <= q < |pre| :: FieldAt(pre + line, name, q).None?
  {
    var s := pre + line;
    assert s[..|pre| + |name| + 1] == pre + (name + ":") by {
      assert line[..|name| + 1] == name + ":";
    }
    forall q | 0 <= q < |pre| ensures FieldAt(s, name, q).None? {
      OccursInPrefix(s, pre, name + ":", q);
    }
  }

  /** The score is read from the leftmost position where the pattern matches. */
  lemma LeftmostMatch(s: string, name: string, p: nat, cap: string)
    requires p <= |s| && FieldAt(s, name, p) == Some(cap)
    requires forall q | 0 <= q < p :: FieldAt(s, name, q).None?
    ensures ExtractScore(s, name) == ScoreOf(cap)
  {
    var m := MatchField(s, name, 0);
    assert m == Some((p, cap));
  }

  /** When the pattern matches nowhere the score is 0. */
  lemma NoMatchIsZero(s: string, name: string)
    requires forall q | 0 <= q <= |s| :: FieldAt(s, name, q).None?
    ensures ExtractScore(s, name) == 0.0
  {
  }

  /** A field whose `NAME:` never occurs reads as 0; no error is raised. */
  lemma MissingFieldIsZero(s: string, name: string)
    requires !Contains(s, name + ":")
    ensures ExtractScore(s, name) == 0.0
  {
    forall q | 0 <= q <= |s| ensures FieldAt(s, name, q).None? {
      assert !OccursAt(s, name + ":", q);
    }
    NoMatchIsZero(s, name);
  }

  /** The first non-blank character at or after `i` in `t` is `[`. */
  predicate OpensBracket(t: string, i: nat)
    requires i <= |t|
  {
    var j := SkipSpace(t, i);
    j < |t| && t[j] == '['
  }

  /**
   * A field whose every `NAME:` is followed, after whitespace, by something
   * other than `[` (e.g. `SCORE_HOOK: 2`) reads as 0; no error is raised.
   */
  lemma UnbracketedFieldIsZero(s: string, name: string)
    requires forall q | 0 <= q < |s| && OccursAt(s, name + ":", q) :: !OpensBracket(s[q..], |name| + 1)
    ensures ExtractScore(s, name) == 0.0
  {
    forall q | 0 <= q <= |s| ensures FieldAt(s, name, q).None? {
    }
    NoMatchIsZero(s, name);
  }

  /** A field whose name starts with a character the text never holds reads as 0. */
  lemma AbsentInitialIsZero(s: string, name: string)
    requires |name| > 0 && forall k | 0 <= k < |s| :: s[k] != name[0]
    ensures ExtractScore(s, name) == 0.0
  {
    forall q | 0 <= q <= |s| ensures FieldAt(s, name, q).None? {
      if q + |name| + 1 <= |s| {
        assert s[q..q + |name| + 1][0] == s[q] != name[0] == (name + ":")[0];
      }
    }
    NoMatchIsZero(s, name);
  }

  /** The scores read from a reply that holds only `TOTAL: [n]`. */
  lemma ScoresOfTotalOnly(n: nat)
    ensures var t := "TOTAL: [" + NatText(n) + "]";
      && ExtractScore(t, "TOTAL") == n as real
      && ExtractScore(t, "SCORE_HOOK") == 0.0 && ExtractScore(t, "SCORE_VALUE") == 0.0
      && ExtractScore(t, "SCORE_RETENTION") == 0.0 && ExtractScore(t, "SCORE_CTA") == 0.0
  {
    var digits := NatText(n);
    var prefix := "TOTAL: [";
    var t := prefix + digits + "]";
    assert ExtractScore(t, "TOTAL") == n as real by {
      var stop := 8 + |digits|;
      assert OccursAt(t, "TOTAL" + ":", 0) by {
        assert t[..6] == "TOTAL:";
      }
      assert t[6] == ' ' && t[7] == '[' && t[stop] == ']';
      assert t[8..stop] == digits;
      forall k | 8 <= k < stop ensures IsNumeral(t[k]) {
        assert t[k] == digits[k - 8];
      }
      FieldMatches(t, "TOTAL", 7, 8, stop, stop);
      assert t[0..] == t;
      ParseFloatOfNatText(n);
    }
    assert forall k | 0 <= k < |t| :: t[k] != 'S' by {
      assert 'S' !in prefix;
      forall k | 0 <= k < |t| ensures t[k] != 'S' {
        if k < 8 {
          assert t[k] == prefix[k];
        } else if k < 8 + |digits| {
          assert t[k] == digits[k - 8];
        }
      }
    }
    assert ExtractScore(t, "SCORE_HOOK") == 0.0 by { AbsentInitialIsZero(t, "SCORE_HOOK"); }
    assert ExtractScore(t, "SCORE_VALUE") == 0.0 by { AbsentInitialIsZero(t, "SCORE_VALUE"); }
    assert ExtractScore(t, "SCORE_RETENTION") == 0.0 by { AbsentInitialIsZero(t, "SCORE_RETENTION"); }
    assert ExtractScore(t, "SCORE_CTA") == 0.0 by { AbsentInitialIsZero(t, "SCORE_CTA"); }
  }

  /**
   * `passed` follows the reported TOTAL, not the sum of the sub-scores: a reply
   * holding only `TOTAL: [n]` is read with four zero sub-scores and passes
   * exactly when `n >= 8`.
   */
  lemma TotalIsReportedNotSummed(n: nat)
    ensures var v := ValidateScript(Ok("TOTAL: [" + NatText(n) + "]"));
      && v.total == n as real && (v.passed <==> n >= 8)
      && v.scores == ValidationScores(0.0, 0.0, 0.0, 0.0)
  {
    ScoresOfTotalOnly(n);
  }

  /** Without `VERDICT:` the feedback is the fallback sentence. */
  lemma MissingVerdict(s: string)
    requires !Contains(s, VERDICT_LABEL)
    ensures Verdict(s) == VERDICT_FALLBACK
  {
  }

  /** A preamble that ends a line and holds no `VERDICT:` has no `VERDICT:` starting in it. */
  lemma NoLabelInPreamble(pre: string)
    requires !Contains(pre, VERDICT_LABEL)
    requires pre == [] || IsLineTerminator(pre[|pre| - 1])
    ensures NoneBefore(pre, VERDICT_LABEL)
  {
    var s := pre + VERDICT_LABEL;
    var n := |VERDICT_LABEL|;
    forall j | 0 <= j < |pre| ensures !OccursAt(s, VERDICT_LABEL, j) {
      if j + n <= |pre| {
        assert s[j..j + n] == pre[j..j + n];
        assert !OccursAt(pre, VERDICT_LABEL, j);
      } else {
        assert s[|pre| - 1] == pre[|pre| - 1];
        assert s[j..j + n][|pre| - 1 - j] == s[|pre| - 1];
        assert !IsLineTerminator(VERDICT_LABEL[|pre| - 1 - j]);
      }
    }
  }

  /** After a preamble in which no `VERDICT:` starts, the first `VERDICT:` is the one right after it. */
  lemma FirstLabelAfter(s: string, pre: string)
    requires |pre| + |VERDICT_LABEL| <= |s| && s[..|pre| + |VERDICT_LABEL|] == pre + VERDICT_LABEL
    requires NoneBefore(pre, VERDICT_LABEL)
    ensures IndexOf(s, VERDICT_LABEL, 0) == Some(|pre|)
  {
    forall j | 0 <= j < |pre| ensures !OccursAt(s, VERDICT_LABEL, j) {
      OccursInPrefix(s, pre, VERDICT_LABEL, j);
    }
    assert s[|pre|..|pre| + |VERDICT_LABEL|] == (pre + VERDICT_LABEL)[|pre|..];
    assert OccursAt(s, VERDICT_LABEL, |pre|);
  }

  /** The line after the `VERDICT:` at `i` is the text from the first non-blank to the line's end. */
  lemma VerdictLineIs(s: string, i: nat, start: nat, stop: nat)
    requires OccursAt(s, VERDICT_LABEL, i)
    requires i + |VERDICT_LABEL| <= start < stop <= |s|
    requires forall k | i + |VERDICT_LABEL| <= k < start :: IsSpace(s[k])
    requires !IsSpace(s[start])
    requires forall k | start <= k < stop :: !IsLineTerminator(s[k])
    requires stop == |s| || IsLineTerminator(s[stop])
    ensures VerdictLine(s, i) == s[start..stop]
  {
    SkipSpaceIs(s, i + |VERDICT_LABEL|, start);
    RunLengthIs(s, start, LineChar, stop - start);
  }

  /**
   * The verdict round trip: after a preamble in which no `VERDICT:` starts,
   * `VERDICT:`, whitespace (line breaks included) and `v` yield exactly `v`;
   * the rest of the text after `v`'s line is ignored.
   */
  lemma VerdictOfLine(pre: string, w: string, v: string, rest: string)
    requires NoneBefore(pre, VERDICT_LABEL)
    requires AllSpace(w)
    requires v != [] && !IsSpace(v[0]) && !IsSpace(v[|v| - 1])
    requires forall i | 0 <= i < |v| :: !IsLineTerminator(v[i])
    requires rest == [] || IsLineTerminator(rest[0])
    ensures Verdict(pre + VERDICT_LABEL + w + v + rest) == v
  {
    var s := pre + VERDICT_LABEL + w + v + rest;
    var i := |pre| + |VERDICT_LABEL|;
    var start := i + |w|;
    var stop := start + |v|;
    assert s[..i] == pre + VERDICT_LABEL;
    FirstLabelAfter(s, pre);
    assert forall k | i <= k < start :: IsSpace(s[k]) by {
      forall k | i <= k < start ensures IsSpace(s[k]) { assert s[k] == w[k - i]; }
    }
    assert s[start..stop] == v;
    assert stop == |s| || IsLineTerminator(s[stop]) by {
      if rest != [] {
        assert s[stop] == rest[0];
      }
    }
    assert s[start] == v[0];
    VerdictLineIs(s, |pre|, start, stop);
    TrimUnpadded(v);
  }

  /** `VERDICT:` followed by nothing but whitespace gives the fallback sentence. */
  lemma BlankVerdict(pre: string, w: string)
    requires NoneBefore(pre, VERDICT_LABEL)
    requires AllSpace(w)
    ensures Verdict(pre + VERDICT_LABEL + w) == VERDICT_FALLBACK
  {
    var s := pre + VERDICT_LABEL + w;
    var i := |pre| + |VERDICT_LABEL|;
    assert s[..i] == pre + VERDICT_LABEL;
    FirstLabelAfter(s, pre);
    assert forall k | i <= k < |s| :: IsSpace(s[k]) by {
      forall k | i <= k < |s| ensures IsSpace(s[k]) { assert s[k] == w[k - i]; }
    }
    RunLengthIs(s, i, Space, |s| - i);
    assert VerdictLine(s, |pre|) == [];
  }

  /** The feedback is either the fallback sentence or a piece of the reply. */
  lemma VerdictInReply(s: string)
    ensures Verdict(s) == VERDICT_FALLBACK || Contains(s, Verdict(s))
  {
    match IndexOf(s, VERDICT_LABEL, 0)
    case None =>
    case Some(i) =>
      var start := SkipSpace(s, i + |VERDICT_LABEL|);
      var stop := start + RunLength(s, start, LineChar);
      var t := Trim(VerdictLine(s, i));
      assert VerdictLine(s, i) == s[start..stop];
      TrimSliceContained(s, start, stop);
      assert Verdict(s) == if t == [] then VERDICT_FALLBACK else t;
  }

  // ---------------------------------------------------------------------
  // The reply in the requested six-line format
  // ---------------------------------------------------------------------

  /** One `LABEL: [value]` line of the requested format. */
  datatype ReplyField = ReplyField(key: string, value: string)

  function FieldLine(f: ReplyField): string
  {
    FieldText(f.key, " ", "", f.value, "") + "\n"
  }

  /** Lines written one after the other. */
  function Concat(lines: seq<string>): string
  {
    if lines == [] then "" else lines[0] + Concat(lines[1..])
  }

  /** `lines` are the fields written out, one line each. */
  predicate Renders(lines: seq<string>, fields: seq<ReplyField>)
  {
    |lines| == |fields| && forall j | 0 <= j < |lines| :: lines[j] == FieldLine(fields[j])
  }

  /** The characters the labels of the requested format are made of. */
  predicate IsLabelChar(c: char)
  {
    'A' <= c <= 'Z' || c == '_'
  }

  predicate IsLabel(w: string)
  {
    |w| > 0 && forall i | 0 <= i < |w| :: IsLabelChar(w[i])
  }

  /** A possible capture of `[\\d.]+`. */
  predicate IsCapture(cap: string)
  {
    |cap| > 0 && forall i | 0 <= i < |cap| :: IsNumeral(cap[i])
  }

  predicate WellFormed(f: ReplyField)
  {
    IsLabel(f.key) && IsCapture(f.value)
  }

  predicate EndsIn(w: string, name: string)
  {
    |name| <= |w| && w[|w| - |name|..] == name
  }

  /** Occurrences after a prefix `a` are the occurrences in what follows it. */
  lemma OccursShift(a: string, b: string, pat: string, j: nat)
    ensures OccursAt(a + b, pat, |a| + j) <==> OccursAt(b, pat, j)
  {
    if j + |pat| <= |b| {
      assert (a + b)[|a| + j..|a| + j + |pat|] == b[j..j + |pat|];
    }
  }

  /**
   * `NAME:` starts inside the line `LABEL: [value]` only where `NAME` is the
   * end of `LABEL`: a label is made of letters and `_`, and the only colon of
   * the line comes right after `LABEL`.
   */
  lemma NoLabelInLine(f: ReplyField, rest: string, name: string, q: nat)
    requires WellFormed(f) && IsLabel(name) && !EndsIn(f.key, name)
    requires q < |FieldLine(f)|
    ensures !OccursAt(FieldLine(f) + rest, name + ":", q)
  {
    var line := FieldLine(f);
    var s := line + rest;
    var pat := name + ":";
    var n := |f.key|;
    if q + |pat| <= |s| {
      assert forall k | 0 <= k < n :: s[k] == f.key[k];
      assert s[n] == ':';
      assert forall k | n <= k < |line| :: !IsLabelChar(s[k]) by {
        forall k | n <= k < |line| ensures !IsLabelChar(s[k]) {
          if n + 3 <= k < n + 3 + |f.value| {
            assert s[k] == f.value[k - n - 3];
          }
        }
      }
      var k: nat;
      if q >= n {
        k := 0;
        assert pat[k] == name[0];
      } else if q + |name| < n {
        k := |name|;
      } else if q + |name| > n {
        k := n - q;
        assert pat[k] == name[k];
      } else {
        assert f.key[q..] != name;
        k :| 0 <= k < |name| && f.key[q..][k] != name[k];
        assert pat[k] == name[k];
      }
      assert s[q + k] != pat[k];
      assert s[q..q + |pat|][k] == s[q + k];
    }
  }

  /** No `NAME:` starts inside a reply whose labels do not end in `NAME`. */
  lemma {:induction false} NoLabelInReply(lines: seq<string>, fields: seq<ReplyField>, rest: string, name: string)
    requires Renders(lines, fields) && IsLabel(name)
    requires forall i | 0 <= i < |fields| :: WellFormed(fields[i]) && !EndsIn(fields[i].key, name)
    ensures forall q | 0 <= q < |Concat(lines)| :: !OccursAt(Concat(lines) + rest, name + ":", q)
    decreases |lines|
  {
    if lines != [] {
      var line := lines[0];
      var tail := Concat(lines[1..]);
      assert Renders(lines[1..], fields[1..]) by {
        forall j | 0 <= j < |lines| - 1 ensures lines[1..][j] == FieldLine(fields[1..][j]) {
          assert lines[1..][j] == lines[j + 1] && fields[1..][j] == fields[j + 1];
        }
      }
      assert forall i | 0 <= i < |fields[1..]| :: fields[1..][i] == fields[i + 1];
      NoLabelInReply(lines[1..], fields[1..], rest, name);
      assert Concat(lines) + rest == line + (tail + rest);
      forall q | 0 <= q < |Concat(lines)| ensures !OccursAt(Concat(lines) + rest, name + ":", q) {
        if q < |line| {
          NoLabelInLine(fields[0], tail + rest, name, q);
        } else {
          OccursShift(line, tail + rest, name + ":", q - |line|);
        }
      }
    }
  }

  /** Concatenating two runs of lines is concatenating their texts. */
  lemma {:induction false} ConcatAppend(a: seq<string>, b: seq<string>)
    ensures Concat(a + b) == Concat(a) + Concat(b)
    decreases |a|
  {
    if a != [] {
      ConcatAppend(a[1..], b);
      assert (a + b)[0] == a[0] && (a + b)[1..] == a[1..] + b;
    } else {
      assert a + b == b;
    }
  }

  /** The text splits around its `i`-th line. */
  lemma ConcatSplit(lines: seq<string>, i: nat)
    requires i < |lines|
    ensures Concat(lines) == Concat(lines[..i]) + (lines[i] + Concat(lines[i + 1..]))
  {
    var front, back := lines[..i], lines[i..];
    assert front + back == lines;
    ConcatAppend(front, back);
    assert back[0] == lines[i] && back[1..] == lines[i + 1..];
    assert Concat(back) == lines[i] + Concat(lines[i + 1..]);
  }

  lemma Regroup(a: string, b: string, c: string, d: string, e: string)
    ensures a + ((b + c) + d) + e == a + b + (c + d + e)
  {
  }

  /**
   * Each line of a reply in the requested format is read back: the `i`-th
   * label's score is its value's `parseFloat`, provided no earlier label
   * ends in it.
   */
  lemma FieldInReply(lines: seq<string>, fields: seq<ReplyField>, i: nat, rest: string)
    requires Renders(lines, fields) && i < |fields|
    requires forall j | 0 <= j < |fields| :: WellFormed(fields[j])
    requires forall j | 0 <= j < i :: !EndsIn(fields[j].key, fields[i].key)
    ensures IsCapture(fields[i].value)
    ensures ExtractScore(Concat(lines) + rest, fields[i].key) == ScoreOf(fields[i].value)
  {
    var f := fields[i];
    assert WellFormed(f);
    var pre := Concat(lines[..i]);
    var text := FieldText(f.key, " ", "", f.value, "");
    var after := "\n" + Concat(lines[i + 1..]) + rest;
    assert Concat(lines) + rest == pre + text + after by {
      ConcatSplit(lines, i);
      assert lines[i] == text + "\n";
      Regroup(pre, text, "\n", Concat(lines[i + 1..]), rest);
    }
    assert NoneBefore(pre, f.key + ":") by {
      assert Renders(lines[..i], fields[..i]) by {
        forall j | 0 <= j < i ensures lines[..i][j] == FieldLine(fields[..i][j]) {
          assert lines[..i][j] == lines[j] && fields[..i][j] == fields[j];
        }
      }
      forall j | 0 <= j < i ensures WellFormed(fields[..i][j]) && !EndsIn(fields[..i][j].key, f.key) {
        assert fields[..i][j] == fields[j];
      }
      NoLabelInReply(lines[..i], fields[..i], f.key + ":", f.key);
    }
    assert AllSpace(" ") && AllSpace("");
    FieldAfter(pre, f.key, " ", "", f.value, "", after);
  }

  /** The five labelled lines of the requested format. */
  function RequestedFields(hook: string, value: string, retention: string, cta: string, total: string): (fs: seq<ReplyField>)
    ensures |fs| == 5
  {
    [ReplyField("SCORE_HOOK", hook), ReplyField("SCORE_VALUE", value), ReplyField("SCORE_RETENTION", retention),
     ReplyField("SCORE_CTA", cta), ReplyField("TOTAL", total)]
  }

  function RequestedLines(hook: string, value: string, retention: string, cta: string, total: string): (ls: seq<string>)
    ensures Renders(ls, RequestedFields(hook, value, retention, cta, total))
  {
    var fs := RequestedFields(hook, value, retention, cta, total);
    [FieldLine(fs[0]), FieldLine(fs[1]), FieldLine(fs[2]), FieldLine(fs[3]), FieldLine(fs[4])]
  }

  /** The text of a reply in exactly the requested format. */
  function RequestedReply(hook: string, value: string, retention: string, cta: string, total: string, verdict: string): string
  {
    Concat(RequestedLines(hook, value, retention, cta, total)) + (VERDICT_LABEL + " " + verdict)
  }

  /** Two words whose last characters differ do not end in one another. */
  lemma LastCharsDiffer(w: string, name: string)
    requires |w| > 0 && |name| > 0 && w[|w| - 1] != name[|name| - 1]
    ensures !EndsIn(w, name)
  {
    if |name| <= |w| {
      assert w[|w| - |name|..][|name| - 1] == w[|w| - 1];
    }
  }

  /** Labels whose last characters are pairwise different do not end in one another. */
  lemma DistinctEndings(fields: seq<ReplyField>, last: string)
    requires |fields| == |last|
    requires forall j | 0 <= j < |fields| :: |fields[j].key| > 0 && fields[j].key[|fields[j].key| - 1] == last[j]
    requires forall j, k | 0 <= j < k < |last| :: last[j] != last[k]
    ensures forall j, k | 0 <= j < k < |fields| :: !EndsIn(fields[j].key, fields[k].key)
  {
    forall j, k | 0 <= j < k < |fields| ensures !EndsIn(fields[j].key, fields[k].key) {
      LastCharsDiffer(fields[j].key, fields[k].key);
    }
  }

  /** Five well-formed labels with different last letters, none ending in `VERDICT`, do not end in one another. */
  lemma FiveLabels(fields: seq<ReplyField>)
    requires |fields| == 5
    requires LineEnds(fields[0], 'K') && LineEnds(fields[1], 'E') && LineEnds(fields[2], 'N')
    requires LineEnds(fields[3], 'A') && LineEnds(fields[4], 'L')
    ensures forall j | 0 <= j < |fields| :: WellFormed(fields[j]) && !EndsIn(fields[j].key, "VERDICT")
    ensures forall j, k | 0 <= j < k < |fields| :: !EndsIn(fields[j].key, fields[k].key)
  {
    var last := "KENAL";
    assert last[0] == 'K' && last[1] == 'E' && last[2] == 'N' && last[3] == 'A' && last[4] == 'L';
    FiveLines(fields, last);
    DistinctEndings(fields, last);
  }

  /** Each requested line is well formed; its label ends in its own last letter and not in `VERDICT`. */
  lemma RequestedLineEnds(fields: seq<ReplyField>, hook: string, value: string, retention: string, cta: string, total: string)
    requires fields == RequestedFields(hook, value, retention, cta, total)
    requires IsCapture(hook) && IsCapture(value) && IsCapture(retention) && IsCapture(cta) && IsCapture(total)
    ensures LineEnds(fields[0], 'K') && LineEnds(fields[1], 'E') && LineEnds(fields[2], 'N')
    ensures LineEnds(fields[3], 'A') && LineEnds(fields[4], 'L')
  {
    KeysAreLabels();
    assert fields[0].key == "SCORE_HOOK" && fields[1].key == "SCORE_VALUE" && fields[2].key == "SCORE_RETENTION";
    assert fields[3].key == "SCORE_CTA" && fields[4].key == "TOTAL";
    LabelEnd(fields[0], 'K');
    LabelEnd(fields[1], 'E');
    LabelEnd(fields[2], 'N');
    LabelEnd(fields[3], 'A');
    LabelEnd(fields[4], 'L');
  }

  /** A well-formed line whose label ends in `c` and not in `VERDICT`. */
  predicate LineEnds(f: ReplyField, c: char)
  {
    WellFormed(f) && !EndsIn(f.key, "VERDICT") && f.key[|f.key| - 1] == c
  }

  /** What holds of each of five lines holds of all of them. */
  lemma FiveLines(fields: seq<ReplyField>, last: string)
    requires |fields| == 5 && |last| == 5
    requires LineEnds(fields[0], last[0]) && LineEnds(fields[1], last[1]) && LineEnds(fields[2], last[2])
    requires LineEnds(fields[3], last[3]) && LineEnds(fields[4], last[4])
    ensures forall j | 0 <= j < 5 :: LineEnds(fields[j], last[j])
  {
    forall j | 0 <= j < 5 ensures LineEnds(fields[j], last[j]) {
      if j == 0 {
      } else if j == 1 {
      } else if j == 2 {
      } else if j == 3 {
      } else {
      }
    }
  }

  lemma KeysAreLabels()
    ensures IsLabel("SCORE_HOOK") && IsLabel("SCORE_VALUE") && IsLabel("SCORE_RETENTION")
    ensures IsLabel("SCORE_CTA") && IsLabel("TOTAL")
  {
  }

  /** A well-formed line whose label does not end in `T` has a label that does not end in `VERDICT`. */
  lemma LabelEnd(f: ReplyField, c: char)
    requires IsLabel(f.key) && IsCapture(f.value) && f.key[|f.key| - 1] == c && c != 'T'
    ensures LineEnds(f, c)
  {
    LastCharsDiffer(f.key, "VERDICT");
  }

  /** Every label of a reply in the requested format is read back as its value. */
  lemma ScoresInReply(lines: seq<string>, fields: seq<ReplyField>, rest: string)
    requires Renders(lines, fields)
    requires forall j | 0 <= j < |fields| :: WellFormed(fields[j])
    requires forall j, k | 0 <= j < k < |fields| :: !EndsIn(fields[j].key, fields[k].key)
    ensures forall i | 0 <= i < |fields| ::
      IsCapture(fields[i].value) && ExtractScore(Concat(lines) + rest, fields[i].key) == ScoreOf(fields[i].value)
  {
    forall i | 0 <= i < |fields| ensures IsCapture(fields[i].value) &&
      ExtractScore(Concat(lines) + rest, fields[i].key) == ScoreOf(fields[i].value)
    {
      FieldInReply(lines, fields, i, rest);
    }
  }

  /** No field line of a well-formed reply holds the `VERDICT:` label. */
  lemma NoVerdictInFields(lines: seq<string>, fields: seq<ReplyField>)
    requires Renders(lines, fields)
    requires forall j | 0 <= j < |fields| :: WellFormed(fields[j]) && !EndsIn(fields[j].key, "VERDICT")
    ensures NoneBefore(Concat(lines), VERDICT_LABEL)
  {
    NoLabelInReply(lines, fields, VERDICT_LABEL, "VERDICT");
    assert "VERDICT" + ":" == VERDICT_LABEL;
  }

  /** The verdict line after the labelled lines is read back as the verdict sentence. */
  lemma VerdictAfterFields(lines: seq<string>, fields: seq<ReplyField>, verdict: string)
    requires Renders(lines, fields)
    requires forall j | 0 <= j < |fields| :: WellFormed(fields[j]) && !EndsIn(fields[j].key, "VERDICT")
    requires verdict != [] && !IsSpace(verdict[0]) && !IsSpace(verdict[|verdict| - 1])
    requires forall i | 0 <= i < |verdict| :: !IsLineTerminator(verdict[i])
    ensures Verdict(Concat(lines) + (VERDICT_LABEL + " " + verdict)) == verdict
  {
    var pre := Concat(lines);
    NoVerdictInFields(lines, fields);
    assert AllSpace(" ");
    VerdictOfLine(pre, " ", verdict, "");
    assert pre + (VERDICT_LABEL + " " + verdict) == pre + VERDICT_LABEL + " " + verdict + "";
  }

  /** The parse of a reply whose labelled scores and verdict are known. */
  lemma ReadScores(s: string, hook: string, value: string, retention: string, cta: string, total: string, verdict: string)
    requires IsCapture(hook) && IsCapture(value) && IsCapture(retention) && IsCapture(cta) && IsCapture(total)
    requires ExtractScore(s, "SCORE_HOOK") == ScoreOf(hook) && ExtractScore(s, "SCORE_VALUE") == ScoreOf(value)
    requires ExtractScore(s, "SCORE_RETENTION") == ScoreOf(retention) && ExtractScore(s, "SCORE_CTA") == ScoreOf(cta)
    requires ExtractScore(s, "TOTAL") == ScoreOf(total) && Verdict(s) == verdict
    ensures ValidateScript(Ok(s)) == ValidationResult(
        ValidationScores(ScoreOf(hook), ScoreOf(value), ScoreOf(retention), ScoreOf(cta)),
        ScoreOf(total), ScoreOf(total) >= MIN_PASS_SCORE, verdict, s)
  {
  }

  /**
   * A reply in the requested six-line format is read completely: each score
   * is its bracketed value, `passed` is decided by TOTAL alone, the feedback
   * is the verdict sentence and the whole reply is kept.
   */
  lemma RequestedReplyIsRead(hook: string, value: string, retention: string, cta: string, total: string, verdict: string)
    requires IsCapture(hook) && IsCapture(value) && IsCapture(retention) && IsCapture(cta) && IsCapture(total)
    requires verdict != [] && !IsSpace(verdict[0]) && !IsSpace(verdict[|verdict| - 1])
    requires forall i | 0 <= i < |verdict| :: !IsLineTerminator(verdict[i])
    ensures var s := RequestedReply(hook, value, retention, cta, total, verdict);
      ValidateScript(Ok(s)) == ValidationResult(
        ValidationScores(ScoreOf(hook), ScoreOf(value), ScoreOf(retention), ScoreOf(cta)),
        ScoreOf(total), ScoreOf(total) >= MIN_PASS_SCORE, verdict, s)
  {
    var fields := RequestedFields(hook, value, retention, cta, total);
    var lines := RequestedLines(hook, value, retention, cta, total);
    var rest := VERDICT_LABEL + " " + verdict;
    var s := Concat(lines) + rest;
    RequestedLineEnds(fields, hook, value, retention, cta, total);
    FiveLabels(fields);
    ScoresInReply(lines, fields, rest);
    assert fields[0].key == "SCORE_HOOK" && fields[1].key == "SCORE_VALUE" && fields[2].key == "SCORE_RETENTION";
    assert fields[3].key == "SCORE_CTA" && fields[4].key == "TOTAL";
    VerdictAfterFields(lines, fields, verdict);
    ReadScores(s, hook, value, retention, cta, total, verdict);
  }
}
