/**
 * Record types shared by the agents and the content manager, and the few
 * JavaScript string operations the agents rely on (`trim`, `includes`, the
 * regular-expression class `\s`, and number-to-text interpolation).
 */
module Types {

  datatype Option<+T> = None | Some(value: T)

  /** A call that either returns text or throws an `Error` carrying `message`. */
  datatype Outcome = Ok(text: string) | Err(message: string)

  /** The `"short" | "long"` duration of a requested script. */
  datatype Duration = Short | Long

  function DurationText(d: Duration): string
  {
    match d
    case Short => "short"
    case Long => "long"
  }

  datatype ValidationScores = ValidationScores(hook: real, value: real, retention: real, cta: real)

  datatype ValidationResult = ValidationResult(
    scores: ValidationScores,
    total: real,
    passed: bool,
    feedback: string,
    fullEvaluation: string)

  /** One audit-trail entry; the timestamp is not modelled. */
  datatype AgentInteraction = AgentInteraction(agent: string, action: string, input: Option<string>, output: string)

  /** One progress message; the timestamp is not modelled. */
  datatype StatusUpdate = StatusUpdate(message: string)

  datatype GenerationResult = GenerationResult(
    script: string,
    validation: ValidationResult,
    attempts: nat,
    success: bool,
    interactions: seq<AgentInteraction>,
    statusUpdates: seq<StatusUpdate>)

  /** The all-zero, failing evaluation used wherever no real evaluation exists. */
  function ZeroValidation(feedback: string, fullEvaluation: string): (v: ValidationResult)
    ensures v.total == 0.0 && !v.passed
    ensures v.scores == ValidationScores(0.0, 0.0, 0.0, 0.0)
    ensures v.feedback == feedback && v.fullEvaluation == fullEvaluation
  {
    ValidationResult(ValidationScores(0.0, 0.0, 0.0, 0.0), 0.0, false, feedback, fullEvaluation)
  }

  // ---------------------------------------------------------------------
  // JavaScript whitespace: the set matched by `\s` and removed by `trim()`
  // (WhiteSpace and LineTerminator of ECMA-262).
  // ---------------------------------------------------------------------

  predicate IsLineTerminator(c: char)
  {
    c == '\n' || c == '\r' || c == '\U{2028}' || c == '\U{2029}'
  }

  predicate IsSpace(c: char)
  {
    || IsLineTerminator(c)
    || c == '\t' || c == '\U{000B}' || c == '\U{000C}' || c == ' '
    || c == '\U{00A0}' || c == '\U{1680}' || ('\U{2000}' <= c <= '\U{200A}')
    || c == '\U{202F}' || c == '\U{205F}' || c == '\U{3000}' || c == '\U{FEFF}'
  }

  predicate AllSpace(s: string)
  {
    forall i | 0 <= i < |s| :: IsSpace(s[i])
  }

  /** The number of whitespace characters `s` starts with. */
  function LeadingSpace(s: string): (n: nat)
    ensures n <= |s|
    ensures forall k | 0 <= k < n :: IsSpace(s[k])
    ensures n == |s| || !IsSpace(s[n])
  {
    if |s| > 0 && IsSpace(s[0]) then 1 + LeadingSpace(s[1..]) else 0
  }

  /** The number of whitespace characters `s` ends with. */
  function TrailingSpace(s: string): (n: nat)
    ensures n <= |s|
    ensures forall k | |s| - n <= k < |s| :: IsSpace(s[k])
    ensures n == |s| || !IsSpace(s[|s| - n - 1])
  {
    if |s| > 0 && IsSpace(s[|s| - 1]) then 1 + TrailingSpace(s[..|s| - 1]) else 0
  }

  /** `s.trimStart()`. */
  function TrimStart(s: string): string
  {
    s[LeadingSpace(s)..]
  }

  /** `s.trimEnd()`. */
  function TrimEnd(s: string): string
  {
    s[..|s| - TrailingSpace(s)]
  }

  /** `s.trim()`. */
  function Trim(s: string): (r: string)
    ensures r == [] || (!IsSpace(r[0]) && !IsSpace(r[|r| - 1]))
  {
    TrimEnd(TrimStart(s))
  }

  /** Whitespace padding on either side is exactly what `trim()` removes. */
  lemma TrimPadded(pre: string, s: string, post: string)
    requires AllSpace(pre) && AllSpace(post)
    requires s == [] || (!IsSpace(s[0]) && !IsSpace(s[|s| - 1]))
    ensures Trim(pre + s + post) == s
  {
    var all := pre + s + post;
    if s == [] {
      assert forall k | 0 <= k < |all| :: IsSpace(all[k]);
      assert TrimStart(all) == [];
    } else {
      assert all[|pre|] == s[0];
      assert forall k | 0 <= k < |pre| :: IsSpace(all[k]);
      assert LeadingSpace(all) == |pre|;
      assert TrimStart(all) == s + post;
      var rest := s + post;
      assert rest[|s| - 1] == s[|s| - 1];
      assert forall k | |s| <= k < |rest| :: IsSpace(rest[k]);
      assert TrailingSpace(rest) == |post|;
      assert TrimEnd(rest) == s;
    }
  }

  /** Text that neither starts nor ends with whitespace is its own trim. */
  lemma TrimUnpadded(s: string)
    requires s == [] || (!IsSpace(s[0]) && !IsSpace(s[|s| - 1]))
    ensures Trim(s) == s
  {
    TrimPadded([], s, []);
    assert [] + s + [] == s;
  }

  /** What `trim()` drops is whitespace only: `s` is the trim padded by whitespace. */
  lemma TrimSplits(s: string)
    ensures exists pre: string, post: string :: s == pre + Trim(s) + post && AllSpace(pre) && AllSpace(post)
  {
    var n := LeadingSpace(s);
    var t := s[n..];
    var m := TrailingSpace(t);
    var pre, post := s[..n], t[|t| - m..];
    assert s == pre + Trim(s) + post;
    assert AllSpace(pre);
    assert AllSpace(post);
  }

  /** `pat` occurs in `s` starting at position `j`. */
  predicate OccursAt(s: string, pat: string, j: nat)
  {
    j + |pat| <= |s| && s[j..j + |pat|] == pat
  }

  /** `s.includes(sub)`. */
  predicate Contains(s: string, sub: string)
  {
    exists j: nat | j <= |s| :: OccursAt(s, sub, j)
  }

  /** The trim of a slice of `s` is the slice of `s` that starts at the returned index. */
  function TrimSlice(s: string, i: nat, j: nat): (lo: nat)
    requires i <= j <= |s|
    ensures i <= lo && lo + |Trim(s[i..j])| <= j
    ensures Trim(s[i..j]) == s[lo..lo + |Trim(s[i..j])|]
  {
    i + LeadingSpace(s[i..j])
  }

  /** Hence the trim of a slice of `s` is contained in `s`. */
  lemma TrimSliceContained(s: string, i: nat, j: nat)
    requires i <= j <= |s|
    ensures Contains(s, Trim(s[i..j]))
  {
    var lo := TrimSlice(s, i, j);
    assert OccursAt(s, Trim(s[i..j]), lo);
  }

  // ---------------------------------------------------------------------
  // Number-to-text interpolation (`${n}`)
  // ---------------------------------------------------------------------

  function DigitChar(d: nat): (c: char)
    requires d < 10
    ensures '0' <= c <= '9'
  {
    "0123456789"[d]
  }

  /** Decimal text of a natural number, as JavaScript prints an integer. */
  function NatText(n: nat): (r: string)
    ensures |r| > 0 && forall i | 0 <= i < |r| :: '0' <= r[i] <= '9'
    decreases n
  {
    if n < 10 then [DigitChar(n)] else NatText(n / 10) + [DigitChar(n % 10)]
  }

  /**
   * Plain decimal text of a score: integral part, then the fraction digits
   * (at most 20) without trailing zeros. This is how JavaScript prints a
   * number of magnitude at least 1e-6 and below 1e21 whose decimal expansion
   * is short; JavaScript switches to exponent notation (`1e-7`, `1e+21`)
   * outside that range, which this function does not reproduce.
   */
  function NumberText(x: real): (r: string)
    ensures |r| > 0
  {
    if x < 0.0 then "-" + UnsignedText(-x) else UnsignedText(x)
  }

  function UnsignedText(x: real): (r: string)
    requires x >= 0.0
    ensures |r| > 0
  {
    var whole := x.Floor;
    var fraction := x - whole as real;
    NatText(whole) + (if fraction == 0.0 then "" else "." + FractionText(fraction, 20))
  }

  function FractionText(f: real, budget: nat): string
    requires 0.0 <= f < 1.0
    decreases budget
  {
    if f == 0.0 || budget == 0 then ""
    else
      var scaled := f * 10.0;
      var d := scaled.Floor;
      [DigitChar(d)] + FractionText(scaled - d as real, budget - 1)
  }
}
