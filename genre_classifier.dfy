/**
 * Post-processing of the genre classifier's reply: the raw model output is
 * trimmed, lower-cased and stripped of at most one trailing `.` or `,`, then
 * looked up in a closed list of genres. Everything else, including a backend
 * error, becomes the fixed "not found" sentence.
 */
module GenreClassifier {
  import opened Types

  /** The genres a writing pattern exists for, all lower-case ASCII words. */
  const PREDEFINED_GENRES: seq<string> := [
    "history", "news", "sports", "selfimprovement", "language", "personalcare", "vlog",
    "moviereview", "review", "programming", "education", "fitness", "cooking", "finance"
  ]

  const NOT_FOUND_MESSAGE: string := "genre is not found try something else"

  predicate IsLowerLetter(c: char)
  {
    'a' <= c <= 'z'
  }

  predicate IsLowerWord(s: string)
  {
    |s| > 0 && forall i | 0 <= i < |s| :: IsLowerLetter(s[i])
  }

  /**
   * `toLowerCase` on one character, restricted to what can matter here: the
   * ASCII capitals and the Kelvin sign, the only character outside ASCII whose
   * lower case is an ASCII letter. Every other character is kept; its real
   * lower case is outside ASCII as well, so no lookup below can tell them apart.
   */
  function LowerChar(c: char): (d: char)
    ensures IsLowerLetter(d) ==> IsLowerLetter(c) || ('A' <= c <= 'Z') || c == '\U{212A}'
    ensures !IsLowerLetter(d) ==> d == c
  {
    if 'A' <= c <= 'Z' then (c as int + 32) as char
    else if c == '\U{212A}' then 'k'
    else c
  }

  /** `s.toLowerCase()`, character by character. */
  function Lower(s: string): (r: string)
    ensures |r| == |s|
    ensures forall i | 0 <= i < |s| :: r[i] == LowerChar(s[i])
  {
    seq(|s|, i requires 0 <= i < |s| => LowerChar(s[i]))
  }

  /** Removes one trailing `.` or `,`, if there is one. */
  function StripPunctuation(p: string): (r: string)
    ensures r == p || (|p| > 0 && (p[|p| - 1] == '.' || p[|p| - 1] == ',') && r == p[..|p| - 1])
    ensures |p| > 0 && (p[|p| - 1] == '.' || p[|p| - 1] == ',') ==> |r| == |p| - 1
  {
    if |p| > 0 && (p[|p| - 1] == '.' || p[|p| - 1] == ',') then p[..|p| - 1] else p
  }

  /** The normalised reply: trimmed, lower-cased, one trailing `.` or `,` removed; no second trim. */
  function Normalise(raw: string): string
  {
    StripPunctuation(Lower(Trim(raw)))
  }

  /**
   * `classifyGenre` once the backend has answered (or thrown). An output equal
   * to the lower-cased sentinel and any other unexpected output take two
   * different branches in the source, which both return the sentinel.
   */
  function ClassifyGenre(reply: Outcome): (genre: string)
    ensures genre in PREDEFINED_GENRES || genre == NOT_FOUND_MESSAGE
    ensures reply.Err? ==> genre == NOT_FOUND_MESSAGE
    ensures genre != NOT_FOUND_MESSAGE ==> reply.Ok? && genre == Normalise(reply.text)
  {
    match reply
    case Err(_) => NOT_FOUND_MESSAGE
    case Ok(raw) =>
      var processed := Normalise(raw);
      if processed in PREDEFINED_GENRES then processed else NOT_FOUND_MESSAGE
  }

  // ---------------------------------------------------------------------
  // Properties
  // ---------------------------------------------------------------------

  /** Every genre is a non-empty lower-case ASCII word, and none is the sentinel. */
  lemma GenresAreWords()
    ensures forall g | g in PREDEFINED_GENRES :: IsLowerWord(g)
    ensures NOT_FOUND_MESSAGE !in PREDEFINED_GENRES
  {
    assert NOT_FOUND_MESSAGE[5] == ' ';
  }

  /** A text holding a character that is not a lower-case letter is no genre. */
  lemma NotAWord(s: string, i: nat)
    requires i < |s| && !IsLowerLetter(s[i])
    ensures s !in PREDEFINED_GENRES
  {
    GenresAreWords();
  }

  /** A genre is recognised exactly when its normalised form is in the list. */
  lemma RecognisedIff(raw: string)
    ensures ClassifyGenre(Ok(raw)) != NOT_FOUND_MESSAGE <==> Normalise(raw) in PREDEFINED_GENRES
  {
    GenresAreWords();
  }

  /**
   * What a recognised genre was written as: after trimming and lower-casing,
   * the genre itself, or the genre followed by one `.` or `,`.
   */
  lemma RecognisedShape(raw: string)
    requires ClassifyGenre(Ok(raw)) != NOT_FOUND_MESSAGE
    ensures var g := ClassifyGenre(Ok(raw));
      Lower(Trim(raw)) in {g, g + ".", g + ","}
  {
    var g := ClassifyGenre(Ok(raw));
    var p := Lower(Trim(raw));
    GenresAreWords();
    if |p| > 0 && (p[|p| - 1] == '.' || p[|p| - 1] == ',') {
      assert p == g + [p[|p| - 1]];
    }
  }

  /** Lower-casing never turns a character into whitespace or out of it. */
  lemma LowerKeepsSpace(c: char)
    ensures IsSpace(LowerChar(c)) <==> IsSpace(c)
  {
  }

  /** Lower-casing works character by character, so it distributes over concatenation. */
  lemma LowerAppend(a: string, b: string)
    ensures Lower(a + b) == Lower(a) + Lower(b)
  {
  }

  /** Whitespace around a text that starts and ends with a letter (in any case) is what `trim()` removes. */
  lemma TrimAroundWritten(pre: string, written: string, punctuation: string, post: string)
    requires AllSpace(pre) && AllSpace(post)
    requires |written| > 0
    requires IsLowerLetter(LowerChar(written[0])) && IsLowerLetter(LowerChar(written[|written| - 1]))
    requires punctuation in {"", ".", ","}
    ensures Trim(pre + written + punctuation + post) == written + punctuation
  {
    var s := written + punctuation;
    assert !IsSpace(s[0]) && !IsSpace(s[|s| - 1]) by {
      assert s[0] == written[0];
      LowerKeepsSpace(written[0]);
      LowerKeepsSpace(written[|written| - 1]);
      if punctuation == [] {
        assert s[|s| - 1] == written[|written| - 1];
      }
    }
    assert pre + written + punctuation + post == pre + s + post;
    TrimPadded(pre, s, post);
  }

  /**
   * Normalisation undoes surrounding whitespace, letter case and one trailing
   * `.` or `,` of a text that starts and ends with a letter.
   */
  lemma NormalisePadded(pre: string, written: string, punctuation: string, post: string)
    requires AllSpace(pre) && AllSpace(post)
    requires |written| > 0
    requires IsLowerLetter(LowerChar(written[0])) && IsLowerLetter(LowerChar(written[|written| - 1]))
    requires punctuation in {"", ".", ","}
    ensures Normalise(pre + written + punctuation + post) == Lower(written)
  {
    TrimAroundWritten(pre, written, punctuation, post);
    var w := Lower(written);
    assert Lower(written + punctuation) == w + punctuation by {
      LowerAppend(written, punctuation);
      assert Lower(punctuation) == punctuation;
    }
    StripAfterLetter(w, punctuation);
  }

  /** The strip removes the added `.` or `,` and nothing from a text that ends with a letter. */
  lemma StripAfterLetter(w: string, punctuation: string)
    requires |w| > 0 && IsLowerLetter(w[|w| - 1])
    requires punctuation in {"", ".", ","}
    ensures StripPunctuation(w + punctuation) == w
  {
    if punctuation == [] {
      assert w + punctuation == w;
    } else {
      assert (w + punctuation)[..|w|] == w;
    }
  }

  /**
   * The round trip: a genre written in any letter case, with whitespace
   * around it and at most one trailing `.` or `,`, is recognised as that genre.
   */
  lemma GenreInAnyCase(pre: string, written: string, punctuation: string, post: string)
    requires AllSpace(pre) && AllSpace(post)
    requires Lower(written) in PREDEFINED_GENRES
    requires punctuation in {"", ".", ","}
    ensures ClassifyGenre(Ok(pre + written + punctuation + post)) == Lower(written)
  {
    GenresAreWords();
    NormalisePadded(pre, written, punctuation, post);
  }

  /** `" History. "` is recognised as `history`, whatever whitespace surrounds it. */
  lemma CapitalisedWithPeriod(pre: string, post: string)
    requires AllSpace(pre) && AllSpace(post)
    ensures ClassifyGenre(Ok(pre + "History." + post)) == "history"
  {
    var written, g := "History", "history";
    assert Lower(written) == g && g in PREDEFINED_GENRES && "." in {"", ".", ","} by {
      assert Lower(written) == g;
    }
    assert pre + written + "." + post == pre + "History." + post;
    GenreInAnyCase(pre, written, ".", post);
  }

  /** Only one trailing `.` or `,` is stripped: `history..` is not recognised. */
  lemma DoublePunctuationNotFound(g: string, c: char)
    requires g in PREDEFINED_GENRES && (c == '.' || c == ',')
    ensures ClassifyGenre(Ok(g + [c] + ".")) == NOT_FOUND_MESSAGE
  {
    var s := g + [c] + ".";
    assert Lower(Trim(s)) == s by {
      GenresAreWords();
      assert !IsSpace(s[0]) && !IsSpace(s[|s| - 1]) by {
        assert s[0] == g[0];
      }
      TrimUnpadded(s);
      assert Lower(s) == s;
    }
    assert Normalise(s) == g + [c] by {
      assert s[..|s| - 1] == g + [c];
    }
    NotAWord(g + [c], |g|);
  }

  /** There is no second trim after the strip: `history .` is not recognised. */
  lemma SpaceBeforePunctuationNotFound(g: string)
    requires g in PREDEFINED_GENRES
    ensures ClassifyGenre(Ok(g + " .")) == NOT_FOUND_MESSAGE
  {
    var s := g + " .";
    assert Lower(Trim(s)) == s by {
      GenresAreWords();
      assert !IsSpace(s[0]) && !IsSpace(s[|s| - 1]) by {
        assert s[0] == g[0];
      }
      TrimUnpadded(s);
      assert Lower(s) == s;
    }
    assert Normalise(s) == g + " " by {
      assert s[..|s| - 1] == g + " ";
    }
    NotAWord(g + " ", |g|);
  }

  /**
   * The sentinel, in whatever letter case and with the same padding a genre
   * may carry, reaches the sentinel branch and comes back as the canonical
   * sentinel.
   */
  lemma SentinelInAnyCase(pre: string, written: string, punctuation: string, post: string)
    requires AllSpace(pre) && AllSpace(post)
    requires Lower(written) == NOT_FOUND_MESSAGE
    requires punctuation in {"", ".", ","}
    ensures Normalise(pre + written + punctuation + post) == NOT_FOUND_MESSAGE
    ensures ClassifyGenre(Ok(pre + written + punctuation + post)) == NOT_FOUND_MESSAGE
  {
    NormalisePadded(pre, written, punctuation, post);
  }
}
