/** The city-name check of `CurrentWeather::validateInputForm`
    (weather.php:111-137): the submitted value must be non-empty, must be
    left unchanged by `preCleaningInput` (trim, then `strip_tags`, then
    `stripslashes`), and must match `^[a-zA-Z<accented letters>\s]*$`.

    The pattern is modelled on characters: ASCII letters, the eighteen
    Hungarian accented letters of the class, and the six ASCII characters
    PCRE's `\s` matches. PHP runs the pattern without the `u` flag, byte by
    byte over UTF-8; that byte-level reading (which also admits some other
    byte combinations) is replaced here by the character set. */
module Validation {
  import Php

  /** The characters PHP's `trim` removes by default. Unlike `\s`, this
      includes NUL and leaves out form feed. */
  predicate IsTrimChar(c: char) {
    c == ' ' || c == '\t' || c == '\n' || c == '\r' || c == '\0' || c == '\U{000B}'
  }

  /** The accented letters listed in the pattern: áéíóöőúüű and their capitals. */
  const AccentedLetters: set<char> :=
    {'á', 'é', 'í', 'ó', 'ö', 'ő', 'ú', 'ü', 'ű',
     'Á', 'É', 'Í', 'Ó', 'Ö', 'Ő', 'Ú', 'Ü', 'Ű'}

  predicate IsAsciiLetter(c: char) {
    ('a' <= c <= 'z') || ('A' <= c <= 'Z')
  }

  /** One character of the class `[a-zA-ZáéíóöőúüűÁÉÍÓÖŐÚÜŰ\s]`. */
  predicate InCityClass(c: char) {
    IsAsciiLetter(c) || c in AccentedLetters || Php.IsSpace(c)
  }

  /** `^[...]*$`: every character lies in the class. A trailing newline,
      which `$` may match before, is itself in the class, so it changes nothing. */
  predicate MatchesCityPattern(s: string) {
    forall i :: 0 <= i < |s| ==> InCityClass(s[i])
  }

  /** Neither tag openers, backslashes nor NUL occur in `s`. */
  predicate FreeOfMarkup(s: string) {
    forall i :: 0 <= i < |s| ==> s[i] != '<' && s[i] != '\\' && s[i] != '\0'
  }

  // ---------------------------------------------------------------- trim

  /** How many characters `trim` removes from the front of `s`. */
  function LeadingTrimCount(s: string): (k: nat)
    ensures k <= |s|
    ensures forall i :: 0 <= i < k ==> IsTrimChar(s[i])
    ensures k < |s| ==> !IsTrimChar(s[k])
    decreases |s|
  {
    if |s| > 0 && IsTrimChar(s[0]) then 1 + LeadingTrimCount(s[1..]) else 0
  }

  /** How many characters `trim` removes from the back of `s`. */
  function TrailingTrimCount(s: string): (k: nat)
    ensures k <= |s|
    ensures forall i :: |s| - k <= i < |s| ==> IsTrimChar(s[i])
    ensures k < |s| ==> !IsTrimChar(s[|s| - 1 - k])
    decreases |s|
  {
    if |s| > 0 && IsTrimChar(s[|s| - 1]) then 1 + TrailingTrimCount(s[..|s| - 1]) else 0
  }

  /** PHP `trim`: the longest slice of `s` that neither starts nor ends with a
      trim character, found by dropping such characters at both ends. */
  function Trim(s: string): (r: string)
    ensures |r| <= |s|
    ensures r == [] || (!IsTrimChar(r[0]) && !IsTrimChar(r[|r| - 1]))
    ensures exists lo, hi ::
              && 0 <= lo <= hi <= |s| && r == s[lo..hi]
              && (forall i :: 0 <= i < lo ==> IsTrimChar(s[i]))
              && (forall i :: hi <= i < |s| ==> IsTrimChar(s[i]))
    ensures r == s <==> (s == [] || (!IsTrimChar(s[0]) && !IsTrimChar(s[|s| - 1])))
  {
    var lo := LeadingTrimCount(s);
    var t := s[lo..];
    var k := TrailingTrimCount(t);
    var r := t[..|t| - k];
    assert r == s[lo..|s| - k];
    assert forall i :: |s| - k <= i < |s| ==> s[i] == t[i - lo];
    if r == s then r
    else
      assert lo > 0 || k > 0;
      r
  }

  // ---------------------------------------------------------- strip_tags

  /** Inside a tag: everything up to and including the first `>` is dropped;
      a tag that is never closed swallows the rest of the input. */
  function SkipTag(s: string): (r: string)
    ensures |r| <= |s|
    ensures r == s[|s| - |r|..]
    decreases |s|
  {
    if s == [] then []
    else if s[0] == '>' then s[1..]
    else SkipTag(s[1..])
  }

  /** PHP `strip_tags` without an allow-list, reduced to its main rule: a `<`
      that is not followed by whitespace opens a tag, which runs to the next
      `>`; NUL characters are dropped everywhere; all other characters are kept.
      The result is never longer than the input, contains no NUL, and has no
      `<` that could open a tag. */
  function StripTags(s: string): (r: string)
    ensures |r| <= |s|
    ensures forall i :: 0 <= i < |r| ==> r[i] != '\0'
    ensures forall i :: 0 <= i < |r| && r[i] == '<' ==> i + 1 < |r| && Php.IsSpace(r[i + 1])
    ensures (forall i :: 0 <= i < |s| ==> s[i] != '<' && s[i] != '\0') ==> r == s
    ensures |s| > 0 && s[0] != '<' && s[0] != '\0' ==> |r| > 0 && r[0] == s[0]
    decreases |s|
  {
    if s == [] then []
    else if s[0] == '\0' then StripTags(s[1..])
    else if s[0] == '<' && !(|s| > 1 && Php.IsSpace(s[1])) then StripTags(SkipTag(s[1..]))
    else [s[0]] + StripTags(s[1..])
  }

  // -------------------------------------------------------- stripslashes

  /** PHP `stripslashes`: a backslash is removed and the character after it is
      kept literally, except that `\0` becomes NUL; a final lone backslash is
      dropped. Without backslashes the string is returned unchanged. */
  function StripSlashes(s: string): (r: string)
    ensures |r| <= |s|
    ensures (forall i :: 0 <= i < |s| ==> s[i] != '\\') ==> r == s
    ensures (exists i :: 0 <= i < |s| && s[i] == '\\') ==> |r| < |s|
    decreases |s|
  {
    if s == [] then []
    else if s[0] == '\\' then
      if |s| == 1 then []
      else (if s[1] == '0' then ['\0'] else [s[1]]) + StripSlashes(s[2..])
    else
      var rest := StripSlashes(s[1..]);
      assert (exists i :: 0 <= i < |s| && s[i] == '\\') ==>
             (exists i :: 0 <= i < |s[1..]| && s[1..][i] == '\\') by {
        if exists i :: 0 <= i < |s| && s[i] == '\\' {
          var i :| 0 <= i < |s| && s[i] == '\\';
          assert s[1..][i - 1] == '\\';
        }
      }
      [s[0]] + rest
  }

  /** PHP `addslashes`, the escaping `stripslashes` undoes: a backslash is
      put before each single quote, double quote and backslash, and NUL is
      written as backslash-zero. */
  function AddSlashes(t: string): (r: string)
    ensures |t| <= |r| <= 2 * |t|
    decreases |t|
  {
    if t == [] then []
    else
      var c := t[0];
      var escaped :=
        if c == '\0' then ['\\', '0']
        else if c == '\'' || c == '"' || c == '\\' then ['\\', c]
        else [c];
      escaped + AddSlashes(t[1..])
  }

  /** `stripslashes` drops each escaping backslash, keeps the character
      after it and turns backslash-zero back into NUL, so it recovers every
      string from its `addslashes` form. */
  lemma {:induction false} StripSlashesUndoesAddSlashes(t: string)
    ensures StripSlashes(AddSlashes(t)) == t
    decreases |t|
  {
    if t != [] {
      var c := t[0];
      var rest := AddSlashes(t[1..]);
      StripSlashesUndoesAddSlashes(t[1..]);
      if c == '\0' || c == '\'' || c == '"' || c == '\\' {
        var e := AddSlashes(t);
        assert e == [e[0], e[1]] + rest && e[0] == '\\';
        assert e[2..] == rest;
      } else {
        var e := AddSlashes(t);
        assert e == [c] + rest;
        assert e[1..] == rest;
      }
    }
  }

  /** Concrete un-escaping: an escaped quote, an escaped backslash, a
      backslash-zero and a final lone backslash. */
  lemma StripSlashesExamples()
    ensures StripSlashes("O\\'Neill") == "O'Neill"
    ensures StripSlashes("a\\\\b") == "a\\b"
    ensures StripSlashes("x\\0") == "x\0"
    ensures StripSlashes("ab\\") == "ab"
  {
  }

  // ------------------------------------------------------ the validation

  /** A slice of a markup-free string is markup-free. */
  lemma SliceFreeOfMarkup(s: string, lo: int, hi: int)
    requires 0 <= lo <= hi <= |s|
    requires FreeOfMarkup(s)
    ensures FreeOfMarkup(s[lo..hi])
  {
    assert forall i :: 0 <= i < hi - lo ==> s[lo..hi][i] == s[lo + i];
  }

  /** Every character of the city pattern is harmless to the cleaning steps. */
  lemma PatternIsFreeOfMarkup(s: string)
    requires MatchesCityPattern(s)
    ensures FreeOfMarkup(s)
  {
    forall i | 0 <= i < |s|
      ensures s[i] != '<' && s[i] != '\\' && s[i] != '\0'
    {
      assert InCityClass(s[i]);
    }
  }

  /** `preCleaningInput` (weather.php:111-117). On a string free of markup it
      only trims; it never lengthens its input. */
  function PreClean(s: string): (r: string)
    ensures |r| <= |s|
    ensures FreeOfMarkup(s) ==> r == Trim(s)
  {
    var t := Trim(s);
    if FreeOfMarkup(s) then
      var lo, hi :| 0 <= lo <= hi <= |s| && t == s[lo..hi];
      SliceFreeOfMarkup(s, lo, hi);
      assert StripTags(t) == t;
      StripSlashes(StripTags(t))
    else
      StripSlashes(StripTags(t))
  }

  /** The condition of weather.php:126-129 on a submitted city field: not
      `empty()`, equal to its pre-cleaned form, and matching the pattern.
      It holds exactly for the non-empty strings of class characters that
      neither start nor end with a character `trim` would remove. */
  function Validate(s: string): (ok: bool)
    ensures ok <==>
      && s != []
      && MatchesCityPattern(s)
      && !IsTrimChar(s[0])
      && !IsTrimChar(s[|s| - 1])
  {
    if MatchesCityPattern(s) then
      PatternIsFreeOfMarkup(s);
      assert s == "0" ==> !InCityClass(s[0]);
      Php.StringTruthy(s) && PreClean(s) == s
    else
      false
  }

  /** Surrounding whitespace that `trim` removes, a tag opener, a backslash or
      a digit anywhere each make the check fail. */
  lemma RejectedInputs(s: string, i: int)
    requires 0 <= i < |s|
    requires || IsTrimChar(s[0]) || IsTrimChar(s[|s| - 1])
             || s[i] == '<' || s[i] == '\\' || ('0' <= s[i] <= '9')
    ensures !Validate(s)
  {
    if s[i] == '<' || s[i] == '\\' || ('0' <= s[i] <= '9') {
      assert !InCityClass(s[i]);
    }
  }

  /** Form feed is whitespace to `\s` but not to `trim`, so a city name that
      starts with one passes the check although it is surrounded by whitespace. */
  lemma LeadingFormFeedAccepted()
    ensures Validate("\U{000C}Pest")
    ensures !Validate(" Pest")
  {
    var s := "\U{000C}Pest";
    assert forall i :: 0 < i < |s| ==> IsAsciiLetter(s[i]);
    assert Php.IsSpace(s[0]);
    AcceptedWhenWellFormed(s);
  }

  /** The accepting direction of `Validate`, as a step for concrete inputs. */
  lemma AcceptedWhenWellFormed(s: string)
    requires s != [] && MatchesCityPattern(s)
    requires !IsTrimChar(s[0]) && !IsTrimChar(s[|s| - 1])
    ensures Validate(s)
  {
  }

  /** A plain ASCII city name passes the check. */
  lemma AcceptedAscii()
    ensures Validate("Budapest")
  {
    var a := "Budapest";
    assert forall i :: 0 <= i < |a| ==> IsAsciiLetter(a[i]);
    AcceptedWhenWellFormed(a);
  }

  /** Inner spaces and accented letters pass the check too. */
  lemma AcceptedAccentsAndSpace()
    ensures Validate("Szeged Alsóváros")
  {
    var c := "Szeged Alsóváros";
    forall i | 0 <= i < |c| ensures InCityClass(c[i]) {
      if c[i] != ' ' && c[i] != 'ó' && c[i] != 'á' {
        assert IsAsciiLetter(c[i]);
      }
    }
    AcceptedWhenWellFormed(c);
  }

  /** Typical submissions that fail it. */
  lemma RejectedExamples()
    ensures !Validate("")
    ensures !Validate("0")
    ensures !Validate("Pécs ")
    ensures !Validate("Győr<b>")
    ensures !Validate("Eger1")
  {
    RejectedInputs("Győr<b>", 4);
    RejectedInputs("Eger1", 4);
    RejectedInputs("0", 0);
  }
}
