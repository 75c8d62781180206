/**
 * The code typed or scanned into the redemption page, as it is sent to the
 * ticketing service: `inputText.trim().replace(/\*\/g, "-")`.
 */
module TicketCode {

  import opened Wrappers

  /**
   * The characters JavaScript's String.prototype.trim removes: WhiteSpace and
   * LineTerminator of ECMAScript (tab, vertical tab, form feed, space, no-break
   * space, byte order mark, every Zs space separator, LF, CR, LS and PS).
   */
  predicate IsWhitespace(c: char) {
    || c == '\t' || c == '\n' || c == '\U{000B}' || c == '\U{000C}' || c == '\r'
    || c == ' ' || c == '\U{00A0}' || c == '\U{1680}'
    || ('\U{2000}' <= c <= '\U{200A}')
    || c == '\U{2028}' || c == '\U{2029}' || c == '\U{202F}' || c == '\U{205F}'
    || c == '\U{3000}' || c == '\U{FEFF}'
  }

  /** Every character of `s` is whitespace (the empty string included). */
  predicate Blank(s: string) {
    forall i :: 0 <= i < |s| ==> IsWhitespace(s[i])
  }

  /** Neither end of `s` is whitespace. */
  predicate Trimmed(s: string) {
    s == [] || (!IsWhitespace(s[0]) && !IsWhitespace(s[|s| - 1]))
  }

  /** The number of whitespace characters `s` starts with. */
  function Lead(s: string): (k: nat)
    ensures k <= |s|
    ensures forall i :: 0 <= i < k ==> IsWhitespace(s[i])
    ensures k < |s| ==> !IsWhitespace(s[k])
  {
    if s != [] && IsWhitespace(s[0]) then 1 + Lead(s[1..]) else 0
  }

  /** The number of whitespace characters `s` ends with. */
  function Trail(s: string): (k: nat)
    ensures k <= |s|
    ensures forall i :: |s| - k <= i < |s| ==> IsWhitespace(s[i])
    ensures k < |s| ==> !IsWhitespace(s[|s| - 1 - k])
  {
    if s != [] && IsWhitespace(s[|s| - 1]) then 1 + Trail(s[..|s| - 1]) else 0
  }

  /**
   * String.prototype.trim: the result is the part of `s` between a blank
   * prefix and a blank suffix, and neither of its ends is whitespace.
   */
  function Trim(s: string): (r: string)
    ensures Trimmed(r)
    ensures Lead(s) + |r| <= |s| && r == s[Lead(s)..Lead(s) + |r|]
    ensures forall i :: Lead(s) + |r| <= i < |s| ==> IsWhitespace(s[i])
  {
    if Lead(s) == |s| then [] else s[Lead(s)..|s| - Trail(s)]
  }

  /** A string is blank exactly when trimming leaves nothing. */
  lemma TrimEmptyIffBlank(s: string)
    ensures Trim(s) == [] <==> Blank(s)
  {
    var r := Trim(s);
    if r != [] {
      assert s[Lead(s)] == r[0];
    }
  }

  /** Trimming a string whose ends are not whitespace changes nothing. */
  lemma TrimOfTrimmed(s: string)
    requires Trimmed(s)
    ensures Trim(s) == s
  {
    if s != [] {
      assert Lead(s) == 0 && Trail(s) == 0;
      assert s[0..|s|] == s;
    }
  }

  /** Trimming is idempotent. */
  lemma TrimIdempotent(s: string)
    ensures Trim(Trim(s)) == Trim(s)
  {
    TrimOfTrimmed(Trim(s));
  }

  /** The replacement of one character: `*` becomes `-`, nothing else changes. */
  function Dash(c: char): char {
    if c == '*' then '-' else c
  }

  /** `s.replace(/\*\/g, "-")`: every `*` replaced by `-`. */
  function ReplaceStars(s: string): (r: string)
    ensures |r| == |s|
    ensures forall i :: 0 <= i < |s| ==> r[i] == Dash(s[i])
    ensures '*' !in r
    ensures '*' !in s ==> r == s
  {
    if s == [] then [] else [Dash(s[0])] + ReplaceStars(s[1..])
  }

  /**
   * The code the page sends: the trimmed input with every `*` replaced by `-`.
   * It has the trimmed input's length, contains no `*`, has `-` where the
   * trimmed input has `*`, and agrees with it everywhere else.
   */
  function Normalize(s: string): (r: string)
    ensures |r| == |Trim(s)|
    ensures '*' !in r
    ensures forall i :: 0 <= i < |r| ==>
              if Trim(s)[i] == '*' then r[i] == '-' else r[i] == Trim(s)[i]
    ensures r == [] <==> Blank(s)
  {
    TrimEmptyIffBlank(s);
    ReplaceStars(Trim(s))
  }

  /** Replacing stars never puts whitespace at either end. */
  lemma ReplaceStarsKeepsTrimmed(s: string)
    requires Trimmed(s)
    ensures Trimmed(ReplaceStars(s))
  {
  }

  /**
   * What handleSubmit sends for an input: nothing for a blank input,
   * otherwise its non-empty, star-free normal form.
   */
  function Accept(input: string): (r: Option<string>)
    ensures r.None? <==> Blank(input)
    ensures r.Some? ==> r.value == Normalize(input) && |r.value| > 0 && '*' !in r.value
  {
    TrimEmptyIffBlank(input);
    if Trim(input) == [] then None else Some(Normalize(input))
  }

  /** A normalised code is its own normal form. */
  lemma NormalizeIdempotent(s: string)
    ensures Normalize(Normalize(s)) == Normalize(s)
  {
    var n := Normalize(s);
    ReplaceStarsKeepsTrimmed(Trim(s));
    TrimOfTrimmed(n);
  }
}
