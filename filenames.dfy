/**
 * The filename sanitiser `sanitize_filename` (bot.py:406-417) and the Python
 * string operations it relies on: `str.replace` of a single character and
 * `str.strip()` with no argument.
 */
module Filenames {

  /** The characters the sanitiser replaces, in the order it replaces them (bot.py:409). */
  const InvalidChars: string := "<>:\"/\\|?*"

  /** The replacement character. */
  const Replacement: char := '_'

  /** The length a sanitised name is cut to (bot.py:414-415). */
  const MaxLength: nat := 100

  /** Python's `str.isspace()`: the characters `str.strip()` removes. */
  predicate IsSpace(c: char) {
    || ('\t' <= c <= '\r')                 // tab, line feed, vertical tab, form feed, carriage return
    || ('\U{001C}' <= c <= '\U{001F}')     // file, group, record and unit separators
    || c == ' ' || c == '\U{0085}' || c == '\U{00A0}' || c == '\U{1680}'
    || ('\U{2000}' <= c <= '\U{200A}')
    || c == '\U{2028}' || c == '\U{2029}' || c == '\U{202F}' || c == '\U{205F}' || c == '\U{3000}'
  }

  /** `s.replace(c, d)` for a single character `c`: every occurrence of `c` becomes `d`. */
  function ReplaceChar(s: string, c: char, d: char): (r: string)
    ensures |r| == |s|
    ensures forall k :: 0 <= k < |s| ==> r[k] == (if s[k] == c then d else s[k])
  {
    if s == [] then []
    else [if s[0] == c then d else s[0]] + ReplaceChar(s[1..], c, d)
  }

  /** The number of whitespace characters `s` starts with. */
  function LeadingSpaces(s: string): (n: nat)
    ensures n <= |s|
    ensures forall k :: 0 <= k < n ==> IsSpace(s[k])
    ensures n == |s| || !IsSpace(s[n])
  {
    if s != [] && IsSpace(s[0]) then 1 + LeadingSpaces(s[1..]) else 0
  }

  /**
   * Where the text of `s` ends once trailing whitespace is dropped, never
   * looking left of `from`.
   */
  function TextEnd(s: string, from: nat): (n: nat)
    requires from <= |s|
    ensures from <= n <= |s|
    ensures forall k :: n <= k < |s| ==> IsSpace(s[k])
    ensures n == from || !IsSpace(s[n - 1])
  {
    if |s| > from && IsSpace(s[|s| - 1]) then TextEnd(s[..|s| - 1], from) else |s|
  }

  /** `s` neither starts nor ends with whitespace. */
  predicate IsTrimmed(s: string) {
    s == [] || (!IsSpace(s[0]) && !IsSpace(s[|s| - 1]))
  }

  /**
   * `s.strip()`: the infix of `s` between its leading and its trailing
   * whitespace; it neither starts nor ends with whitespace, and everything
   * dropped on either side is whitespace.
   */
  function Strip(s: string): (r: string)
    ensures IsTrimmed(r)
    ensures LeadingSpaces(s) + |r| <= |s|
    ensures r == s[LeadingSpaces(s)..LeadingSpaces(s) + |r|]
    ensures forall k :: 0 <= k < LeadingSpaces(s) ==> IsSpace(s[k])
    ensures forall k :: LeadingSpaces(s) + |r| <= k < |s| ==> IsSpace(s[k])
  {
    var i := LeadingSpaces(s);
    s[i..TextEnd(s, i)]
  }

  // ---------------------------------------------------------------------
  // The specification of the sanitiser.
  // ---------------------------------------------------------------------

  /** Every invalid character of `s` replaced by `_`, in one pass. */
  function ReplaceInvalid(s: string): (r: string)
    ensures |r| == |s|
  {
    seq(|s|, k requires 0 <= k < |s| => if s[k] in InvalidChars then Replacement else s[k])
  }

  /** `s[:100]`. */
  function Truncate(s: string): (r: string)
    ensures |r| <= MaxLength
    ensures r <= s
    ensures |s| <= MaxLength ==> r == s
    ensures |s| > MaxLength ==> |r| == MaxLength
  {
    if |s| > MaxLength then s[..MaxLength] else s
  }

  /** What `sanitize_filename` returns for `name`. */
  function Sanitized(name: string): string {
    Strip(Truncate(ReplaceInvalid(name)))
  }

  /**
   * `sanitize_filename`: one `replace` per invalid character, in the source's
   * order, then the cut to 100 characters, then `strip()`.
   */
  method SanitizeFilename(filename: string) returns (r: string)
    ensures r == Sanitized(filename)
  {
    var name := filename;
    for i := 0 to |InvalidChars|
      invariant |name| == |filename|
      invariant forall k :: 0 <= k < |name| ==>
        name[k] == (if filename[k] in InvalidChars[..i] then Replacement else filename[k])
    {
      name := ReplaceChar(name, InvalidChars[i], Replacement);
    }
    assert InvalidChars[..|InvalidChars|] == InvalidChars;
    assert name == ReplaceInvalid(filename);
    if |name| > MaxLength {
      name := name[..MaxLength];
    }
    r := Strip(name);
  }

  // ---------------------------------------------------------------------
  // Properties of sanitised names.
  // ---------------------------------------------------------------------

  /**
   * A sanitised name contains none of the invalid characters, has at most 100
   * characters, and neither starts nor ends with whitespace.
   */
  lemma SanitizedIsSafe(name: string)
    ensures forall c :: c in Sanitized(name) ==> c !in InvalidChars
    ensures |Sanitized(name)| <= MaxLength
    ensures IsTrimmed(Sanitized(name))
  {
    var t := Truncate(ReplaceInvalid(name));
    assert forall k :: 0 <= k < |t| ==> t[k] !in InvalidChars;
    var r := Strip(t);
    var i := LeadingSpaces(t);
    forall c | c in r ensures c !in InvalidChars {
      var k :| 0 <= k < |r| && r[k] == c;
      assert c == t[i + k];
    }
  }

  /** `strip()` leaves a trimmed string alone. */
  lemma StripTrimmed(s: string)
    requires IsTrimmed(s)
    ensures Strip(s) == s
  {
    assert LeadingSpaces(s) == 0;
    assert TextEnd(s, 0) == |s|;
  }

  /** Sanitising a sanitised name gives it back unchanged. */
  lemma SanitizeIdempotent(name: string)
    ensures Sanitized(Sanitized(name)) == Sanitized(name)
  {
    var s := Sanitized(name);
    SanitizedIsSafe(name);
    assert ReplaceInvalid(s) == s by {
      forall k | 0 <= k < |s| ensures ReplaceInvalid(s)[k] == s[k] {
        assert s[k] in s;
      }
    }
    assert Truncate(s) == s;
    StripTrimmed(s);
  }
}
