/**
 * Choosing and checking the local part of an address (app.py, `random_word`,
 * `validate_email_name`), and the `str.strip()` applied to the stored custom name.
 */
module Names {

  /** The alphabet of `string.ascii_lowercase`. */
  const Lowercase: string := "abcdefghijklmnopqrstuvwxyz"

  predicate IsLowercase(c: char)
  {
    'a' <= c <= 'z'
  }

  /**
   * `random_word(length)`: `length` independent draws of `random.choice` over
   * the lowercase alphabet. Each draw is a nondeterministic choice here.
   */
  method RandomWord(length: nat) returns (w: string)
    ensures |w| == length
    ensures forall i :: 0 <= i < |w| ==> IsLowercase(w[i])
  {
    w := "";
    for k := 0 to length
      invariant |w| == k
      invariant forall i :: 0 <= i < |w| ==> IsLowercase(w[i])
    {
      var j :| 0 <= j < |Lowercase|;
      w := w + [Lowercase[j]];
    }
  }

  /** The character class `[a-zA-Z0-9_-]`. */
  predicate IsNameChar(c: char)
  {
    ('a' <= c <= 'z') || ('A' <= c <= 'Z') || ('0' <= c <= '9') || c == '_' || c == '-'
  }

  predicate AllNameChars(s: string)
  {
    forall i :: 0 <= i < |s| ==> IsNameChar(s[i])
  }

  /**
   * The strings `re.match(r"^[a-zA-Z0-9_-]+$", s)` accepts: a non-empty run of
   * class characters, optionally followed by exactly one newline, since `$`
   * without MULTILINE also matches just before a final "\n".
   */
  predicate MatchesNamePattern(s: string)
  {
    (|s| > 0 && AllNameChars(s)) ||
    (|s| > 1 && s[|s| - 1] == '\n' && AllNameChars(s[..|s| - 1]))
  }

  /** Length of the longest prefix made of class characters: what the repeated class of app.py:55 consumes. */
  function NameRunLength(s: string): (n: nat)
    ensures n <= |s|
    ensures forall i :: 0 <= i < n ==> IsNameChar(s[i])
    ensures n < |s| ==> !IsNameChar(s[n])
  {
    if s == [] || !IsNameChar(s[0]) then 0 else 1 + NameRunLength(s[1..])
  }

  /**
   * `validate_email_name`: anchored at the start, a greedy run of at least one
   * class character, then the end of the string or a single final newline.
   * Backtracking cannot help, as "\n" is not in the class.
   */
  function ValidateEmailName(name: string): (ok: bool)
    ensures ok <==> MatchesNamePattern(name)
    ensures ok ==> name != "" && '@' !in name && ' ' !in name
  {
    var n := NameRunLength(name);
    n > 0 && (name[n..] == "" || name[n..] == "\n")
  }

  /**
   * Python's whitespace (`str.isspace`), the characters `str.strip()` removes
   * when called without arguments.
   */
  predicate IsSpace(c: char)
  {
    ('\t' <= c <= '\r') || ('\U{1C}' <= c <= ' ') || c == '\U{85}' || c == '\U{A0}' ||
    c == '\U{1680}' || ('\U{2000}' <= c <= '\U{200A}') || c == '\U{2028}' || c == '\U{2029}' ||
    c == '\U{202F}' || c == '\U{205F}' || c == '\U{3000}'
  }

  function LeadingSpaceCount(s: string): (n: nat)
    ensures n <= |s|
    ensures forall i :: 0 <= i < n ==> IsSpace(s[i])
    ensures n < |s| ==> !IsSpace(s[n])
  {
    if s == [] || !IsSpace(s[0]) then 0 else 1 + LeadingSpaceCount(s[1..])
  }

  function TrailingSpaceCount(s: string): (n: nat)
    ensures n <= |s|
    ensures forall i :: |s| - n <= i < |s| ==> IsSpace(s[i])
    ensures n < |s| ==> !IsSpace(s[|s| - n - 1])
  {
    if s == [] || !IsSpace(s[|s| - 1]) then 0 else 1 + TrailingSpaceCount(s[..|s| - 1])
  }

  /**
   * `str.strip()`: the slice of `s` left after removing the longest whitespace
   * prefix and then the longest whitespace suffix.
   */
  function Strip(s: string): (r: string)
    ensures LeadingSpaceCount(s) + |r| <= |s|
    ensures r == s[LeadingSpaceCount(s)..LeadingSpaceCount(s) + |r|]
    ensures r == [] || (!IsSpace(r[0]) && !IsSpace(r[|r| - 1]))
    ensures forall i :: 0 <= i < |s| && !(LeadingSpaceCount(s) <= i < LeadingSpaceCount(s) + |r|) ==> IsSpace(s[i])
  {
    var rest := s[LeadingSpaceCount(s)..];
    rest[..|rest| - TrailingSpaceCount(rest)]
  }

  /** Stripping twice is stripping once. */
  lemma StripIdempotent(s: string)
    ensures Strip(Strip(s)) == Strip(s)
  {
  }

  /**
   * A name that passes validation is stored, after stripping, as its run of
   * class characters: the only character stripping can remove is the newline
   * the pattern tolerates.
   */
  lemma StripOfValidName(s: string)
    requires ValidateEmailName(s)
    ensures Strip(s) == s[..NameRunLength(s)]
  {
    var n := NameRunLength(s);
    assert !IsSpace(s[0]) && !IsSpace(s[n - 1]);
    assert LeadingSpaceCount(s) == 0;
    if n == |s| {
      assert TrailingSpaceCount(s) == 0;
    } else {
      assert s[n] == '\n';
      assert TrailingSpaceCount(s) == 1 by {
        assert TrailingSpaceCount(s[..n]) == 0;
      }
    }
  }
}
