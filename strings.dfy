/** The .NET string tests the core relies on. `String.IsNullOrEmpty` and
    `String.IsNullOrWhiteSpace` differ on strings made only of white space,
    and the tenant rule depends on that difference. */
module Strings {
  import opened Wrappers

  /** `Char.IsWhiteSpace`: the members of the Unicode categories Zs, Zl and Zp,
      plus the control characters U+0009..U+000D and U+0085. */
  predicate IsWhiteSpaceChar(c: char) {
    var n := c as int;
    (0x09 <= n <= 0x0D) || n == 0x20 || n == 0x85 || n == 0xA0 || n == 0x1680
    || (0x2000 <= n <= 0x200A) || n == 0x2028 || n == 0x2029
    || n == 0x202F || n == 0x205F || n == 0x3000
  }

  /** Every character of `s` is white space (so does the empty string). */
  predicate IsWhiteSpace(s: string) {
    forall i :: 0 <= i < |s| ==> IsWhiteSpaceChar(s[i])
  }

  /** `String.IsNullOrEmpty`. */
  predicate IsNullOrEmpty(s: Option<string>) {
    s.None? || s.value == ""
  }

  /** `String.IsNullOrWhiteSpace`. */
  predicate IsNullOrWhiteSpace(s: Option<string>) {
    s.None? || IsWhiteSpace(s.value)
  }

  /** `String.IsNullOrWhiteSpace` applied to a non-null string. */
  predicate IsBlank(s: string) {
    IsNullOrWhiteSpace(Some(s))
  }

  /** `s ?? string.Empty`. */
  function OrEmpty(s: Option<string>): string {
    if s.Some? then s.value else ""
  }

  predicate StartsWith(s: string, prefix: string) {
    |prefix| <= |s| && s[..|prefix|] == prefix
  }

  predicate EndsWith(s: string, suffix: string) {
    |suffix| <= |s| && s[|s| - |suffix|..] == suffix
  }

  /** A null or empty string is also null or white space ... */
  lemma EmptyIsBlank(s: Option<string>)
    ensures IsNullOrEmpty(s) ==> IsNullOrWhiteSpace(s)
  {
  }

  /** ... but not the other way round: a string of spaces is blank without
      being empty. */
  lemma SpacesAreBlankButNotEmpty()
    ensures IsNullOrWhiteSpace(Some(" ")) && !IsNullOrEmpty(Some(" "))
  {
  }

  /** A string that has one character that is not white space is not blank. */
  lemma NonWhiteSpaceCharIsNotBlank(s: string, i: nat)
    requires i < |s| && !IsWhiteSpaceChar(s[i])
    ensures !IsBlank(s)
  {
  }
}
