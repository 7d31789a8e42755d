/** Prefix and suffix tests on strings, shared by the text builders, and the
    notion of string equality Swift uses. */
module Strings {

  predicate StartsWith(s: string, prefix: string)
  {
    |prefix| <= |s| && s[..|prefix|] == prefix
  }

  predicate EndsWith(s: string, suffix: string)
  {
    |suffix| <= |s| && s[|s| - |suffix|..] == suffix
  }

  /** Swift's `String` equality and hashing identify canonically equivalent
      strings: a precomposed "é" equals "e" followed by a combining acute
      accent. Wherever the library compares names or URIs, the model takes a
      function `canon` standing for the map to a canonical normal form, and two
      strings are equal to Swift exactly when their images under `canon` are. */
  predicate SwiftEqual(canon: string -> string, a: string, b: string)
  {
    canon(a) == canon(b)
  }

  predicate IsAscii(s: string)
  {
    forall i :: 0 <= i < |s| ==> s[i] as int < 128
  }

  /** Strings of ASCII characters are already in canonical normal form, so
      Swift compares them character by character. */
  ghost predicate FixesAscii(canon: string -> string)
  {
    forall s :: IsAscii(s) ==> canon(s) == s
  }
}
