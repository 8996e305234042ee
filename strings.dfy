/** String helpers with Python's meaning. */
module Strings {

  /** `s.startswith(prefix)`: case-sensitive, character by character. */
  predicate StartsWith(s: string, prefix: string) {
    |prefix| <= |s| && s[..|prefix|] == prefix
  }

  /** A string agrees with each of its prefixes position by position. */
  lemma PrefixCharacter(s: string, prefix: string, i: nat)
    requires StartsWith(s, prefix) && i < |prefix|
    ensures s[i] == prefix[i]
  {
    assert s[..|prefix|][i] == s[i];
  }
}
