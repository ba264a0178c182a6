/** Ordinal string tests used by the two managers (`string.Contains`,
    `string.StartsWith(..., StringComparison.Ordinal)`). */
module Text {

  /** `sub` occurs in `s` starting at index `i`. */
  predicate OccursAt(s: string, sub: string, i: nat) {
    i + |sub| <= |s| && s[i..i + |sub|] == sub
  }

  /** Ordinal substring test, as `string.Contains(string)`. */
  predicate Contains(s: string, sub: string) {
    exists i | 0 <= i <= |s| :: OccursAt(s, sub, i)
  }

  /** Ordinal prefix test, as `string.StartsWith(prefix, StringComparison.Ordinal)`. */
  predicate StartsWith(s: string, prefix: string) {
    |prefix| <= |s| && s[..|prefix|] == prefix
  }

  /** Whoever contains a word also contains each of its prefixes. */
  lemma ContainsPrefixOf(s: string, sub: string, more: string)
    requires Contains(s, sub + more)
    ensures Contains(s, sub)
  {
    var i :| 0 <= i <= |s| && OccursAt(s, sub + more, i);
    assert s[i..i + |sub|] == (sub + more)[..|sub|];
    assert OccursAt(s, sub, i);
  }
}
