/** The text formats that contracts across the program share. */
module TextFormats {
  predicate IsLowerHex(c: char) { '0' <= c <= '9' || 'a' <= c <= 'f' }

  predicate IsAlphaNumeric(c: char) { '0' <= c <= '9' || 'a' <= c <= 'z' || 'A' <= c <= 'Z' }

  predicate IsSha256(s: string) { |s| == 64 && forall i | 0 <= i < |s| :: IsLowerHex(s[i]) }

  /** A portable identifier: `[A-Za-z0-9][A-Za-z0-9._-]{0,127}`. */
  predicate IsIdentifier(s: string)
  {
    && 1 <= |s| <= 128 && IsAlphaNumeric(s[0])
    && forall i | 1 <= i < |s| :: IsAlphaNumeric(s[i]) || s[i] in "._-"
  }
}
