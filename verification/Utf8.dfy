/** UTF-8 as Python writes and reads it; a `char` is a Unicode scalar value. */
module Utf8 {
  import opened Wrappers

  const SIX := 64
  const TWELVE := 4096
  const EIGHTEEN := 262144

  function Tail(n: nat): Byte { 128 + n % SIX }

  function EncodeChar(c: char): (r: Bytes)
    ensures 1 <= |r| <= 4
  {
    var n := c as int;
    if n < 0x80 then [n]
    else if n < 0x800 then [0xC0 + n / SIX, Tail(n)]
    else if n < 0x10000 then [0xE0 + n / TWELVE, Tail(n / SIX), Tail(n)]
    else [0xF0 + n / EIGHTEEN, Tail(n / TWELVE), Tail(n / SIX), Tail(n)]
  }

  function Encode(s: string): (r: Bytes)
    ensures |s| <= |r| <= 4 * |s|
  {
    if s == "" then [] else EncodeChar(s[0]) + Encode(s[1..])
  }

  /** How many bytes the lead byte announces; 0 for a byte that cannot lead. */
  function LengthAt(lead: Byte): nat
  {
    if lead < 0x80 then 1 else if 0xC0 <= lead < 0xE0 then 2
    else if 0xE0 <= lead < 0xF0 then 3 else if 0xF0 <= lead < 0xF8 then 4 else 0
  }

  /** What a byte contributes above its marker. */
  function Above(b: Byte, marker: int): int { b - marker }

  function CodeAt(b: Bytes): int
    requires b != [] && 1 <= LengthAt(b[0]) <= |b|
  {
    var n := LengthAt(b[0]);
    if n == 1 then Above(b[0], 0)
    else if n == 2 then Above(b[0], 0xC0) * SIX + Above(b[1], 128)
    else if n == 3 then Above(b[0], 0xE0) * TWELVE + Above(b[1], 128) * SIX + Above(b[2], 128)
    else Above(b[0], 0xF0) * EIGHTEEN + Above(b[1], 128) * TWELVE + Above(b[2], 128) * SIX + Above(b[3], 128)
  }

  predicate Scalar(n: int) { 0 <= n < 0xD800 || 0xE000 <= n < 0x11_0000 }

  /** The shortest form of a scalar value is the only one that is read. */
  function Decode(b: Bytes): Option<string>
  {
    if b == [] then Some("")
    else
      var n := LengthAt(b[0]);
      if n == 0 || n > |b| || !Scalar(CodeAt(b)) || EncodeChar(CodeAt(b) as char) != b[..n] then None
      else
        match Decode(b[n..])
        case None => None
        case Some(rest) => Some([CodeAt(b) as char] + rest)
  }

  lemma CharReadsBack(c: char, rest: Bytes)
    ensures var b := EncodeChar(c) + rest;
            LengthAt(b[0]) == |EncodeChar(c)| && CodeAt(b) == c as int
  {
    var n := c as int;
    assert n == n / SIX * SIX + n % SIX;
    assert n / SIX == n / TWELVE * SIX + n / SIX % SIX;
    assert n / TWELVE == n / EIGHTEEN * SIX + n / TWELVE % SIX;
  }

  lemma {:induction false} EncodedReadsBack(s: string)
    ensures Decode(Encode(s)) == Some(s)
    decreases |s|
  {
    if s != "" {
      CharReadsBack(s[0], Encode(s[1..]));
      EncodedReadsBack(s[1..]);
      var b, n := Encode(s), |EncodeChar(s[0])|;
      assert b[..n] == EncodeChar(s[0]) && b[n..] == Encode(s[1..]);
      assert [s[0]] + s[1..] == s;
    }
  }
}
