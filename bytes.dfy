/** Bytes, C strings and the 32-bit signed integers the emitters compute with. */
module Bytes {

  newtype byte = x: int | 0 <= x < 256

  const NUL: byte := 0
  const LF: byte := 10
  const ESC: byte := 0x1b

  /** Largest value of the source's `i32` (`int32_t`), also the largest length `vsnprintf` can report. */
  const I32_MAX: int := 0x7fff_ffff
  const I32_MIN: int := -0x8000_0000

  predicate IsI32(x: int) { I32_MIN <= x <= I32_MAX }

  /** Two's-complement wrap-around of an integer into the `i32` range. */
  function WrapI32(x: int): (r: int)
    ensures IsI32(r)
    ensures (r - x) % 0x1_0000_0000 == 0
    ensures IsI32(x) ==> r == x
  {
    (x - I32_MIN) % 0x1_0000_0000 + I32_MIN
  }

  /** Printable or control ASCII, without NUL. */
  predicate IsAscii(s: string) { forall i :: 0 <= i < |s| ==> 0 < s[i] as int < 128 }

  /** The bytes of a C string literal of ASCII characters: one byte per character, its code.
      Every literal of the emitters is ASCII (`IsAscii`, proved where each is used); for other
      characters, which C encodes in several bytes, the code is only taken modulo 256. */
  function Ascii(s: string): (b: seq<byte>)
    ensures |b| == |s|
    ensures forall i :: 0 <= i < |s| ==> b[i] as int == s[i] as int % 256
    ensures IsAscii(s) ==> NUL !in b
  {
    seq(|s|, i requires 0 <= i < |s| => (s[i] as int % 256) as byte)
  }

  /** A C string: bytes that contain a terminating NUL somewhere. */
  type CString = s: seq<byte> | NUL in s witness [NUL]

  /** `strlen`: the index of the first NUL. */
  function StrLen(s: CString): (n: nat)
    ensures n < |s| && s[n] == NUL
    ensures forall i :: 0 <= i < n ==> s[i] != NUL
  {
    if s[0] == NUL then 0 else 1 + StrLen(s[1..])
  }

  /** The characters of a C string, up to and excluding its first NUL. */
  function Text(s: CString): seq<byte>
  {
    s[..StrLen(s)]
  }

  /** The C string a literal denotes: its bytes and the NUL the compiler appends. */
  function Literal(s: seq<byte>): CString
  {
    s + [NUL]
  }

  /** A literal's text is exactly the bytes it was written with. */
  lemma TextOfLiteral(s: seq<byte>)
    requires NUL !in s
    ensures StrLen(Literal(s)) == |s|
    ensures Text(Literal(s)) == s
  {
  }
}
