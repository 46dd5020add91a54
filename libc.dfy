/**
 * The C library calls the emitters make on their buffers: `snprintf`/`vsnprintf`
 * into a window of an array, `memcpy` of a prefix, and `malloc`.
 * Each array operation is tied to a function on the buffer's contents.
 */
module LibC {
  import opened Bytes

  /** What a format and its arguments denote: the fully rendered text, or an encoding failure. */
  datatype Rendering = Rendered(text: seq<byte>) | Failed

  function Min(a: int, b: int): int { if a < b then a else b }

  /** The value `vsnprintf` returns: the full length of the text, even when it is truncated,
      or -1 on failure (an encoding error, or a text too long for an `int`). */
  function Measure(r: Rendering): (n: int)
    ensures -1 <= n <= I32_MAX
    ensures n >= 0 ==> r.Rendered? && n == |r.text|
    ensures r.Rendered? && |r.text| <= I32_MAX ==> n == |r.text|
  {
    if r.Failed? || |r.text| > I32_MAX then -1 else |r.text|
  }

  /** The buffer after `snprintf`-family output of `s` into the window `buf[off..off + size]`:
      the first `min(|s|, size - 1)` bytes of `s` followed by a NUL; nothing at all when `size == 0`. */
  function Snprinted(buf: seq<byte>, off: nat, size: nat, s: seq<byte>): (r: seq<byte>)
    requires off + size <= |buf|
    ensures |r| == |buf|
  {
    if size == 0 then buf
    else
      var w := Min(|s|, size - 1);
      buf[..off] + s[..w] + [NUL] + buf[off + w + 1..]
  }

  /** A window write changes no byte outside its window. */
  lemma SnprintedFrame(buf: seq<byte>, off: nat, size: nat, s: seq<byte>, j: nat)
    requires off + size <= |buf| && j < |buf| && !(off <= j < off + size)
    ensures Snprinted(buf, off, size, s)[j] == buf[j]
  {
  }

  /** What a window write stores: the kept bytes of `s` at `off`, then the NUL. */
  lemma SnprintedStores(buf: seq<byte>, off: nat, size: nat, s: seq<byte>)
    requires off + size <= |buf| && size > 0
    ensures var r, w := Snprinted(buf, off, size, s), Min(|s|, size - 1);
      r[off..off + w] == s[..w] && r[off + w] == NUL
  {
    var r, w := Snprinted(buf, off, size, s), Min(|s|, size - 1);
    assert r == buf[..off] + s[..w] + [NUL] + buf[off + w + 1..];
    assert r[off..off + w] == s[..w];
  }

  /** The buffer after `memcpy(dst, src, n)`. */
  function Memcpied(dst: seq<byte>, src: seq<byte>, n: nat): (r: seq<byte>)
    requires n <= |src| && n <= |dst|
    ensures |r| == |dst|
  {
    src[..n] + dst[n..]
  }

  /** `vsnprintf(a + off, size, fmt, args)`. Every byte it writes lies in `a[off..off + size]`. */
  method Vsnprintf(a: array<byte>, off: nat, size: nat, r: Rendering) returns (n: int)
    requires off + size <= a.Length
    modifies a
    ensures n == Measure(r)
    ensures n >= 0 ==> a[..] == Snprinted(old(a[..]), off, size, r.text)
    ensures n < 0 ==> forall j :: 0 <= j < a.Length && !(off <= j < off + size) ==> a[j] == old(a[j])
  {
    n := Measure(r);
    if n < 0 || size == 0 {
      return;
    }
    var w := Min(n, size - 1);
    var i := 0;
    while i < w
      invariant 0 <= i <= w
      invariant forall j :: 0 <= j < a.Length ==> a[j] == if off <= j < off + i then r.text[j - off] else old(a[j])
    {
      a[off + i] := r.text[i];
      i := i + 1;
    }
    a[off + w] := NUL;
    ghost var want := Snprinted(old(a[..]), off, size, r.text);
    assert forall j :: 0 <= j < a.Length ==> a[j] == want[j];
    assert a[..] == want;
  }

  /** `memcpy(dst, src, n)`. Every byte it writes lies in `dst[..n]`. */
  method Memcpy(dst: array<byte>, src: seq<byte>, n: nat)
    requires n <= |src| && n <= dst.Length
    modifies dst
    ensures dst[..] == Memcpied(old(dst[..]), src, n)
  {
    var i := 0;
    while i < n
      invariant 0 <= i <= n
      invariant forall j :: 0 <= j < dst.Length ==> dst[j] == if j < i then src[j] else old(dst[j])
    {
      dst[i] := src[i];
      i := i + 1;
    }
    assert dst[..] == Memcpied(old(dst[..]), src, n);
  }

  /** `malloc(n)`: either a fresh block of exactly `n` bytes of unspecified contents, or NULL. */
  method Malloc(n: nat) returns (p: array?<byte>)
    ensures p != null ==> fresh(p) && p.Length == n
  {
    var available: bool :| true;
    if available {
      p := new byte[n];
    } else {
      p := null;
    }
  }
}
