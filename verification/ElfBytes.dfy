/** Bytes, little-endian fields, in-place patches and NUL-terminated strings. */
module ElfBytes {
  import opened Basics

  /** 256 to the n. */
  function Pow256(n: nat): (p: nat)
    ensures p >= 1
  {
    if n == 0 then 1 else 256 * Pow256(n - 1)
  }

  /** The n-byte little-endian number at offset o. */
  function Read(d: seq<byte>, o: nat, n: nat): (v: nat)
    requires o + n <= |d|
    decreases n
  {
    if n == 0 then 0 else d[o] + 256 * Read(d, o + 1, n - 1)
  }

  lemma {:induction false} ReadBound(d: seq<byte>, o: nat, n: nat)
    requires o + n <= |d|
    ensures Read(d, o, n) < Pow256(n)
    decreases n
  {
    if n > 0 { ReadBound(d, o + 1, n - 1); }
  }

  /** The n bytes of v, least significant first. */
  function Bytes(v: nat, n: nat): (s: seq<byte>)
    ensures |s| == n
    decreases n
  {
    if n == 0 then [] else [v % 256] + Bytes(v / 256, n - 1)
  }

  lemma {:induction false} ReadBytes(d: seq<byte>, o: nat, v: nat, n: nat)
    requires o + n <= |d| && d[o..o + n] == Bytes(v, n) && v < Pow256(n)
    ensures Read(d, o, n) == v
    decreases n
  {
    if n > 0 {
      assert d[o + 1..o + n] == d[o..o + n][1..];
      assert d[o] == d[o..o + n][0];
      ReadBytes(d, o + 1, v / 256, n - 1);
    }
  }

  /** A field reads the same wherever its bytes are the same. */
  lemma {:induction false} ReadFrame(d: seq<byte>, e: seq<byte>, o: nat, p: nat, n: nat)
    requires o + n <= |d| && p + n <= |e|
    requires d[o..o + n] == e[p..p + n]
    ensures Read(d, o, n) == Read(e, p, n)
    decreases n
  {
    if n > 0 {
      assert d[o] == d[o..o + n][0] && e[p] == e[p..p + n][0];
      assert d[o + 1..o + n] == d[o..o + n][1..];
      assert e[p + 1..p + n] == e[p..p + n][1..];
      ReadFrame(d, e, o + 1, p + 1, n - 1);
    }
  }

  /** struct.pack_into at offset o. */
  function Patch(d: seq<byte>, o: nat, s: seq<byte>): (e: seq<byte>)
    requires o + |s| <= |d|
    ensures |e| == |d|
    ensures forall i :: 0 <= i < |d| ==> e[i] == if o <= i < o + |s| then s[i - o] else d[i]
  {
    d[..o] + s + d[o + |s|..]
  }

  method PackInto(a: array<byte>, o: nat, s: seq<byte>)
    requires o + |s| <= a.Length
    modifies a
    ensures a[..] == Patch(old(a[..]), o, s)
  {
    var i := 0;
    while i < |s|
      invariant 0 <= i <= |s|
      invariant forall k :: 0 <= k < a.Length ==> a[k] == if o <= k < o + i then s[k - o] else old(a[k])
    {
      a[o + i] := s[i];
      i := i + 1;
    }
  }

  /** The bytes from o up to the next NUL, if there is one. */
  function CString(d: seq<byte>, o: nat): (r: Option<seq<byte>>)
    decreases |d| - o
  {
    if o >= |d| then None
    else if d[o] == 0 then Some([])
    else match CString(d, o + 1)
      case None => None
      case Some(s) => Some([d[o]] + s)
  }

  /** CString finds exactly the bytes before the first NUL. */
  lemma {:induction false} CStringMeans(d: seq<byte>, o: nat)
    ensures CString(d, o).Some? ==>
              var s := CString(d, o).value;
              && o + |s| < |d| && d[o..o + |s|] == s && d[o + |s|] == 0 && 0 !in s
    ensures CString(d, o).None? <==> forall i :: o <= i < |d| ==> d[i] != 0
    decreases |d| - o
  {
    if o < |d| && d[o] != 0 {
      CStringMeans(d, o + 1);
      if CString(d, o + 1).Some? {
        var t := CString(d, o + 1).value;
        assert d[o..o + 1 + |t|] == [d[o]] + d[o + 1..o + 1 + |t|];
      }
    }
  }

  /** A string that ends inside a copied range reads the same in the copy. */
  lemma {:induction false} CStringCopied(d: seq<byte>, o: nat, e: seq<byte>, p: nat, n: nat)
    requires n > 0 && o + n <= |d| && p + n <= |e|
    requires d[o..o + n] == e[p..p + n]
    requires d[o + n - 1] == 0
    ensures CString(d, o) == CString(e, p) && CString(d, o).Some?
    decreases n
  {
    assert d[o] == d[o..o + n][0] && e[p] == e[p..p + n][0];
    if d[o] != 0 {
      assert d[o + 1..o + n] == d[o..o + n][1..];
      assert e[p + 1..p + n] == e[p..p + n][1..];
      CStringCopied(d, o + 1, e, p + 1, n - 1);
    }
  }

  /** A literal followed by a NUL reads back as the literal. */
  lemma {:induction false} CStringLiteral(d: seq<byte>, o: nat, s: seq<byte>)
    requires o + |s| < |d| && d[o..o + |s|] == s && 0 !in s && d[o + |s|] == 0
    ensures CString(d, o) == Some(s)
    decreases |s|
  {
    if s != [] {
      assert d[o] == d[o..o + |s|][0] == s[0];
      assert s[0] in s;
      assert d[o + 1..o + |s|] == d[o..o + |s|][1..];
      CStringLiteral(d, o + 1, s[1..]);
      assert s == [s[0]] + s[1..];
    }
  }

  /** A slice of a slice. */
  lemma {:induction false} SubSlice(s: seq<byte>, a: nat, b: nat, i: nat, j: nat)
    requires a <= b <= |s| && i <= j <= b - a
    ensures s[a..b][i..j] == s[a + i..a + j]
  {
    var l, r := s[a..b][i..j], s[a + i..a + j];
    forall k | 0 <= k < j - i ensures l[k] == r[k] {
      assert l[k] == s[a..b][i + k] == s[a + i + k];
    }
    assert l == r;
  }

  /** (x + 15) & ~15. */
  function RoundUp16(x: nat): (r: nat)
    ensures x <= r < x + 16 && r % 16 == 0
  {
    x + 15 - (x + 15) % 16
  }

  /** (x + 7) & ~7. */
  function RoundUp8(x: nat): (r: nat)
    ensures x <= r < x + 8 && r % 8 == 0
  {
    x + 7 - (x + 7) % 8
  }

  const ALIGN: nat := 0x10000

  /** x & ~(ALIGN - 1), which rounds negative numbers down as well. */
  function RoundDownAlign(x: int): (r: int)
    ensures x - ALIGN < r <= x && r % ALIGN == 0
  {
    x - x % ALIGN
  }
}
