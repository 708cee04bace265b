/** The packed 10-bit rows of the ISP, unpacked in three ways: get10 and the
    five-bytes-to-four-pixels form of bridge.c, and the bit matrix of mtisp.py. */
module MtispUnpack {
  import opened Basics
  import opened CBits

  /** A row as one little-endian number. */
  function Num(row: seq<byte>): nat {
    if row == [] then 0 else row[0] + 256 * Num(row[1..])
  }

  /** The i-th 10-bit field of a row: what every unpacker must return. */
  function Pixel(row: seq<byte>, i: nat): (v: nat)
    ensures v < 1024
  {
    Shr(Num(row), 10 * i) % 1024
  }

  // ---- the three unpackers -----------------------------------------------

  /** get10. It reads three bytes, whether or not the row has them. */
  function Get10(mem: seq<byte>, row: nat, i: nat): nat
    requires row + 10 * i / 8 + 2 < |mem|
  {
    var bit := i * 10;
    var at, sh := row + Shr(bit, 3), And(bit, 7);
    assert Shr(bit, 3) == bit / 8 by { ShrIsDiv(bit, 3); Pow2Values(); }
    var v := Or(Or(mem[at], Shl(mem[at + 1], 8)), Shl(mem[at + 2], 16));
    And(Shr(v, sh), 0x3ff)
  }

  /** Four pixels from the five bytes at a. */
  function Fast(m: seq<byte>, a: nat): (r: (nat, nat, nat, nat))
    requires a + 5 <= |m|
  {
    (Or(m[a], Shl(And(m[a + 1], 0x03), 8)),
     Or(Shr(m[a + 1], 2), Shl(And(m[a + 2], 0x0f), 6)),
     Or(Shr(m[a + 2], 4), Shl(And(m[a + 3], 0x3f), 4)),
     Or(Shr(m[a + 3], 6), Shl(m[a + 4], 2)))
  }

  /** The j-th bit of a row, as unpackbits gives it in little bit order. */
  function Bit(row: seq<byte>, j: nat): (b: nat)
    requires j / 8 < |row|
    ensures b <= 1
  {
    Shr(row[j / 8], j % 8) % 2
  }

  /** Sum over k < n of bit (j + k) times 2 to the k: one line of the reshaped matrix
      times the powers of two. */
  function BitSum(row: seq<byte>, j: nat, n: nat): nat
    requires j + n <= 8 * |row|
    decreases n
  {
    if n == 0 then 0 else BitSum(row, j, n - 1) + Bit(row, j + n - 1) * Pow2(n - 1)
  }

  // ---- shifts ------------------------------------------------------------

  lemma {:induction false} ShrAdd(a: nat, j: nat, k: nat)
    ensures Shr(a, j + k) == Shr(Shr(a, j), k)
    decreases j
  {
    if j > 0 { ShrAdd(a / 2, j - 1, k); }
  }

  /** Shifting by whole bytes drops them. */
  lemma {:induction false} ShrBytes(row: seq<byte>, n: nat)
    requires n <= |row|
    ensures Shr(Num(row), 8 * n) == Num(row[n..])
    decreases n
  {
    if n > 0 {
      ShrAdd(Num(row), 8, 8 * (n - 1));
      Shr8(Num(row));
      ShrBytes(row[1..], n - 1);
      assert row[1..][n - 1..] == row[n..];
    } else {
      assert row[0..] == row;
    }
  }

  lemma {:induction false} Shr8(a: nat)
    ensures Shr(a, 8) == a / 256
  {
    ShrIsDiv(a, 8);
    Pow2Values();
  }

  /** The 16 bits at a byte, with everything above them. */
  lemma {:induction false} NumTwo(row: seq<byte>, n: nat)
    requires n + 2 <= |row|
    ensures exists rest: nat :: Num(row[n..]) == Two(row, n) + 65536 * rest
  {
    assert row[n..][1..] == row[n + 1..] && row[n + 1..][1..] == row[n + 2..];
    assert Num(row[n..]) == Two(row, n) + 65536 * Num(row[n + 2..]);
  }

  /** Four even shifts are the only ones a 10-bit field needs. */
  lemma {:induction false} ShrSmall(a: nat)
    ensures Shr(a, 0) == a && Shr(a, 2) == a / 4 && Shr(a, 4) == a / 16 && Shr(a, 6) == a / 64
    ensures Shr(a, 1) == a / 2 && Shr(a, 3) == a / 8 && Shr(a, 5) == a / 32 && Shr(a, 7) == a / 128
  {
    Pow2Values();
    ShrIsDiv(a, 0);
    ShrIsDiv(a, 1);
    ShrIsDiv(a, 2);
    ShrIsDiv(a, 3);
    ShrIsDiv(a, 4);
    ShrIsDiv(a, 5);
    ShrIsDiv(a, 6);
    ShrIsDiv(a, 7);
  }

  lemma {:induction false} DropMultiple(x: nat, k: nat)
    ensures (x + 1024 * k) % 1024 == x % 1024
  {
  }

  lemma {:induction false} DivAway(lo: nat, rest: nat)
    ensures (lo + 65536 * rest) / 4 == lo / 4 + 1024 * (16 * rest)
    ensures (lo + 65536 * rest) / 16 == lo / 16 + 1024 * (4 * rest)
    ensures (lo + 65536 * rest) / 64 == lo / 64 + 1024 * rest
  {
  }

  /** A field starting at an even bit sh < 8 lies in 16 bits. */
  lemma {:induction false} FieldInTwoBytes(lo: nat, rest: nat, sh: nat)
    requires sh == 0 || sh == 2 || sh == 4 || sh == 6
    ensures Shr(lo + 65536 * rest, sh) % 1024 == Shr(lo, sh) % 1024
  {
    hide Shr;
    ShrSmall(lo + 65536 * rest);
    ShrSmall(lo);
    DivAway(lo, rest);
    DropMultiple(lo, 64 * rest);
    DropMultiple(lo / 4, 16 * rest);
    DropMultiple(lo / 16, 4 * rest);
    DropMultiple(lo / 64, rest);
  }

  /** The 16 bits at a byte. */
  function Two(row: seq<byte>, n: nat): nat
    requires n + 2 <= |row|
  {
    row[n] as int + 256 * (row[n + 1] as int)
  }

  /** Where a pixel's bits are. */
  lemma {:induction false} PixelBytes(row: seq<byte>, i: nat)
    requires 10 * i + 10 <= 8 * |row|
    ensures 10 * i / 8 + 2 <= |row|
    ensures Pixel(row, i) == Shr(Two(row, 10 * i / 8), 10 * i % 8) % 1024
  {
    var at, sh := 10 * i / 8, 10 * i % 8;
    assert 10 * i == 8 * at + sh;
    ShrAdd(Num(row), 8 * at, sh);
    ShrBytes(row, at);
    NumTwo(row, at);
    var rest: nat :| Num(row[at..]) == Two(row, at) + 65536 * rest;
    FieldInTwoBytes(Two(row, at), rest, sh);
  }

  // ---- get10 -------------------------------------------------------------

  lemma {:induction false} ShlIs(x: nat, k: nat, p: nat)
    requires p == Pow2(k) && x * p < WORD
    ensures Shl(x, k) == x * p
  {
    hide Pow2;
  }

  /** A value below 2 to the k, and one shifted above it. */
  lemma {:induction false} OrShl(a: nat, b: nat, k: nat, p: nat)
    requires p == Pow2(k) && a < p && b * p < WORD
    ensures Or(a, Shl(b, k)) == a + b * p
  {
    hide Pow2, Or, Shl;
    ShlIs(b, k, p);
    OrDisjoint(a, b, k);
  }

  lemma {:induction false} Bytes3(a: byte, b: byte, c: byte)
    ensures Or(Or(a, Shl(b, 8)), Shl(c, 16)) == a as int + 256 * (b as int) + 65536 * (c as int)
  {
    hide Or, Shl, Pow2;
    Pow2Values();
    OrShl(a, b, 8, 256);
    OrShl(a as int + 256 * (b as int), c, 16, 65536);
  }

  lemma {:induction false} Masks(a: nat)
    ensures And(a, 7) == a % 8 && And(a, 0x3ff) == a % 1024
    ensures And(a, 0x03) == a % 4 && And(a, 0x0f) == a % 16 && And(a, 0x3f) == a % 64
  {
    Pow2Values();
    AndMask(a, 3);
    AndMask(a, 10);
    AndMask(a, 2);
    AndMask(a, 4);
    AndMask(a, 6);
    hide And;
  }

  /** get10 returns the pixel of the row, although its third byte may lie behind the
      row: no field needs it. */
  lemma {:induction false} Get10IsPixel(mem: seq<byte>, row: nat, n: nat, i: nat)
    requires row + n <= |mem| && 10 * i + 10 <= 8 * n && row + 10 * i / 8 + 2 < |mem|
    ensures Get10(mem, row, i) == Pixel(mem[row..row + n], i)
  {
    hide Num, Or, And, Shr, Shl, Pixel;
    var at, sh := row + 10 * i / 8, 10 * i % 8;
    Masks(10 * i);
    ShrSmall(10 * i);
    Bytes3(mem[at], mem[at + 1], mem[at + 2]);
    FieldInTwoBytes(Two(mem, at), mem[at + 2], sh);
    Masks(Shr(Two(mem, at) + 65536 * (mem[at + 2] as int), sh));
    PixelBytes(mem[row..row + n], i);
    assert Two(mem[row..row + n], 10 * i / 8) == Two(mem, at);
  }

  /** Any byte may follow the two that hold the field. */
  lemma {:induction false} ThirdByteIgnored(mem: seq<byte>, row: nat, i: nat, x: byte)
    requires row + 10 * i / 8 + 2 < |mem|
    ensures Get10(mem[row + 10 * i / 8 + 2 := x], row, i) == Get10(mem, row, i)
  {
    hide Get10, Pixel;
    FieldEnds(i);
    var n := 10 * i / 8 + 2;
    Get10IsPixel(mem, row, n, i);
    Get10IsPixel(mem[row + n := x], row, n, i);
    SameInFront(mem, row, n, x);
  }

  /** The field of value i lies in the first two bytes from its byte on. */
  lemma {:induction false} FieldEnds(i: nat)
    ensures 10 * i + 10 <= 8 * (10 * i / 8 + 2)
  {
  }

  lemma {:induction false} SameInFront(mem: seq<byte>, row: nat, n: nat, x: byte)
    requires row + n < |mem|
    ensures mem[row + n := x][row..row + n] == mem[row..row + n]
  {
  }

  // ---- five bytes, four pixels -------------------------------------------

  lemma {:induction false} FieldSplit(a: byte, b: byte)
    ensures a as int + 256 * (b % 4) == (a as int + 256 * (b as int)) % 1024
    ensures a / 4 + 64 * (b % 16) == ((a as int + 256 * (b as int)) / 4) % 1024
    ensures a / 16 + 16 * (b % 64) == ((a as int + 256 * (b as int)) / 16) % 1024
    ensures a / 64 + 4 * (b as int) == ((a as int + 256 * (b as int)) / 64) % 1024
  {
    FieldQuotients(a, b);
    Below(a as int + 256 * (b % 4), b / 4);
    Below(a / 4 + 64 * (b % 16), b / 16);
    Below(a / 16 + 16 * (b % 64), b / 64);
    Below(a / 64 + 4 * (b as int), 0);
  }

  lemma {:induction false} FieldQuotients(a: byte, b: byte)
    ensures a as int + 256 * (b as int) == a as int + 256 * (b % 4) + 1024 * (b / 4)
    ensures (a as int + 256 * (b as int)) / 4 == a / 4 + 64 * (b % 16) + 1024 * (b / 16)
    ensures (a as int + 256 * (b as int)) / 16 == a / 16 + 16 * (b % 64) + 1024 * (b / 64)
    ensures (a as int + 256 * (b as int)) / 64 == a / 64 + 4 * (b as int)
  {
    assert (a as int + 256 * (b as int)) / 4 == a / 4 + 64 * (b as int);
    assert (a as int + 256 * (b as int)) / 16 == a / 16 + 16 * (b as int);
  }

  lemma {:induction false} Below(x: nat, k: nat)
    requires x < 1024
    ensures (x + 1024 * k) % 1024 == x
  {
  }

  lemma {:induction false} Fast0(a: byte, b: byte)
    ensures Or(a, Shl(And(b, 0x03), 8)) == (a as int + 256 * (b as int)) % 1024
  {
    hide Or, And, Shl, Pow2;
    Pow2Values();
    Masks(b);
    OrShl(a, b % 4, 8, 256);
    FieldSplit(a, b);
  }

  lemma {:induction false} Fast1(a: byte, b: byte)
    ensures Or(Shr(a, 2), Shl(And(b, 0x0f), 6)) == Shr(a as int + 256 * (b as int), 2) % 1024
  {
    hide Or, And, Shl, Shr, Pow2;
    Pow2Values();
    Masks(b);
    ShrSmall(a);
    ShrSmall(a as int + 256 * (b as int));
    OrShl(a / 4, b % 16, 6, 64);
    FieldSplit(a, b);
  }

  lemma {:induction false} Fast2(a: byte, b: byte)
    ensures Or(Shr(a, 4), Shl(And(b, 0x3f), 4)) == Shr(a as int + 256 * (b as int), 4) % 1024
  {
    hide Or, And, Shl, Shr, Pow2;
    Pow2Values();
    Masks(b);
    ShrSmall(a);
    ShrSmall(a as int + 256 * (b as int));
    OrShl(a / 16, b % 64, 4, 16);
    FieldSplit(a, b);
  }

  lemma {:induction false} Fast3(a: byte, b: byte)
    ensures Or(Shr(a, 6), Shl(b, 2)) == Shr(a as int + 256 * (b as int), 6) % 1024
  {
    hide Or, Shl, Shr, Pow2;
    Pow2Values();
    ShrSmall(a);
    ShrSmall(a as int + 256 * (b as int));
    OrShl(a / 64, b, 2, 4);
    FieldSplit(a, b);
  }

  lemma {:induction false} GroupBytes(g: nat)
    ensures 10 * (4 * g) / 8 == 5 * g && 10 * (4 * g) % 8 == 0
    ensures 10 * (4 * g + 1) / 8 == 5 * g + 1 && 10 * (4 * g + 1) % 8 == 2
    ensures 10 * (4 * g + 2) / 8 == 5 * g + 2 && 10 * (4 * g + 2) % 8 == 4
    ensures 10 * (4 * g + 3) / 8 == 5 * g + 3 && 10 * (4 * g + 3) % 8 == 6
  {
  }

  /** The fast form reads five bytes of the row and gives its next four pixels. */
  lemma {:induction false} FastIsPixels(mem: seq<byte>, row: nat, n: nat, g: nat)
    requires row + n <= |mem| && 5 * g + 5 <= n
    ensures var r := mem[row..row + n];
            Fast(mem, row + 5 * g) == (Pixel(r, 4 * g), Pixel(r, 4 * g + 1), Pixel(r, 4 * g + 2), Pixel(r, 4 * g + 3))
  {
    hide Num, Or, And, Shr, Shl, Pixel;
    var r, a := mem[row..row + n], row + 5 * g;
    GroupBytes(g);
    PixelBytes(r, 4 * g);
    PixelBytes(r, 4 * g + 1);
    PixelBytes(r, 4 * g + 2);
    PixelBytes(r, 4 * g + 3);
    Fast0(mem[a], mem[a + 1]);
    Fast1(mem[a + 1], mem[a + 2]);
    Fast2(mem[a + 2], mem[a + 3]);
    Fast3(mem[a + 3], mem[a + 4]);
    ShrSmall(Two(r, 5 * g));
  }

  // ---- the bit matrix ----------------------------------------------------

  /** Bit j of a row is bit j of its number. */
  lemma {:induction false} BitOfNum(row: seq<byte>, j: nat)
    requires j / 8 < |row|
    ensures Bit(row, j) == Shr(Num(row), j) % 2
  {
    hide Shr;
    var n, s := j / 8, j % 8;
    ShrAdd(Num(row), 8 * n, s);
    ShrBytes(row, n);
    assert Num(row[n..]) == row[n] + 256 * Num(row[n..][1..]);
    ShrSmall(row[n]);
    ShrSmall(Num(row[n..]));
    LowBit(row[n], Num(row[n..][1..]), s);
  }

  lemma {:induction false} LowBit(a: byte, rest: nat, s: nat)
    requires s < 8
    ensures Shr(a as int + 256 * rest, s) % 2 == Shr(a, s) % 2
  {
    hide Shr;
    ShrSmall(a);
    ShrSmall(a as int + 256 * rest);
    LowBits(a, rest);
    if s == 0 {
      Even(a, 128 * rest);
    } else if s == 1 {
      Even(a / 2, 64 * rest);
    } else if s == 2 {
      Even(a / 4, 32 * rest);
    } else if s == 3 {
      Even(a / 8, 16 * rest);
    } else if s == 4 {
      Even(a / 16, 8 * rest);
    } else if s == 5 {
      Even(a / 32, 4 * rest);
    } else if s == 6 {
      Even(a / 64, 2 * rest);
    } else {
      Even(a / 128, rest);
    }
  }

  lemma {:induction false} Even(x: nat, k: nat)
    ensures (x + 2 * k) % 2 == x % 2
  {
  }

  lemma {:induction false} LowBits(a: byte, rest: nat)
    ensures (a as int + 256 * rest) / 2 == a / 2 + 2 * (64 * rest)
    ensures (a as int + 256 * rest) / 4 == a / 4 + 2 * (32 * rest)
    ensures (a as int + 256 * rest) / 8 == a / 8 + 2 * (16 * rest)
    ensures (a as int + 256 * rest) / 16 == a / 16 + 2 * (8 * rest)
    ensures (a as int + 256 * rest) / 32 == a / 32 + 2 * (4 * rest)
    ensures (a as int + 256 * rest) / 64 == a / 64 + 2 * (2 * rest)
    ensures (a as int + 256 * rest) / 128 == a / 128 + 2 * rest
  {
  }

  /** The low n bits are the sum of the bits times their weights. */
  lemma {:induction false} BitSumIsField(row: seq<byte>, j: nat, n: nat)
    requires j + n <= 8 * |row|
    ensures BitSum(row, j, n) == Shr(Num(row), j) % Pow2(n)
    decreases n
  {
    hide Num, Shr, Bit;
    if n > 0 {
      BitSumIsField(row, j, n - 1);
      BitOfNum(row, j + n - 1);
      ShrAdd(Num(row), j, n - 1);
      TopBit(Shr(Num(row), j), n - 1);
    }
  }

  /** One more bit of a number. */
  lemma {:induction false} TopBit(x: nat, n: nat)
    ensures x % Pow2(n + 1) == x % Pow2(n) + (Shr(x, n) % 2) * Pow2(n)
  {
    var p := Pow2(n);
    ShrIsDiv(x, n);
    DivNonneg(x, p);
    hide Pow2, Shr;
    assert Pow2(n + 1) == 2 * p by { Pow2Add(1, n); Pow2Values(); }
    SplitMod(x, p);
  }

  lemma {:induction false} SplitMod(x: nat, p: nat)
    requires p >= 1
    ensures x / p >= 0 && x % (2 * p) == x % p + ((x / p) % 2) * p
  {
    DivNonneg(x, p);
    var q, r := x / p, x % p;
    var h, b := q / 2, q % 2;
    assert x == p * q + r;
    Halves(p, h, b);
    ModIs(x, 2 * p, h, b * p + r);
  }

  lemma {:induction false} Halves(p: nat, h: nat, b: nat)
    ensures p * (2 * h + b) == (2 * p) * h + b * p
    ensures b <= 1 ==> b * p <= p
  {
    MulAssoc(p, 2, h);
  }

  /** unpack of mtisp.py: the pixels of H rows of W from the bytes of a file. None where
      numpy refuses to reshape, which it also does for no rows at all. */
  function Unpack(file: seq<byte>, w: nat, h: nat): Option<seq<seq<nat>>> {
    var stride := w * 10 / 8;
    if h == 0 || |file| < stride * h || 8 * stride < 10 * w then None
    else Some(seq(h, y requires 0 <= y < h => UnpackRow(RowOf(file, stride, h, y), w)))
  }

  lemma {:induction false} RowInside(stride: nat, h: nat, y: nat)
    requires y < h
    ensures y * stride + stride <= stride * h
  {
    MulGap(stride, y, h);
  }

  function RowOf(file: seq<byte>, stride: nat, h: nat, y: nat): (r: seq<byte>)
    requires y < h && stride * h <= |file|
    ensures |r| == stride
  {
    RowInside(stride, h, y);
    file[y * stride..y * stride + stride]
  }

  function UnpackRow(row: seq<byte>, w: nat): (r: seq<nat>)
    requires 10 * w <= 8 * |row|
    ensures |r| == w
  {
    seq(w, i requires 0 <= i < w => BitSum(row, 10 * i, 10))
  }

  /** For a width that is a multiple of 4, the file is unpacked exactly when there are rows
      and it is not short, and every value is the pixel of its row. */
  lemma {:induction false} UnpackIsPixels(file: seq<byte>, w: nat, h: nat)
    requires w % 4 == 0
    ensures Unpack(file, w, h).Some? <==> h > 0 && (w * 10 / 8) * h <= |file|
    ensures Unpack(file, w, h).Some? ==>
              var r := Unpack(file, w, h).value;
              |r| == h && forall y :: 0 <= y < h ==>
                |r[y]| == w && forall i :: 0 <= i < w ==> r[y][i] == Pixel(RowOf(file, w * 10 / 8, h, y), i)
  {
    hide BitSum, Pixel, Num;
    if Unpack(file, w, h).Some? {
      var r := Unpack(file, w, h).value;
      forall y | 0 <= y < h ensures r[y] == UnpackRow(RowOf(file, w * 10 / 8, h, y), w) {
      }
      forall y, i | 0 <= y < h && 0 <= i < w ensures r[y][i] == Pixel(RowOf(file, w * 10 / 8, h, y), i) {
        SumIsPixel(RowOf(file, w * 10 / 8, h, y), i);
      }
    }
  }

  /** The weighted bits of a line of the matrix are the pixel. */
  lemma {:induction false} SumIsPixel(row: seq<byte>, i: nat)
    requires 10 * i + 10 <= 8 * |row|
    ensures BitSum(row, 10 * i, 10) == Pixel(row, i)
  {
    hide BitSum, Num, Shr, Pow2;
    BitSumIsField(row, 10 * i, 10);
    Pow2Values();
  }
}
