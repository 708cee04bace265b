/** Format negotiation of the image nodes: which formats exist, and the line length and
    image size the driver computes for them. */
module CamFormats {
  import opened Basics
  import opened Bayer

  /** The four characters of a pixel format. */
  datatype Fourcc = Fourcc(a: char, b: char, c: char, d: char)
  datatype ImageNode = MainStream | PackedBin
  datatype Fmt = Fmt(four: Fourcc, width: nat, height: nat, bpl: nat, size: nat)

  const MIN_WIDTH: nat := 80
  const MAX_WIDTH: nat := 5376
  const MIN_HEIGHT: nat := 60
  const MAX_HEIGHT: nat := 4032
  const U32: nat := 0x1_0000_0000

  // ---- the tables --------------------------------------------------------

  const SBGGR8 := Fourcc('B', 'A', '8', '1')
  const SGBRG8 := Fourcc('G', 'B', 'R', 'G')
  const SGRBG8 := Fourcc('G', 'R', 'B', 'G')
  const SRGGB8 := Fourcc('R', 'G', 'G', 'B')

  /** The MTISP formats: 'B' packed or 'F' full-G, Bayer order, depth. */
  function Mtisp(b: char, c: char, d: char): Fourcc {
    Fourcc('M', b, c, d)
  }

  const STREAM_OUT: seq<Fourcc> := [
    SBGGR8, SGBRG8, SGRBG8, SRGGB8,
    Mtisp('B', 'B', 'A'), Mtisp('B', 'B', '8'), Mtisp('B', 'B', 'C'), Mtisp('B', 'B', 'E'),
    Mtisp('B', 'G', '8'), Mtisp('B', 'G', 'A'), Mtisp('B', 'G', 'C'), Mtisp('B', 'G', 'E'),
    Mtisp('B', 'g', '8'), Mtisp('B', 'g', 'A'), Mtisp('B', 'g', 'C'), Mtisp('B', 'g', 'E'),
    Mtisp('B', 'R', '8'), Mtisp('B', 'R', 'A'), Mtisp('B', 'R', 'C'), Mtisp('B', 'R', 'E')]

  const BIN_OUT: seq<Fourcc> := [
    Mtisp('F', 'B', '8'), Mtisp('F', 'B', 'A'), Mtisp('F', 'B', 'C'), Mtisp('F', 'B', 'E'),
    Mtisp('F', 'G', '8'), Mtisp('F', 'G', 'A'), Mtisp('F', 'G', 'C'), Mtisp('F', 'G', 'E'),
    Mtisp('F', 'g', '8'), Mtisp('F', 'g', 'A'), Mtisp('F', 'g', 'C'), Mtisp('F', 'g', 'E'),
    Mtisp('F', 'R', '8'), Mtisp('F', 'R', 'A'), Mtisp('F', 'R', 'C'), Mtisp('F', 'R', 'E')]

  function Table(node: ImageNode): (t: seq<Fourcc>)
    ensures |t| > 0
  {
    if node == MainStream then STREAM_OUT else BIN_OUT
  }

  predicate IsMtisp(f: Fourcc) {
    && f.a == 'M' && (f.b == 'B' || f.b == 'F')
    && (f.c == 'B' || f.c == 'G' || f.c == 'g' || f.c == 'R')
    && (f.d == '8' || f.d == 'A' || f.d == 'C' || f.d == 'E')
  }

  predicate IsStandard(f: Fourcc) {
    f == SBGGR8 || f == SGBRG8 || f == SGRBG8 || f == SRGGB8
  }

  /** get_pixel_bits. */
  function PixelBits(f: Fourcc): (bits: nat)
    ensures bits <= 14
  {
    if IsStandard(f) then 8
    else if IsMtisp(f) then (if f.d == '8' then 8 else if f.d == 'A' then 10 else if f.d == 'C' then 12 else 14)
    else 0
  }

  // ---- line length and size ----------------------------------------------

  function DivRoundUp(x: nat, n: nat): nat
    requires n == 4 || n == 8
  {
    (x + n - 1) / n
  }

  function AlignUp(x: nat, a: nat): (r: nat)
    requires a == 2 || a == 4 || a == 8
    ensures x <= r < x + a
  {
    if a == 2 then x + 1 - (x + 1) % 2 else if a == 4 then x + 3 - (x + 3) % 4 else x + 7 - (x + 7) % 8
  }

  /** The bytesperline of cal_image_pix_mp. */
  function LineBytes(node: ImageNode, f: Fourcc, width: nat): nat {
    match node
    case MainStream => AlignUp(AlignUp(DivRoundUp(width * PixelBits(f), 8), 2), 4)
    case PackedBin =>
      var pixels := DivRoundUp(width * 6, 4);
      var bytes := DivRoundUp(pixels * PixelBits(f), 8);
      AlignUp(if PixelBits(f) == 10 then AlignUp(bytes, 4) else AlignUp(bytes, 8), 4)
  }

  /** What a line holds: a pixel per column, or with full G one G per pixel and one R and
      one B per four, six components in four pixels. */
  function LineBits(node: ImageNode, f: Fourcc, width: nat): nat {
    match node
    case MainStream => width * PixelBits(f)
    case PackedBin => (width * 6 + 3) / 4 * PixelBits(f)
  }

  function Alignment(node: ImageNode, f: Fourcc): (a: nat)
    ensures a == 4 || a == 8
  {
    if node == MainStream || PixelBits(f) == 10 then 4 else 8
  }

  /** bpl is the smallest multiple of the alignment that holds a line. */
  predicate Smallest(bpl: nat, bits: nat, a: nat)
    requires a == 4 || a == 8
  {
    (if a == 4 then bpl % 4 else bpl % 8) == 0 && bits <= 8 * bpl && (bpl >= a ==> 8 * (bpl - a) < bits)
  }

  lemma {:induction false} AlignSmallest(bits: nat, a: nat)
    requires a == 4 || a == 8
    ensures Smallest(AlignUp(DivRoundUp(bits, 8), a), bits, a)
  {
    hide AlignUp, DivRoundUp;
    var n := DivRoundUp(bits, 8);
    RoundBounds(bits);
    AlignedMultiple(n);
  }

  lemma {:induction false} AlignedMultiple(x: nat)
    ensures AlignUp(x, 4) % 4 == 0 && AlignUp(x, 8) % 8 == 0
  {
  }

  lemma {:induction false} RoundBounds(bits: nat)
    ensures bits <= 8 * DivRoundUp(bits, 8) < bits + 8
  {
  }

  lemma {:induction false} AlignTwice(x: nat)
    ensures AlignUp(AlignUp(x, 2), 4) == AlignUp(x, 4)
    ensures AlignUp(AlignUp(x, 4), 4) == AlignUp(x, 4) && AlignUp(AlignUp(x, 8), 4) == AlignUp(x, 8)
  {
    hide AlignUp;
    var q := x / 8;
    AlignValues(q, x % 8);
    AlignValues(q, 0);
    AlignValues(q, 2);
    AlignValues(q, 4);
    AlignValues(q, 6);
    AlignValues(q + 1, 0);
  }

  lemma {:induction false} Align2(q: nat, r: nat)
    requires r < 8
    ensures AlignUp(8 * q + r, 2) == 8 * q + 2 * ((r + 1) / 2)
  {
    var h, m := (r + 1) / 2, (r + 1) % 2;
    assert 8 * q + r + 1 == 2 * (4 * q + h) + m;
    OddPart(4 * q + h, m);
  }

  lemma {:induction false} OddPart(k: nat, m: nat)
    requires m < 2
    ensures (2 * k + m) % 2 == m
  {
  }

  lemma {:induction false} Align4(q: nat, r: nat)
    requires r < 8
    ensures AlignUp(8 * q + r, 4) == 8 * q + (if r == 0 then 0 else if r <= 4 then 4 else 8)
  {
  }

  lemma {:induction false} Align8(q: nat, r: nat)
    requires r < 8
    ensures AlignUp(8 * q + r, 8) == 8 * q + (if r == 0 then 0 else 8)
  {
  }

  /** Alignment by cases on the remainder by 8. */
  lemma {:induction false} AlignValues(q: nat, r: nat)
    requires r < 8
    ensures AlignUp(8 * q + r, 2) == 8 * q + 2 * ((r + 1) / 2)
    ensures AlignUp(8 * q + r, 4) == 8 * q + (if r == 0 then 0 else if r <= 4 then 4 else 8)
    ensures AlignUp(8 * q + r, 8) == 8 * q + (if r == 0 then 0 else 8)
  {
    hide AlignUp;
    Align2(q, r);
    Align4(q, r);
    Align8(q, r);
  }

  lemma {:induction false} AlignedAlready(x: nat)
    ensures AlignUp(x, 4) == x <==> x % 4 == 0
  {
  }

  lemma {:induction false} LineBytesSmallest(node: ImageNode, f: Fourcc, width: nat)
    ensures Smallest(LineBytes(node, f, width), LineBits(node, f, width), Alignment(node, f))
  {
    hide AlignUp, Smallest, PixelBits;
    if node == MainStream {
      AlignTwice(DivRoundUp(width * PixelBits(f), 8));
      AlignSmallest(width * PixelBits(f), 4);
    } else {
      var bits := DivRoundUp(width * 6, 4) * PixelBits(f);
      AlignTwice(DivRoundUp(bits, 8));
      AlignSmallest(bits, 4);
      AlignSmallest(bits, 8);
    }
  }

  lemma {:induction false} SmallestUnique(x: nat, y: nat, bits: nat, a: nat)
    requires (a == 4 || a == 8) && Smallest(x, bits, a) && Smallest(y, bits, a)
    ensures x == y
  {
    if a == 4 {
      FirstFit(x / 4, y / 4, 32, bits);
    } else {
      FirstFit(x / 8, y / 8, 64, bits);
    }
  }

  /** Only one multiple of n is the first that is long enough. */
  lemma {:induction false} FirstFit(i: nat, j: nat, n: nat, bits: nat)
    requires (n == 32 || n == 64) && bits <= n * i && bits <= n * j
    requires (i >= 1 ==> n * (i - 1) < bits) && (j >= 1 ==> n * (j - 1) < bits)
    ensures i == j
  {
  }

  // ---- try_fmt -----------------------------------------------------------

  function Clamp(x: nat, lo: nat, hi: nat): nat {
    if x < lo then lo else if x > hi then hi else x
  }

  function Times(a: nat, b: nat): nat {
    a * b
  }

  function TryFmt(node: ImageNode, f: Fmt): Fmt {
    var four := if f.four in Table(node) then f.four else Table(node)[0];
    var width := AlignUp(Clamp(f.width, MIN_WIDTH, MAX_WIDTH), 4);
    var height := Clamp(f.height, MIN_HEIGHT, MAX_HEIGHT);
    var bpl := LineBytes(node, four, width);
    Fmt(four, width, height, bpl, Times(bpl, height))
  }

  /** What an image node may be set to. */
  predicate GoodFmt(node: ImageNode, f: Fmt) {
    && f.four in Table(node)
    && MIN_WIDTH <= f.width <= MAX_WIDTH && f.width % 4 == 0 && MIN_HEIGHT <= f.height <= MAX_HEIGHT
    && Smallest(f.bpl, LineBits(node, f.four, f.width), Alignment(node, f.four))
    && f.size == Times(f.bpl, f.height)
  }

  lemma {:induction false} LineFits(node: ImageNode, f: Fourcc, width: nat)
    requires width <= MAX_WIDTH
    ensures LineBits(node, f, width) <= MAX_WIDTH * 21
    ensures width * 6 < U32 && width * PixelBits(f) < U32 && LineBytes(node, f, width) < 20000
  {
    hide PixelBits, LineBytes;
    LineBytesSmallest(node, f, width);
    Product(width, PixelBits(f), MAX_WIDTH, 14);
    Product((width * 6 + 3) / 4, PixelBits(f), 8064, 14);
  }

  lemma {:induction false} Product(a: nat, b: nat, c: nat, d: nat)
    requires a <= c && b <= d
    ensures a * b <= c * d
  {
    assert a * b <= c * b by { assert (c - a) * b >= 0; }
    assert c * b <= c * d by { assert c * (d - b) >= 0; }
  }

  /** The result of try_fmt is always good, and no 32-bit product wraps. */
  lemma {:induction false} TryFmtGood(node: ImageNode, f: Fmt)
    ensures GoodFmt(node, TryFmt(node, f)) && TryFmt(node, f).size < U32
  {
    hide LineBytes, LineBits, Smallest, Alignment, Table;
    var g := TryFmt(node, f);
    LineBytesSmallest(node, g.four, g.width);
    LineFits(node, g.four, g.width);
    Product(g.bpl, g.height, 20000, MAX_HEIGHT);
  }

  /** The formats try_fmt leaves alone are exactly the good ones. */
  lemma {:induction false} TryFmtFixes(node: ImageNode, f: Fmt)
    ensures TryFmt(node, f) == f <==> GoodFmt(node, f)
  {
    hide LineBytes, LineBits, Smallest, Table;
    TryFmtGood(node, f);
    LineBytesSmallest(node, f.four, f.width);
    if GoodFmt(node, f) {
      SmallestUnique(f.bpl, LineBytes(node, f.four, f.width), LineBits(node, f.four, f.width), Alignment(node, f.four));
    }
  }

  /** What try_fmt keeps of a request: a known format, the height when it is in range, and
      the width rounded up to the next multiple of 4; anything outside goes to the nearest
      bound. */
  lemma {:induction false} TryFmtKeeps(node: ImageNode, f: Fmt)
    ensures var g := TryFmt(node, f);
            && g.four == (if f.four in Table(node) then f.four else Table(node)[0])
            && (MIN_WIDTH <= f.width <= MAX_WIDTH ==> f.width <= g.width < f.width + 4)
            && (f.width < MIN_WIDTH ==> g.width == MIN_WIDTH) && (f.width > MAX_WIDTH ==> g.width == MAX_WIDTH)
            && (MIN_HEIGHT <= f.height <= MAX_HEIGHT ==> g.height == f.height)
            && (f.height < MIN_HEIGHT ==> g.height == MIN_HEIGHT)
            && (f.height > MAX_HEIGHT ==> g.height == MAX_HEIGHT)
  {
    hide LineBytes, Table;
  }

  lemma {:induction false} TryFmtIdempotent(node: ImageNode, f: Fmt)
    ensures TryFmt(node, TryFmt(node, f)) == TryFmt(node, f)
  {
    hide TryFmt, GoodFmt;
    TryFmtGood(node, f);
    TryFmtFixes(node, TryFmt(node, f));
  }

  // ---- the lengths themselves --------------------------------------------

  /** Packed Bayer: sixteen pixels take 16, 20, 24 or 28 bytes, by the last character. */
  lemma {:induction false} PackedLine(f: Fourcc, k: nat)
    requires IsMtisp(f)
    ensures f.d == '8' ==> LineBytes(MainStream, f, 16 * k) == 16 * k
    ensures f.d == 'A' ==> LineBytes(MainStream, f, 16 * k) == 20 * k
    ensures f.d == 'C' ==> LineBytes(MainStream, f, 16 * k) == 24 * k
    ensures f.d == 'E' ==> LineBytes(MainStream, f, 16 * k) == 28 * k
  {
    hide LineBytes;
    LineBytesSmallest(MainStream, f, 16 * k);
    var n := if f.d == '8' then 4 else if f.d == 'A' then 5 else if f.d == 'C' then 6 else 7;
    assert LineBits(MainStream, f, 16 * k) == 32 * (n * k);
    ExactLine(n * k, 4);
    SmallestUnique(LineBytes(MainStream, f, 16 * k), 4 * (n * k), 32 * (n * k), 4);
  }

  /** A line that fills whole units has exactly their length. */
  lemma {:induction false} ExactLine(i: nat, a: nat)
    requires a == 4 || a == 8
    ensures Smallest(a * i, 8 * a * i, a)
  {
    if a == 4 { Multiple4(i); } else { Multiple8(i); }
  }

  lemma {:induction false} Multiple4(i: nat)
    ensures (4 * i) % 4 == 0
  {
  }

  lemma {:induction false} Multiple8(i: nat)
    ensures (8 * i) % 8 == 0
  {
  }

  /** The standard formats have one byte for a pixel. */
  lemma {:induction false} StandardLine(f: Fourcc, k: nat)
    requires IsStandard(f)
    ensures LineBytes(MainStream, f, 4 * k) == 4 * k
  {
    hide LineBytes;
    LineBytesSmallest(MainStream, f, 4 * k);
    assert LineBits(MainStream, f, 4 * k) == 32 * k;
    ExactLine(k, 4);
    SmallestUnique(LineBytes(MainStream, f, 4 * k), 4 * k, 32 * k, 4);
  }

  /** Full G on the bin node: sixty-four columns are 96 components, in 96, 120, 144 or 168
      bytes. */
  lemma {:induction false} FullGLine(f: Fourcc, k: nat)
    requires IsMtisp(f)
    ensures f.d == '8' ==> LineBytes(PackedBin, f, 64 * k) == 96 * k
    ensures f.d == 'A' ==> LineBytes(PackedBin, f, 64 * k) == 120 * k
    ensures f.d == 'C' ==> LineBytes(PackedBin, f, 64 * k) == 144 * k
    ensures f.d == 'E' ==> LineBytes(PackedBin, f, 64 * k) == 168 * k
  {
    hide LineBytes;
    LineBytesSmallest(PackedBin, f, 64 * k);
    assert (64 * k * 6 + 3) / 4 == 96 * k;
    if f.d == 'A' {
      assert LineBits(PackedBin, f, 64 * k) == 32 * (30 * k);
      ExactLine(30 * k, 4);
      SmallestUnique(LineBytes(PackedBin, f, 64 * k), 4 * (30 * k), 32 * (30 * k), 4);
    } else {
      var n := if f.d == '8' then 12 else if f.d == 'C' then 18 else 21;
      assert LineBits(PackedBin, f, 64 * k) == 64 * (n * k);
      ExactLine(n * k, 8);
      SmallestUnique(LineBytes(PackedBin, f, 64 * k), 8 * (n * k), 64 * (n * k), 8);
    }
  }

  /** Thirty-six columns are 54 components: only the 10-bit format may end such a line on a
      multiple of 4, the others go on to a multiple of 8. */
  lemma {:induction false} FullGAlignment(f: Fourcc)
    requires IsMtisp(f)
    ensures LineBytes(PackedBin, f, 36) == if f.d == '8' then 56 else if f.d == 'A' then 68 else if f.d == 'C' then 88 else 96
  {
    hide LineBytes;
    LineBytesSmallest(PackedBin, f, 36);
    assert (36 * 6 + 3) / 4 == 54;
    if f.d == '8' {
      SmallestUnique(LineBytes(PackedBin, f, 36), 56, 432, 8);
    } else if f.d == 'A' {
      SmallestUnique(LineBytes(PackedBin, f, 36), 68, 540, 4);
    } else if f.d == 'C' {
      SmallestUnique(LineBytes(PackedBin, f, 36), 88, 648, 8);
    } else {
      SmallestUnique(LineBytes(PackedBin, f, 36), 96, 756, 8);
    }
  }

  /** The loopback bridge steps through a 10-bit image by width * 10 / 8 bytes: for the
      widths it can handle that is the driver's line length exactly when the width is a
      multiple of 16. */
  lemma {:induction false} BridgeStride(f: Fourcc, width: nat)
    requires IsMtisp(f) && f.d == 'A' && width % 4 == 0
    ensures width * 10 / 8 == LineBytes(MainStream, f, width) <==> width % 16 == 0
  {
    hide AlignUp;
    assert PixelBits(f) == 10;
    hide PixelBits;
    AlignTwice(DivRoundUp(width * 10, 8));
    AlignedAlready(DivRoundUp(width * 10, 8));
    assert DivRoundUp(width * 10, 8) == 5 * (width / 4);
    assert 5 * (width / 4) % 4 == 0 <==> width % 16 == 0;
  }

  /** The bridge's default: MBRA at 1600 by 1200. */
  lemma {:induction false} BridgeDefault(f: Fmt)
    requires f.four == Mtisp('B', 'R', 'A') && f.width == 1600 && f.height == 1200
    ensures TryFmt(MainStream, f) == Fmt(f.four, 1600, 1200, 2000, 2400000)
  {
    assert STREAM_OUT[17] == f.four;
    PackedLine(f.four, 100);
    hide LineBytes;
  }

  // ---- a node's stored format --------------------------------------------

  /** The format fields of an image video node. */
  class VideoNode {
    const node: ImageNode
    var fmt: Fmt

    /** mtk_cam_dev_load_default_fmt. */
    constructor (n: ImageNode)
      ensures node == n && GoodFmt(node, fmt) && fmt.four == Table(node)[0]
      ensures fmt.width == MAX_WIDTH && fmt.height == MAX_HEIGHT && fmt.size < U32
    {
      hide Table, LineBytes, LineBits, Smallest, Alignment;
      node := n;
      var bpl := LineBytes(n, Table(n)[0], MAX_WIDTH);
      fmt := Fmt(Table(n)[0], MAX_WIDTH, MAX_HEIGHT, bpl, Times(bpl, MAX_HEIGHT));
      LineBytesSmallest(n, Table(n)[0], MAX_WIDTH);
      LineFits(n, Table(n)[0], MAX_WIDTH);
    }

    /** s_fmt: refused while the queue is busy, otherwise stores what try_fmt gives. */
    method SetFmt(f: Fmt, busy: bool) returns (ok: bool, r: Fmt)
      requires GoodFmt(node, fmt)
      modifies this
      ensures ok == !busy && GoodFmt(node, fmt)
      ensures busy ==> fmt == old(fmt) && r == f
      ensures !busy ==> fmt == TryFmt(node, f) && r == fmt
    {
      hide TryFmt, GoodFmt;
      if busy { return false, f; }
      TryFmtGood(node, f);
      r := TryFmt(node, f);
      fmt := r;
      ok := true;
    }
  }

  // ---- enum_fmt ----------------------------------------------------------

  /** Bayer order of a pixel format: mtk_cam_bayer_order after mtk_cam_fmt_to_mbus, which
      looks at the last two characters only. */
  function OrderOf(f: Fourcc): Option<Order> {
    if f == SBGGR8 then Some(BGGR) else if f == SGBRG8 then Some(GBRG)
    else if f == SGRBG8 then Some(GRBG) else if f == SRGGB8 then Some(RGGB)
    else if f.d != '8' && f.d != 'A' && f.d != 'C' && f.d != 'E' then None
    else if f.c == 'B' then Some(BGGR) else if f.c == 'G' then Some(GBRG)
    else if f.c == 'g' then Some(GRBG) else if f.c == 'R' then Some(RGGB) else None
  }

  /** The order of a format by the colours of its block: an MTISP format names the first one,
      with 'G' for green before blue and 'g' for green before red; of the standard formats
      three spell the block, and the fourth is blue first. */
  lemma {:induction false} OrderSpelled(f: Fourcc)
    requires IsStandard(f) || IsMtisp(f)
    ensures OrderOf(f).Some?
    ensures var o := OrderOf(f).value;
            && (IsMtisp(f) ==>
                  && Letter(o, 0) == (if f.c == 'B' then Blue else if f.c == 'R' then Red else Green)
                  && (f.c == 'G' ==> Letter(o, 1) == Blue) && (f.c == 'g' ==> Letter(o, 1) == Red))
            && (f == SBGGR8 ==> Letter(o, 0) == Blue && Letter(o, 3) == Red)
            && (f != SBGGR8 && !IsMtisp(f) ==> Name(o) == [f.a, f.b, f.c, f.d])
  {
  }

  /** The entries of a table with one Bayer order, in table order. */
  function Matching(table: seq<Fourcc>, order: Option<Order>): seq<Fourcc> {
    if table == [] then []
    else (if OrderOf(table[0]) == order then [table[0]] else []) + Matching(table[1..], order)
  }

  lemma {:induction false} MatchingStep(table: seq<Fourcc>, order: Option<Order>, i: nat)
    requires i < |table|
    ensures Matching(table[..i + 1], order)
            == Matching(table[..i], order) + (if OrderOf(table[i]) == order then [table[i]] else [])
    decreases |table|
  {
    if i == 0 {
      assert table[..1] == [table[0]] && table[..0] == [] && [table[0]][1..] == [];
      assert Matching([], order) == [];
    } else {
      MatchingStep(table[1..], order, i - 1);
      assert table[..i + 1][1..] == table[1..][..i] && table[..i][1..] == table[1..][..i - 1];
    }
  }

  lemma {:induction false} MatchingSplit(table: seq<Fourcc>, order: Option<Order>, i: nat)
    requires i <= |table|
    ensures Matching(table, order) == Matching(table[..i], order) + Matching(table[i..], order)
    decreases |table| - i
  {
    hide OrderOf;
    if i == |table| {
      assert table[..i] == table && table[i..] == [];
    } else {
      MatchingSplit(table, order, i + 1);
      MatchingStep(table, order, i);
      assert table[i..][1..] == table[i + 1..];
    }
  }

  /** mtk_cam_vidioc_enum_fmt; mbus is None for a zero media bus code, otherwise the
      Bayer order of the code, if it has one. */
  method EnumFmt(node: ImageNode, mbus: Option<Option<Order>>, index: nat) returns (r: Option<Fourcc>)
    ensures var list := if mbus.None? then Table(node) else Matching(Table(node), mbus.value);
            r == if index < |list| then Some(list[index]) else None
  {
    hide Table, OrderOf, Matching;
    var table := Table(node);
    if mbus.None? {
      return if index >= |table| then None else Some(table[index]);
    }
    var i, n := 0, 0;
    MatchingNone(table, mbus.value);
    while i < |table|
      invariant 0 <= i <= |table| && n == |Matching(table[..i], mbus.value)| && n <= index
    {
      MatchingStep(table, mbus.value, i);
      MatchingSplit(table, mbus.value, i + 1);
      if OrderOf(table[i]) == mbus.value {
        if n == index { return Some(table[i]); }
        n := n + 1;
      }
      i := i + 1;
    }
    assert table[..i] == table;
    r := None;
  }

  lemma {:induction false} MatchingNone(table: seq<Fourcc>, order: Option<Order>)
    ensures Matching(table[..0], order) == []
  {
  }

  /** Every entry of the image tables has a Bayer order, so a code without one lists
      nothing. */
  lemma {:induction false} NoOrderNoEntry(table: seq<Fourcc>)
    requires forall i :: 0 <= i < |table| ==> IsStandard(table[i]) || IsMtisp(table[i])
    ensures Matching(table, None) == []
    decreases |table|
  {
    if table != [] {
      assert IsStandard(table[0]) || IsMtisp(table[0]);
      assert forall i :: 0 <= i < |table[1..]| ==> table[1..][i] == table[i + 1];
      NoOrderNoEntry(table[1..]);
    }
  }

  /** Which formats a node has: the main stream the standard and the packed ones, the bin node
      those with full G, each once. */
  lemma {:induction false} TablesHold(f: Fourcc)
    ensures f in Table(MainStream) <==> IsStandard(f) || (IsMtisp(f) && f.b == 'B')
    ensures f in Table(PackedBin) <==> IsMtisp(f) && f.b == 'F'
    ensures |Table(MainStream)| == 20 && |Table(PackedBin)| == 16
  {
    StreamHolds(f);
    BinHolds(f);
  }

  lemma {:induction false} StreamHolds(f: Fourcc)
    ensures f in STREAM_OUT <==> IsStandard(f) || (IsMtisp(f) && f.b == 'B')
  {
    if f in STREAM_OUT {
      var i :| 0 <= i < |STREAM_OUT| && STREAM_OUT[i] == f;
      StreamEntry(i);
    }
    if IsStandard(f) || (IsMtisp(f) && f.b == 'B') {
      StreamAt(f);
      assert STREAM_OUT[StreamIndex(f)] in STREAM_OUT;
    }
  }

  lemma {:induction false} BinHolds(f: Fourcc)
    ensures f in BIN_OUT <==> IsMtisp(f) && f.b == 'F'
  {
    if f in BIN_OUT {
      var i :| 0 <= i < |BIN_OUT| && BIN_OUT[i] == f;
      BinEntry(i);
    }
    if IsMtisp(f) && f.b == 'F' {
      BinAt(f);
      assert BIN_OUT[Row(f) * 4 + Depth(f)] in BIN_OUT;
    }
  }

  lemma {:induction false} StreamEntry(i: nat)
    requires i < |STREAM_OUT|
    ensures IsStandard(STREAM_OUT[i]) || (IsMtisp(STREAM_OUT[i]) && STREAM_OUT[i].b == 'B')
  {
  }

  lemma {:induction false} BinEntry(i: nat)
    requires i < |BIN_OUT|
    ensures IsMtisp(BIN_OUT[i]) && BIN_OUT[i].b == 'F'
  {
  }

  function Row(f: Fourcc): nat {
    if f.c == 'B' then 0 else if f.c == 'G' then 1 else if f.c == 'g' then 2 else 3
  }

  function Depth(f: Fourcc): nat {
    if f.d == '8' then 0 else if f.d == 'A' then 1 else if f.d == 'C' then 2 else 3
  }

  /** Where a format stands: its first row lists the 10-bit entry before the 8-bit one. */
  function StreamIndex(f: Fourcc): nat {
    if f == SBGGR8 then 0 else if f == SGBRG8 then 1 else if f == SGRBG8 then 2 else if f == SRGGB8 then 3
    else if f.c == 'B' && Depth(f) < 2 then 5 - Depth(f)
    else 4 + Row(f) * 4 + Depth(f)
  }

  lemma {:induction false} StreamAt(f: Fourcc)
    requires IsStandard(f) || (IsMtisp(f) && f.b == 'B')
    ensures StreamIndex(f) < |STREAM_OUT| && STREAM_OUT[StreamIndex(f)] == f
  {
  }

  lemma {:induction false} BinAt(f: Fourcc)
    requires IsMtisp(f) && f.b == 'F'
    ensures Row(f) * 4 + Depth(f) < |BIN_OUT| && BIN_OUT[Row(f) * 4 + Depth(f)] == f
  {
  }

  lemma {:induction false} TablesAreBayer(node: ImageNode)
    ensures forall i :: 0 <= i < |Table(node)| ==> IsStandard(Table(node)[i]) || IsMtisp(Table(node)[i])
  {
  }
}
