/** The loopback bridge: every 2x2 Bayer block of a packed 10-bit frame becomes one YUYV
    pixel. */
module BridgeFill {
  import opened Basics
  import opened Bayer
  import opened MtispUnpack

  // ---- what the picture should be ----------------------------------------

  /** The raw value at a site of the frame. */
  function Raw(mem: seq<byte>, stride: nat, y: nat, x: nat): (v: nat)
    requires y * stride + stride <= |mem|
    ensures v < 1024
  {
    Pixel(mem[y * stride..y * stride + stride], x)
  }

  /** The rows of a frame are inside the memory. */
  predicate RowsInside(mem: seq<byte>, stride: nat, rows: nat) {
    forall y :: 0 <= y < rows ==> y * stride + stride <= |mem|
  }

  /** The only site of a colour in a 2x2 block; for green, the one beside the red site. */
  function SiteOf(o: Order, c: Colour): (s: (nat, nat))
    ensures s.0 < 2 && s.1 < 2
  {
    if Letter(o, 0) == c then (0, 0) else if Letter(o, 1) == c then (0, 1)
    else if Letter(o, 2) == c then (1, 0) else (1, 1)
  }

  datatype Rgb = Rgb(r: nat, g: nat, b: nat)

  /** Red and blue of block (y, x) at their sites, green as the mean of its two. */
  function BlockRgb(mem: seq<byte>, stride: nat, o: Order, y: nat, x: nat): (p: Rgb)
    requires RowsInside(mem, stride, 2 * y + 2)
    ensures p.r < 1024 && p.g < 1024 && p.b < 1024
  {
    var sum := Sum4(mem, stride, y, x);
    var r := Raw(mem, stride, 2 * y + SiteOf(o, Red).0, 2 * x + SiteOf(o, Red).1);
    var b := Raw(mem, stride, 2 * y + SiteOf(o, Blue).0, 2 * x + SiteOf(o, Blue).1);
    SumParts(mem, stride, o, y, x);
    Rgb(r, (sum - r - b) / 2, b)
  }

  /** The four sites of a block together. */
  function Sum4(mem: seq<byte>, stride: nat, y: nat, x: nat): nat
    requires RowsInside(mem, stride, 2 * y + 2)
  {
    Raw(mem, stride, 2 * y, 2 * x) + Raw(mem, stride, 2 * y, 2 * x + 1)
    + Raw(mem, stride, 2 * y + 1, 2 * x) + Raw(mem, stride, 2 * y + 1, 2 * x + 1)
  }

  /** Red and blue have one site each, at opposite corners: the rest are two greens. */
  lemma {:induction false} SumParts(mem: seq<byte>, stride: nat, o: Order, y: nat, x: nat)
    requires RowsInside(mem, stride, 2 * y + 2)
    ensures var r := SiteOf(o, Red);
            var b := SiteOf(o, Blue);
            && b == (1 - r.0, 1 - r.1)
            && Sum4(mem, stride, y, x)
               == Raw(mem, stride, 2 * y + r.0, 2 * x + r.1) + Raw(mem, stride, 2 * y + b.0, 2 * x + b.1)
                  + Raw(mem, stride, 2 * y + r.0, 2 * x + 1 - r.1) + Raw(mem, stride, 2 * y + 1 - r.0, 2 * x + r.1)
  {
    hide Raw;
    match o
    case RGGB => case GRBG => case GBRG => case BGGR =>
  }

  /** SiteOf is the only site with its colour, for red and blue, and the mean of the other
      two is taken over the two green sites. */
  lemma {:induction false} SitesUnique(o: Order, dy: nat, dx: nat)
    requires dy < 2 && dx < 2
    ensures ColourAt(o, dy, dx) == Red <==> (dy, dx) == SiteOf(o, Red)
    ensures ColourAt(o, dy, dx) == Blue <==> (dy, dx) == SiteOf(o, Blue)
  {
    hide ColourAt;
    Corners(o);
    match o
    case RGGB => case GRBG => case GBRG => case BGGR =>
  }

  /** The tables built from gain, white balance and gamma: raw value to display value. */
  datatype Luts = Luts(r: seq<byte>, g: seq<byte>, b: seq<byte>) {
    predicate Full() { |r| == 1024 && |g| == 1024 && |b| == 1024 }
  }

  function Luma(l: Luts, p: Rgb): int
    requires l.Full() && p.r < 1024 && p.g < 1024 && p.b < 1024
  {
    (77 * l.r[p.r] as int + 150 * l.g[p.g] as int + 29 * l.b[p.b] as int) / 256
  }

  function Cb(l: Luts, p: Rgb): int
    requires l.Full() && p.r < 1024 && p.g < 1024 && p.b < 1024
  {
    (-43 * l.r[p.r] as int - 85 * l.g[p.g] as int + 128 * l.b[p.b] as int) / 256 + 128
  }

  function Cr(l: Luts, p: Rgb): int
    requires l.Full() && p.r < 1024 && p.g < 1024 && p.b < 1024
  {
    (128 * l.r[p.r] as int - 107 * l.g[p.g] as int - 21 * l.b[p.b] as int) / 256 + 128
  }

  /** The clamps of the conversion never do anything: its coefficients stay in range. */
  lemma {:induction false} ClampsIdle(l: Luts, p: Rgb)
    requires l.Full() && p.r < 1024 && p.g < 1024 && p.b < 1024
    ensures 0 <= Luma(l, p) <= 255 && 0 <= Cb(l, p) <= 255 && 0 <= Cr(l, p) <= 255
  {
  }

  function Abs(x: int): nat {
    if x < 0 then -x else x
  }

  /** The conversion is that of BT.601 in full range, with coefficients of a thousandth, to
      within one and a half steps. */
  lemma {:induction false} ConversionIsBt601(l: Luts, p: Rgb)
    requires l.Full() && p.r < 1024 && p.g < 1024 && p.b < 1024
    ensures var r, g, b := l.r[p.r] as int, l.g[p.g] as int, l.b[p.b] as int;
            && Abs(1000 * Luma(l, p) - (299 * r + 587 * g + 114 * b)) <= 1500
            && Abs(1000 * Cb(l, p) - (128000 - 169 * r - 331 * g + 500 * b)) <= 1500
            && Abs(1000 * Cr(l, p) - (128000 + 500 * r - 419 * g - 81 * b)) <= 1500
  {
  }

  /** Grey stays grey, with its own value as luma. */
  lemma {:induction false} GreyIsNeutral(l: Luts, p: Rgb)
    requires l.Full() && p.r < 1024 && p.g < 1024 && p.b < 1024
    requires l.r[p.r] == l.g[p.g] == l.b[p.b]
    ensures Luma(l, p) == l.g[p.g] as int && Cb(l, p) == 128 && Cr(l, p) == 128
  {
  }

  /** The brightest pure colours. */
  lemma {:induction false} PureColours(l: Luts, p: Rgb)
    requires l.Full() && p.r < 1024 && p.g < 1024 && p.b < 1024
    ensures var r, g, b := l.r[p.r] as int, l.g[p.g] as int, l.b[p.b] as int;
            && (r == 255 && g == 0 && b == 0 ==> Luma(l, p) == 76 && Cb(l, p) == 85 && Cr(l, p) == 255)
            && (r == 0 && g == 255 && b == 0 ==> Luma(l, p) == 149 && Cb(l, p) == 43 && Cr(l, p) == 21)
            && (r == 0 && g == 0 && b == 255 ==> Luma(l, p) == 28 && Cb(l, p) == 255 && Cr(l, p) == 107)
  {
  }

  /** Byte k of output row y: luma at even bytes, then U at even and V at odd pixels. */
  function RowByte(mem: seq<byte>, stride: nat, o: Order, l: Luts, y: nat, k: nat): int
    requires RowsInside(mem, stride, 2 * y + 2) && l.Full()
  {
    var p := BlockRgb(mem, stride, o, y, k / 2);
    if k % 2 == 0 then Luma(l, p) else if k / 2 % 2 == 1 then Cr(l, p) else Cb(l, p)
  }

  function RowOut(mem: seq<byte>, stride: nat, o: Order, l: Luts, y: nat, ow: nat): (s: seq<int>)
    requires RowsInside(mem, stride, 2 * y + 2) && l.Full()
    ensures |s| == 2 * ow
  {
    seq(2 * ow, k requires 0 <= k < 2 * ow => RowByte(mem, stride, o, l, y, k))
  }

  /** Where output row y starts. */
  function RowBase(ow: nat, y: nat): nat {
    if y == 0 then 0 else RowBase(ow, y - 1) + 2 * ow
  }

  lemma {:induction false} RowBaseIs(ow: nat, y: nat)
    ensures RowBase(ow, y) == 2 * ow * y == y * ow * 2
    decreases y
  {
    if y > 0 { RowBaseIs(ow, y - 1); }
  }

  lemma {:induction false} RowBaseBelow(ow: nat, y: nat, rows: nat)
    requires y < rows
    ensures RowBase(ow, y) + 2 * ow <= RowBase(ow, rows)
    decreases rows
  {
    if y < rows - 1 { RowBaseBelow(ow, y, rows - 1); }
  }

  /** The first rows of the picture. */
  function Picture(mem: seq<byte>, stride: nat, o: Order, l: Luts, ow: nat, rows: nat): (s: seq<int>)
    requires RowsInside(mem, stride, 2 * rows) && l.Full()
    ensures |s| == RowBase(ow, rows)
  {
    if rows == 0 then [] else Picture(mem, stride, o, l, ow, rows - 1) + RowOut(mem, stride, o, l, rows - 1, ow)
  }

  // ---- what bridge.c does ------------------------------------------------

  /** Column and row of the red site from the order's name; an unknown name counts as
      RGGB. */
  function RedOffset(bp: string): (nat, nat) {
    if bp == "GRBG" then (1, 0) else if bp == "BGGR" then (1, 1) else if bp == "GBRG" then (0, 1) else (0, 0)
  }

  function OrderNamed(bp: string): Order {
    if bp == "GRBG" then GRBG else if bp == "BGGR" then BGGR else if bp == "GBRG" then GBRG else RGGB
  }

  lemma {:induction false} RedOffsetIsSite(bp: string)
    ensures RedOffset(bp) == (SiteOf(OrderNamed(bp), Red).1, SiteOf(OrderNamed(bp), Red).0)
  {
  }

  /** The name of an order gives that order. */
  lemma {:induction false} OrderByName(o: Order)
    ensures OrderNamed(Name(o)) == o
  {
  }

  function ClampByte(v: int): int {
    if v < 0 then 0 else if v > 255 then 255 else v
  }

  /** The four values of a block, from the red row first: q[rx] is red, the value opposite
      it blue, the other two green. */
  function Pick(q: (nat, nat, nat, nat), rx: nat): Rgb
    requires rx < 2
  {
    if rx == 0 then Rgb(q.0, (q.1 + q.2) / 2, q.3) else Rgb(q.1, (q.0 + q.3) / 2, q.2)
  }

  lemma {:induction false} PickIsBlock(mem: seq<byte>, stride: nat, bp: string, y: nat, x: nat)
    requires RowsInside(mem, stride, 2 * y + 2)
    ensures var rx, ry := RedOffset(bp).0, RedOffset(bp).1;
            Pick((Raw(mem, stride, 2 * y + ry, 2 * x), Raw(mem, stride, 2 * y + ry, 2 * x + 1),
                  Raw(mem, stride, 2 * y + 1 - ry, 2 * x), Raw(mem, stride, 2 * y + 1 - ry, 2 * x + 1)), rx)
            == BlockRgb(mem, stride, OrderNamed(bp), y, x)
  {
    hide Raw;
    RedOffsetIsSite(bp);
    SumParts(mem, stride, OrderNamed(bp), y, x);
  }

  lemma {:induction false} RowPair(ry: nat, y: nat, stride: nat, rows: nat, mem: seq<byte>)
    requires ry < 2 && RowsInside(mem, stride, 2 * rows) && y < rows
    ensures RowsInside(mem, stride, 2 * y + 2)
    ensures (2 * y + ry) * stride + stride <= |mem| && (2 * y + 1 - ry) * stride + stride <= |mem|
  {
  }

  /** Five bytes of a frame row as its next four raw values. */
  lemma {:induction false} FastInRow(mem: seq<byte>, stride: nat, y: nat, g: nat)
    requires y * stride + stride <= |mem| && 5 * g + 5 <= stride
    ensures Fast(mem, y * stride + 5 * g) == (Raw(mem, stride, y, 4 * g), Raw(mem, stride, y, 4 * g + 1),
                                             Raw(mem, stride, y, 4 * g + 2), Raw(mem, stride, y, 4 * g + 3))
  {
    hide Fast, Pixel;
    FastIsPixels(mem, y * stride, stride, g);
  }

  /** The first n indices in order. */
  function Upto(n: nat): (s: seq<nat>)
    ensures |s| == n && forall i :: 0 <= i < n ==> s[i] == i
  {
    seq(n, i => i)
  }

  lemma {:induction false} UptoNext(n: nat)
    ensures Upto(n + 1) == Upto(n) + [n]
  {
  }

  /** The only store into the output; at lists the indices stored to so far. */
  method Store(out: array<int>, k: nat, v: int, ghost at: seq<nat>) returns (ghost at': seq<nat>)
    requires k < out.Length
    modifies out
    ensures out[k] == v && (forall j :: 0 <= j < out.Length && j != k ==> out[j] == old(out[j])) && at' == at + [k]
  {
    out[k] := v;
    at' := at + [k];
  }

  /** Two bytes of the output: luma, and U or V by the parity of the pixel. */
  method PutPixel(out: array<int>, base: nat, xx: nat, l: Luts, p: Rgb, ghost at: seq<nat>) returns (ghost at': seq<nat>)
    requires base + 2 * xx + 2 <= out.Length && l.Full() && p.r < 1024 && p.g < 1024 && p.b < 1024
    modifies out
    ensures out[base + 2 * xx] == Luma(l, p)
    ensures out[base + 2 * xx + 1] == if xx % 2 == 1 then Cr(l, p) else Cb(l, p)
    ensures forall k :: 0 <= k < out.Length && k != base + 2 * xx && k != base + 2 * xx + 1 ==> out[k] == old(out[k])
    ensures at == Upto(base + 2 * xx) ==> at' == Upto(base + 2 * xx + 2)
  {
    ClampsIdle(l, p);
    UptoNext(base + 2 * xx);
    UptoNext(base + 2 * xx + 1);
    hide Luma, Cb, Cr, Upto;
    at' := Store(out, base + 2 * xx, ClampByte(Luma(l, p)), at);
    at' := Store(out, base + 2 * xx + 1, if xx % 2 == 1 then ClampByte(Cr(l, p)) else ClampByte(Cb(l, p)), at');
  }

  /** The values of block (y, x) in the order the bridge picks from. */
  ghost predicate IsBlock(q: (nat, nat, nat, nat), mem: seq<byte>, stride: nat, bp: string, y: nat, x: nat)
    requires RowsInside(mem, stride, 2 * y + 2)
  {
    var ry := RedOffset(bp).1;
    q == (Raw(mem, stride, 2 * y + ry, 2 * x), Raw(mem, stride, 2 * y + ry, 2 * x + 1),
          Raw(mem, stride, 2 * y + 1 - ry, 2 * x), Raw(mem, stride, 2 * y + 1 - ry, 2 * x + 1))
  }

  /** Five bytes of both rows give two neighbouring blocks. */
  method TwoBlocks(mem: seq<byte>, stride: nat, bp: string, y: nat, g: nat)
    returns (q0: (nat, nat, nat, nat), q1: (nat, nat, nat, nat))
    requires RowsInside(mem, stride, 2 * y + 2) && 5 * g + 5 <= stride
    ensures IsBlock(q0, mem, stride, bp, y, 2 * g) && IsBlock(q1, mem, stride, bp, y, 2 * g + 1)
  {
    hide Fast, Raw;
    var ry := RedOffset(bp).1;
    RowPair(ry, y, stride, y + 1, mem);
    FastInRow(mem, stride, 2 * y + ry, g);
    FastInRow(mem, stride, 2 * y + 1 - ry, g);
    var a := Fast(mem, (2 * y + ry) * stride + 5 * g);
    var b := Fast(mem, (2 * y + 1 - ry) * stride + 5 * g);
    q0 := (a.0, a.1, b.0, b.1);
    q1 := (a.2, a.3, b.2, b.3);
  }

  /** Output pixel xx of row y. */
  method FillPixel(out: array<int>, base: nat, mem: seq<byte>, stride: nat, bp: string, l: Luts, y: nat, xx: nat,
                   q: (nat, nat, nat, nat), ghost at: seq<nat>) returns (ghost at': seq<nat>)
    requires RowsInside(mem, stride, 2 * y + 2) && l.Full() && base + 2 * xx + 2 <= out.Length
    requires IsBlock(q, mem, stride, bp, y, xx)
    modifies out
    ensures out[base + 2 * xx] == RowByte(mem, stride, OrderNamed(bp), l, y, 2 * xx)
    ensures out[base + 2 * xx + 1] == RowByte(mem, stride, OrderNamed(bp), l, y, 2 * xx + 1)
    ensures forall k :: 0 <= k < out.Length && k != base + 2 * xx && k != base + 2 * xx + 1 ==> out[k] == old(out[k])
    ensures at == Upto(base + 2 * xx) ==> at' == Upto(base + 2 * xx + 2)
  {
    hide Raw, BlockRgb, Luma, Cb, Cr, Upto;
    PickIsBlock(mem, stride, bp, y, xx);
    at' := PutPixel(out, base, xx, l, Pick(q, RedOffset(bp).0), at);
  }

  /** The inner loops: one output row, two pixels from every five bytes. */
  method FillRow(out: array<int>, base: nat, mem: seq<byte>, stride: nat, bp: string, l: Luts, y: nat, ow: nat,
                 ghost at: seq<nat>) returns (ghost at': seq<nat>)
    requires RowsInside(mem, stride, 2 * y + 2) && l.Full() && base + 2 * ow <= out.Length
    requires ow % 2 == 0 && stride == 5 * (ow / 2)
    modifies out
    ensures forall k :: 0 <= k < 2 * ow ==> out[base + k] == RowByte(mem, stride, OrderNamed(bp), l, y, k)
    ensures forall k :: 0 <= k < out.Length && !(base <= k < base + 2 * ow) ==> out[k] == old(out[k])
    ensures at == Upto(base) ==> at' == Upto(base + 2 * ow)
  {
    hide RowsInside, RowByte, IsBlock, Upto;
    var x := 0;
    at' := at;
    while x < ow
      invariant 0 <= x <= ow && x % 2 == 0
      invariant at == Upto(base) ==> at' == Upto(base + 2 * x)
      invariant forall k :: 0 <= k < 2 * x ==> out[base + k] == RowByte(mem, stride, OrderNamed(bp), l, y, k)
      invariant forall k :: 0 <= k < out.Length && !(base <= k < base + 2 * x) ==> out[k] == old(out[k])
    {
      var g := x / 2;
      var q0, q1 := TwoBlocks(mem, stride, bp, y, g);
      at' := FillPixel(out, base, mem, stride, bp, l, y, x, q0, at');
      at' := FillPixel(out, base, mem, stride, bp, l, y, x + 1, q1, at');
      x := x + 2;
    }
  }

  /** One more row of the picture. */
  method FillNext(out: array<int>, base: nat, mem: seq<byte>, stride: nat, bp: string, l: Luts, y: nat, ow: nat,
                  ghost at: seq<nat>) returns (ghost at': seq<nat>)
    requires RowsInside(mem, stride, 2 * y + 2) && l.Full() && base + 2 * ow <= out.Length
    requires ow % 2 == 0 && stride == 5 * (ow / 2)
    requires base == RowBase(ow, y) && out[..base] == Picture(mem, stride, OrderNamed(bp), l, ow, y)
    modifies out
    ensures RowBase(ow, y + 1) == base + 2 * ow && (at == Upto(base) ==> at' == Upto(base + 2 * ow))
    ensures out[..base + 2 * ow] == Picture(mem, stride, OrderNamed(bp), l, ow, y + 1)
  {
    hide RowByte, Picture, RowBase, RowsInside, Upto;
    ghost var done := out[..base];
    at' := FillRow(out, base, mem, stride, bp, l, y, ow, at);
    assert out[..base] == done;
    PictureStep(mem, stride, OrderNamed(bp), l, ow, y, out[..base], out[base..base + 2 * ow]);
    assert out[..base + 2 * ow] == out[..base] + out[base..base + 2 * ow];
  }

  /** The loops over a frame: the array holds the picture, and the stores went to its
      indices in order, to each exactly once. */
  method FillFrame(mem: seq<byte>, w: nat, h: nat, bp: string, l: Luts) returns (out: array<int>, ghost at: seq<nat>)
    requires w % 4 == 0 && l.Full() && RowsInside(mem, w * 10 / 8, 2 * (h / 2))
    ensures out[..] == Picture(mem, w * 10 / 8, OrderNamed(bp), l, w / 2, h / 2)
    ensures out.Length == (h / 2) * (w / 2) * 2 && at == Upto(out.Length)
  {
    hide RowByte, Picture, RowBase, RowsInside, Upto;
    RowBaseIs(w / 2, h / 2);
    out := new int[(h / 2) * (w / 2) * 2];
    at := FillRows(out, mem, w * 10 / 8, bp, l, w / 2, h / 2);
  }

  /** The outer loop. */
  method FillRows(out: array<int>, mem: seq<byte>, stride: nat, bp: string, l: Luts, ow: nat, oh: nat)
    returns (ghost at: seq<nat>)
    requires RowsInside(mem, stride, 2 * oh) && l.Full() && ow % 2 == 0 && stride == 5 * (ow / 2)
    requires out.Length == RowBase(ow, oh)
    modifies out
    ensures out[..] == Picture(mem, stride, OrderNamed(bp), l, ow, oh) && at == Upto(out.Length)
  {
    hide RowByte, Picture, RowBase, RowsInside, Upto;
    at := Upto(0);
    var y := 0;
    PictureNone(mem, stride, OrderNamed(bp), l, ow);
    while y < oh
      invariant 0 <= y <= oh && RowBase(ow, y) <= out.Length
      invariant at == Upto(RowBase(ow, y))
      invariant RowsInside(mem, stride, 2 * y)
      invariant out[..RowBase(ow, y)] == Picture(mem, stride, OrderNamed(bp), l, ow, y)
    {
      at := FillAt(out, mem, stride, bp, l, y, ow, oh, at);
      y := y + 1;
    }
    assert out[..out.Length] == out[..];
  }

  /** The body of the outer loop: where the row begins, and the row. */
  method FillAt(out: array<int>, mem: seq<byte>, stride: nat, bp: string, l: Luts, y: nat, ow: nat, oh: nat,
                ghost at: seq<nat>) returns (ghost at': seq<nat>)
    requires RowsInside(mem, stride, 2 * oh) && RowsInside(mem, stride, 2 * y) && l.Full() && y < oh
    requires out.Length == RowBase(ow, oh)
    requires ow % 2 == 0 && stride == 5 * (ow / 2) && at == Upto(RowBase(ow, y)) && RowBase(ow, y) <= out.Length
    requires out[..RowBase(ow, y)] == Picture(mem, stride, OrderNamed(bp), l, ow, y)
    modifies out
    ensures RowBase(ow, y + 1) <= out.Length && RowsInside(mem, stride, 2 * (y + 1)) && at' == Upto(RowBase(ow, y + 1))
    ensures out[..RowBase(ow, y + 1)] == Picture(mem, stride, OrderNamed(bp), l, ow, y + 1)
  {
    hide RowByte, Picture, RowBase, RowsInside, Upto;
    RowBaseBelow(ow, y, oh);
    RowBaseIs(ow, y);
    MoreRows(mem, stride, 2 * y + 2, 2 * oh);
    var base := y * ow * 2;
    at' := FillNext(out, base, mem, stride, bp, l, y, ow, at);
  }

  lemma {:induction false} MoreRows(mem: seq<byte>, stride: nat, a: nat, b: nat)
    requires a <= b && RowsInside(mem, stride, b)
    ensures RowsInside(mem, stride, a)
  {
  }

  lemma {:induction false} PictureNone(mem: seq<byte>, stride: nat, o: Order, l: Luts, ow: nat)
    requires l.Full()
    ensures RowsInside(mem, stride, 0) && Picture(mem, stride, o, l, ow, 0) == [] && RowBase(ow, 0) == 0
  {
  }

  lemma {:induction false} PictureStep(mem: seq<byte>, stride: nat, o: Order, l: Luts, ow: nat, y: nat, s: seq<int>, row: seq<int>)
    requires RowsInside(mem, stride, 2 * y + 2) && l.Full() && s == Picture(mem, stride, o, l, ow, y)
    requires |row| == 2 * ow && forall k :: 0 <= k < 2 * ow ==> row[k] == RowByte(mem, stride, o, l, y, k)
    ensures Picture(mem, stride, o, l, ow, y + 1) == s + row && RowBase(ow, y + 1) == RowBase(ow, y) + 2 * ow
  {
    hide RowByte;
    assert row == RowOut(mem, stride, o, l, y, ow);
  }

  lemma {:induction false} RowParts(mem: seq<byte>, stride: nat, o: Order, l: Luts, y: nat, x: nat)
    requires RowsInside(mem, stride, 2 * y + 2) && l.Full()
    ensures var p := BlockRgb(mem, stride, o, y, x);
            && RowByte(mem, stride, o, l, y, 2 * x) == Luma(l, p)
            && RowByte(mem, stride, o, l, y, 2 * x + 1) == if x % 2 == 1 then Cr(l, p) else Cb(l, p)
  {
    hide BlockRgb, Luma, Cb, Cr, RowsInside;
    assert (2 * x + 1) / 2 == x;
  }

  /** Where a pixel of the picture is: two bytes at twice its index. */
  lemma {:induction false} PictureAt(mem: seq<byte>, stride: nat, o: Order, l: Luts, ow: nat, rows: nat, y: nat, x: nat)
    requires RowsInside(mem, stride, 2 * rows) && l.Full() && y < rows && x < ow
    ensures RowBase(ow, y) + 2 * x + 1 < RowBase(ow, rows) && RowsInside(mem, stride, 2 * y + 2)
    ensures var s := Picture(mem, stride, o, l, ow, rows);
            var p := BlockRgb(mem, stride, o, y, x);
            && s[RowBase(ow, y) + 2 * x] == Luma(l, p)
            && s[RowBase(ow, y) + 2 * x + 1] == if x % 2 == 1 then Cr(l, p) else Cb(l, p)
    decreases rows
  {
    hide BlockRgb, Luma, Cb, Cr, RowBase, RowsInside, RowByte;
    RowBaseBelow(ow, y, rows);
    MoreRows(mem, stride, 2 * y + 2, 2 * rows);
    MoreRows(mem, stride, 2 * rows - 2, 2 * rows);
    if y == rows - 1 {
      RowParts(mem, stride, o, l, y, x);
    } else {
      RowBaseBelow(ow, y, rows - 1);
      PictureAt(mem, stride, o, l, ow, rows - 1, y, x);
    }
  }
}
