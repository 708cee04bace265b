/** The reflect-padded 3x3 interpolation of mtisp.py, over the reals. */
module Demosaic {
  import opened Bayer

  predicate Rect(b: seq<seq<real>>, h: nat, w: nat) {
    |b| == h && forall y :: 0 <= y < h ==> |b[y]| == w
  }

  /** Where numpy's reflect padding by one takes a value from; an axis of one element
      repeats it. */
  function Reflect(i: int, n: nat): (r: nat)
    requires -1 <= i <= n && n >= 1
    ensures r < n
  {
    if n == 1 then 0 else if i < 0 then 1 else if i == n then n - 2 else i
  }

  /** b * mask, at a site. */
  function Num(b: seq<seq<real>>, o: Order, c: Colour, y: nat, x: nat): real
    requires y < |b| && x < |b[y]|
  {
    b[y][x] * Mask(o, c, y, x)
  }

  function Mask(o: Order, c: Colour, y: nat, x: nat): real {
    if ColourAt(o, y, x) == c then 1.0 else 0.0
  }

  /** A padded value: mask or masked image, at a place up to one outside. */
  function PadNum(b: seq<seq<real>>, o: Order, c: Colour, h: nat, w: nat, y: int, x: int): real
    requires Rect(b, h, w) && h >= 1 && w >= 1 && -1 <= y <= h && -1 <= x <= w
  {
    Num(b, o, c, Reflect(y, h), Reflect(x, w))
  }

  function PadMask(o: Order, c: Colour, h: nat, w: nat, y: int, x: int): real
    requires h >= 1 && w >= 1 && -1 <= y <= h && -1 <= x <= w
  {
    Mask(o, c, Reflect(y, h), Reflect(x, w))
  }

  /** Sums over the 3x3 window at (y, x). */
  function SumNum(b: seq<seq<real>>, o: Order, c: Colour, h: nat, w: nat, y: nat, x: nat): real
    requires Rect(b, h, w) && y < h && x < w
  {
    PadNum(b, o, c, h, w, y - 1, x - 1) + PadNum(b, o, c, h, w, y - 1, x) + PadNum(b, o, c, h, w, y - 1, x + 1)
    + PadNum(b, o, c, h, w, y, x - 1) + PadNum(b, o, c, h, w, y, x) + PadNum(b, o, c, h, w, y, x + 1)
    + PadNum(b, o, c, h, w, y + 1, x - 1) + PadNum(b, o, c, h, w, y + 1, x) + PadNum(b, o, c, h, w, y + 1, x + 1)
  }

  function SumMask(o: Order, c: Colour, h: nat, w: nat, y: nat, x: nat): real
    requires y < h && x < w
  {
    PadMask(o, c, h, w, y - 1, x - 1) + PadMask(o, c, h, w, y - 1, x) + PadMask(o, c, h, w, y - 1, x + 1)
    + PadMask(o, c, h, w, y, x - 1) + PadMask(o, c, h, w, y, x) + PadMask(o, c, h, w, y, x + 1)
    + PadMask(o, c, h, w, y + 1, x - 1) + PadMask(o, c, h, w, y + 1, x) + PadMask(o, c, h, w, y + 1, x + 1)
  }

  /** A colour plane at a site: the sample itself, or the window's sum over its count. */
  function Plane(b: seq<seq<real>>, o: Order, c: Colour, h: nat, w: nat, y: nat, x: nat): real
    requires Rect(b, h, w) && y < h && x < w
  {
    var n := SumMask(o, c, h, w, y, x);
    if Mask(o, c, y, x) > 0.0 then b[y][x] else SumNum(b, o, c, h, w, y, x) / (if n > 1.0 then n else 1.0)
  }

  // ---- reflection keeps colours ------------------------------------------

  lemma {:induction false} ReflectParity(i: int, n: nat)
    requires -1 <= i <= n && n >= 2
    ensures Reflect(i, n) % 2 == i % 2
  {
  }

  /** In an image of at least two rows and columns the padding continues the mosaic. */
  lemma {:induction false} PaddingContinues(o: Order, h: nat, w: nat, y: int, x: int)
    requires h >= 2 && w >= 2 && -1 <= y <= h && -1 <= x <= w
    ensures ColourAt(o, Reflect(y, h), Reflect(x, w)) == ColourAt(o, y, x)
  {
    hide ColourAt, Reflect;
    ReflectParity(y, h);
    ReflectParity(x, w);
    ColourRepeats(o, Reflect(y, h), Reflect(x, w), y, x);
  }

  /** The padded raw value. */
  function Pad(b: seq<seq<real>>, h: nat, w: nat, y: int, x: int): real
    requires Rect(b, h, w) && h >= 1 && w >= 1 && -1 <= y <= h && -1 <= x <= w
  {
    b[Reflect(y, h)][Reflect(x, w)]
  }

  lemma {:induction false} PadNumIs(b: seq<seq<real>>, o: Order, c: Colour, h: nat, w: nat, y: int, x: int)
    requires Rect(b, h, w) && h >= 2 && w >= 2 && -1 <= y <= h && -1 <= x <= w
    ensures PadNum(b, o, c, h, w, y, x) == if ColourAt(o, y, x) == c then Pad(b, h, w, y, x) else 0.0
    ensures PadMask(o, c, h, w, y, x) == if ColourAt(o, y, x) == c then 1.0 else 0.0
  {
    hide ColourAt, Reflect;
    PaddingContinues(o, h, w, y, x);
    Times01(Pad(b, h, w, y, x));
  }

  lemma {:induction false} Times01(v: real)
    ensures v * 1.0 == v && v * 0.0 == 0.0
  {
  }

  // ---- the neighbours of a missing sample --------------------------------

  /** Colours around a site, by what is beside it and below it. */
  lemma {:induction false} Around(o: Order, y: int, x: int)
    ensures ColourAt(o, y, x - 1) == ColourAt(o, y, x + 1) && ColourAt(o, y - 1, x) == ColourAt(o, y + 1, x)
    ensures ColourAt(o, y - 1, x - 1) == ColourAt(o, y + 1, x + 1)
    ensures ColourAt(o, y - 1, x + 1) == ColourAt(o, y + 1, x + 1)
    ensures ColourAt(o, y + 1, x - 1) == ColourAt(o, y + 1, x + 1)
  {
    hide ColourAt;
    ColourRepeats(o, y, x - 1, y, x + 1);
    ColourRepeats(o, y - 1, x, y + 1, x);
    ColourRepeats(o, y - 1, x - 1, y + 1, x + 1);
    ColourRepeats(o, y - 1, x + 1, y + 1, x + 1);
    ColourRepeats(o, y + 1, x - 1, y + 1, x + 1);
  }

  /** The three other sites of a block: every missing colour is among them, and green is
      either at the site or both beside and below it. */
  lemma {:induction false} Block(o: Order, y: int, x: int, c: Colour)
    requires ColourAt(o, y, x) != c
    ensures var side, below, corner := ColourAt(o, y, x + 1), ColourAt(o, y + 1, x), ColourAt(o, y + 1, x + 1);
            && (side == c || below == c || corner == c)
            && (corner == c ==> side != c && below != c)
            && (side == c && below == c <==> c == Green)
            && (side == c || below == c ==> corner != c)
  {
    Parities(y);
    Parities(x);
    BlockLetters(o, y % 2, x % 2, c);
  }

  lemma {:induction false} Parities(y: int)
    ensures (y % 2 == 0 || y % 2 == 1) && (y + 1) % 2 == 1 - y % 2
  {
  }

  lemma {:induction false} BlockLetters(o: Order, py: nat, px: nat, c: Colour)
    requires py < 2 && px < 2 && Letter(o, 2 * py + px) != c
    ensures var side, below, corner := Letter(o, 2 * py + 1 - px), Letter(o, 2 * (1 - py) + px), Letter(o, 2 * (1 - py) + 1 - px);
            && (side == c || below == c || corner == c)
            && (corner == c ==> side != c && below != c)
            && (side == c && below == c <==> c == Green)
            && (side == c || below == c ==> corner != c)
  {
    match o
    case RGGB => case GRBG => case GBRG => case BGGR =>
  }

  /** What a missing sample should be: the mean of its nearest neighbours of that colour,
      two beside it, two above and below, all four of these, or the four diagonal ones. */
  function MeanOfNearest(b: seq<seq<real>>, o: Order, c: Colour, h: nat, w: nat, y: nat, x: nat): real
    requires Rect(b, h, w) && y < h && x < w
  {
    var sides := Pad(b, h, w, y, x - 1) + Pad(b, h, w, y, x + 1);
    var ends := Pad(b, h, w, y - 1, x) + Pad(b, h, w, y + 1, x);
    var corners := Pad(b, h, w, y - 1, x - 1) + Pad(b, h, w, y - 1, x + 1) + Pad(b, h, w, y + 1, x - 1) + Pad(b, h, w, y + 1, x + 1);
    if ColourAt(o, y, x + 1) == c && ColourAt(o, y + 1, x) == c then (sides + ends) / 4.0
    else if ColourAt(o, y, x + 1) == c then sides / 2.0
    else if ColourAt(o, y + 1, x) == c then ends / 2.0
    else corners / 4.0
  }

  lemma {:induction false} WindowTerms(b: seq<seq<real>>, o: Order, c: Colour, h: nat, w: nat, y: nat, x: nat)
    requires Rect(b, h, w) && h >= 2 && w >= 2 && y < h && x < w && ColourAt(o, y, x) != c
    ensures var side, below, corner := ColourAt(o, y, x + 1) == c, ColourAt(o, y + 1, x) == c, ColourAt(o, y + 1, x + 1) == c;
            var sides := Pad(b, h, w, y, x - 1) + Pad(b, h, w, y, x + 1);
            var ends := Pad(b, h, w, y - 1, x) + Pad(b, h, w, y + 1, x);
            var corners := Pad(b, h, w, y - 1, x - 1) + Pad(b, h, w, y - 1, x + 1) + Pad(b, h, w, y + 1, x - 1) + Pad(b, h, w, y + 1, x + 1);
            && SumNum(b, o, c, h, w, y, x)
               == (if side then sides else 0.0) + (if below then ends else 0.0) + (if corner then corners else 0.0)
            && SumMask(o, c, h, w, y, x)
               == (if side then 2.0 else 0.0) + (if below then 2.0 else 0.0) + (if corner then 4.0 else 0.0)
  {
    hide ColourAt, Pad, PadNum, PadMask, Reflect;
    Around(o, y, x);
    PadNumIs(b, o, c, h, w, y - 1, x - 1);
    PadNumIs(b, o, c, h, w, y - 1, x);
    PadNumIs(b, o, c, h, w, y - 1, x + 1);
    PadNumIs(b, o, c, h, w, y, x - 1);
    PadNumIs(b, o, c, h, w, y, x);
    PadNumIs(b, o, c, h, w, y, x + 1);
    PadNumIs(b, o, c, h, w, y + 1, x - 1);
    PadNumIs(b, o, c, h, w, y + 1, x);
    PadNumIs(b, o, c, h, w, y + 1, x + 1);
  }

  /** The interpolation is exact: known samples are kept, and every missing one is the
      mean of its two or four nearest neighbours of that colour. */
  lemma {:induction false} PlaneIsMean(b: seq<seq<real>>, o: Order, c: Colour, h: nat, w: nat, y: nat, x: nat)
    requires Rect(b, h, w) && h >= 2 && w >= 2 && y < h && x < w
    ensures Plane(b, o, c, h, w, y, x)
            == if ColourAt(o, y, x) == c then b[y][x] else MeanOfNearest(b, o, c, h, w, y, x)
  {
    hide ColourAt, Pad, SumNum, SumMask, Reflect;
    if ColourAt(o, y, x) != c {
      WindowTerms(b, o, c, h, w, y, x);
      Block(o, y, x, c);
    }
  }

  /** All neighbours of a colour in the padded window lie in [lo, hi]. */
  predicate WindowWithin(b: seq<seq<real>>, o: Order, c: Colour, h: nat, w: nat, y: nat, x: nat, lo: real, hi: real)
    requires Rect(b, h, w) && y < h && x < w
  {
    forall dy, dx :: -1 <= dy <= 1 && -1 <= dx <= 1 ==> Within(b, o, c, h, w, y, x, lo, hi, dy, dx)
  }

  predicate Within(b: seq<seq<real>>, o: Order, c: Colour, h: nat, w: nat, y: nat, x: nat, lo: real, hi: real, dy: int, dx: int)
    requires Rect(b, h, w) && y < h && x < w && -1 <= dy <= 1 && -1 <= dx <= 1
  {
    ColourAt(o, y + dy, x + dx) == c ==> lo <= Pad(b, h, w, y + dy, x + dx) <= hi
  }

  lemma {:induction false} InWindow(b: seq<seq<real>>, o: Order, c: Colour, h: nat, w: nat, y: nat, x: nat, lo: real, hi: real, dy: int, dx: int)
    requires Rect(b, h, w) && y < h && x < w && WindowWithin(b, o, c, h, w, y, x, lo, hi)
    requires -1 <= dy <= 1 && -1 <= dx <= 1 && ColourAt(o, y + dy, x + dx) == c
    ensures lo <= Pad(b, h, w, y + dy, x + dx) <= hi
  {
    hide ColourAt, Pad;
    assert Within(b, o, c, h, w, y, x, lo, hi, dy, dx);
  }

  /** Every output lies between the smallest and the largest neighbour used. */
  lemma {:induction false} PlaneWithin(b: seq<seq<real>>, o: Order, c: Colour, h: nat, w: nat, y: nat, x: nat, lo: real, hi: real)
    requires Rect(b, h, w) && h >= 2 && w >= 2 && y < h && x < w && WindowWithin(b, o, c, h, w, y, x, lo, hi)
    ensures lo <= Plane(b, o, c, h, w, y, x) <= hi
  {
    hide ColourAt, Pad, Plane, WindowWithin, Reflect;
    PlaneIsMean(b, o, c, h, w, y, x);
    Around(o, y, x);
    if ColourAt(o, y, x) == c {
      InWindow(b, o, c, h, w, y, x, lo, hi, 0, 0);
      PadInside(b, h, w, y, x);
    } else {
      Block(o, y, x, c);
      if ColourAt(o, y, x + 1) == c {
        InWindow(b, o, c, h, w, y, x, lo, hi, 0, 1);
        InWindow(b, o, c, h, w, y, x, lo, hi, 0, -1);
      }
      if ColourAt(o, y + 1, x) == c {
        InWindow(b, o, c, h, w, y, x, lo, hi, 1, 0);
        InWindow(b, o, c, h, w, y, x, lo, hi, -1, 0);
      }
      if ColourAt(o, y + 1, x + 1) == c {
        InWindow(b, o, c, h, w, y, x, lo, hi, 1, 1);
        InWindow(b, o, c, h, w, y, x, lo, hi, 1, -1);
        InWindow(b, o, c, h, w, y, x, lo, hi, -1, 1);
        InWindow(b, o, c, h, w, y, x, lo, hi, -1, -1);
      }
    }
  }

  lemma {:induction false} PadInside(b: seq<seq<real>>, h: nat, w: nat, y: nat, x: nat)
    requires Rect(b, h, w) && y < h && x < w
    ensures Pad(b, h, w, y, x) == b[y][x]
  {
  }

  // ---- when the guard matters --------------------------------------------

  /** The window has a sample of every colour at every site. */
  predicate GuardIdle(o: Order, h: nat, w: nat) {
    forall c: Colour, y, x :: 0 <= y < h && 0 <= x < w ==> SumMask(o, c, h, w, y, x) >= 1.0
  }

  /** A colour that row 0, or column 0, of the mosaic does not have. */
  lemma {:induction false} MissingColour(o: Order, row: bool) returns (c: Colour)
    ensures row ==> forall x: nat :: ColourAt(o, 0, x) != c
    ensures !row ==> forall y: nat :: ColourAt(o, y, 0) != c
  {
    hide Letter;
    c := if Letter(o, 0) == Red || (if row then Letter(o, 1) else Letter(o, 2)) == Red then Blue else Red;
    NotInLine(o, row, c);
    forall x: nat ensures row ==> ColourAt(o, 0, x) != c { Parities(x); }
    forall y: nat ensures !row ==> ColourAt(o, y, 0) != c { Parities(y); }
  }

  lemma {:induction false} NotInLine(o: Order, row: bool, c: Colour)
    requires c == if Letter(o, 0) == Red || (if row then Letter(o, 1) else Letter(o, 2)) == Red then Blue else Red
    ensures row ==> Letter(o, 0) != c && Letter(o, 1) != c
    ensures !row ==> Letter(o, 0) != c && Letter(o, 2) != c
  {
    match o
    case RGGB => case GRBG => case GBRG => case BGGR =>
  }

  lemma {:induction false} LineImage(o: Order, c: Colour, h: nat, w: nat)
    requires h >= 1 && w >= 1
    requires (h == 1 && forall x: nat :: ColourAt(o, 0, x) != c) || (w == 1 && forall y: nat :: ColourAt(o, y, 0) != c)
    ensures SumMask(o, c, h, w, 0, 0) == 0.0
  {
    hide ColourAt;
  }

  lemma {:induction false} MissingOnce(o: Order, c: Colour, h: nat, w: nat, y: nat, x: nat)
    requires h >= 2 && w >= 2 && y < h && x < w
    ensures ColourAt(o, y, x) != c ==> SumMask(o, c, h, w, y, x) == 2.0 || SumMask(o, c, h, w, y, x) == 4.0
    ensures SumMask(o, c, h, w, y, x) >= 1.0
  {
    hide ColourAt, SumMask, PadMask;
    var b := seq(h, i => seq(w, j => 0.0));
    if ColourAt(o, y, x) != c {
      WindowTerms(b, o, c, h, w, y, x);
      Block(o, y, x, c);
    } else {
      SelfCounted(o, c, h, w, y, x);
    }
  }

  lemma {:induction false} SelfCounted(o: Order, c: Colour, h: nat, w: nat, y: nat, x: nat)
    requires h >= 1 && w >= 1 && y < h && x < w && ColourAt(o, y, x) == c
    ensures SumMask(o, c, h, w, y, x) >= 1.0
  {
    hide ColourAt;
    assert Reflect(y, h) == y && Reflect(x, w) == x;
    hide Reflect;
  }

  /** maximum(sm, 1) never changes a count exactly when the image has at least two rows
      and two columns. */
  lemma {:induction false} GuardExact(o: Order, h: nat, w: nat)
    requires h >= 1 && w >= 1
    ensures GuardIdle(o, h, w) <==> h >= 2 && w >= 2
  {
    hide SumMask, ColourAt;
    if h >= 2 && w >= 2 {
      forall c: Colour, y, x | 0 <= y < h && 0 <= x < w ensures SumMask(o, c, h, w, y, x) >= 1.0 {
        MissingOnce(o, c, h, w, y, x);
      }
    } else {
      var c := MissingColour(o, h == 1);
      LineImage(o, c, h, w);
    }
  }

  // ---- the program -------------------------------------------------------

  /** Row and column of the red site, as the script's table has it. */
  function RedAt(o: Order): (nat, nat) {
    match o
    case RGGB => (0, 0)
    case GRBG => (0, 1)
    case GBRG => (1, 0)
    case BGGR => (1, 1)
  }

  function Code(c: Colour): int {
    match c
    case Red => 1
    case Green => 2
    case Blue => 3
  }

  lemma {:induction false} RedAtParity(o: Order, y: int, x: int)
    ensures ColourAt(o, y, x) == Red <==> y % 2 == RedAt(o).0 && x % 2 == RedAt(o).1
    ensures ColourAt(o, y, x) == Blue <==> y % 2 == 1 - RedAt(o).0 && x % 2 == 1 - RedAt(o).1
  {
    Parities(y);
    Parities(x);
    RedAtLetters(o, y % 2, x % 2);
  }

  lemma {:induction false} RedAtLetters(o: Order, py: nat, px: nat)
    requires py < 2 && px < 2
    ensures Letter(o, 2 * py + px) == Red <==> (py, px) == RedAt(o)
    ensures Letter(o, 2 * py + px) == Blue <==> (py, px) == (1 - RedAt(o).0, 1 - RedAt(o).1)
  {
    match o
    case RGGB => case GRBG => case GBRG => case BGGR =>
  }

  /** m[r::2, c::2] = v. */
  method FillStrided(m: array2<int>, r: nat, c: nat, v: int)
    requires r < 2 && c < 2
    modifies m
    ensures forall y, x :: 0 <= y < m.Length0 && 0 <= x < m.Length1 ==>
              m[y, x] == if y % 2 == r && x % 2 == c then v else old(m[y, x])
  {
    var y := r;
    while y < m.Length0
      invariant y % 2 == r && y <= m.Length0 + 1
      invariant forall i, j :: 0 <= i < m.Length0 && 0 <= j < m.Length1 ==>
                  m[i, j] == if i < y && i % 2 == r && j % 2 == c then v else old(m[i, j])
    {
      var x := c;
      while x < m.Length1
        invariant x % 2 == c && x <= m.Length1 + 1
        invariant forall i, j :: 0 <= i < m.Length0 && 0 <= j < m.Length1 ==>
                    m[i, j] == if (i < y && i % 2 == r && j % 2 == c) || (i == y && j < x && j % 2 == c) then v
                               else old(m[i, j])
      {
        m[y, x] := v;
        x := x + 2;
      }
      y := y + 2;
    }
  }

  /** The colour mask: red and blue by strided fills, green everywhere else. */
  method FillMask(o: Order, h: nat, w: nat) returns (m: array2<int>)
    ensures fresh(m) && m.Length0 == h && m.Length1 == w
    ensures forall y, x :: 0 <= y < h && 0 <= x < w ==> m[y, x] == Code(ColourAt(o, y, x))
  {
    hide ColourAt;
    var off := RedAt(o);
    m := new int[h, w]((y, x) => 0);
    FillStrided(m, off.0, off.1, 1);
    FillStrided(m, 1 - off.0, 1 - off.1, 3);
    forall y, x | 0 <= y < h && 0 <= x < w
      ensures m[y, x] == if ColourAt(o, y, x) == Red then 1 else if ColourAt(o, y, x) == Blue then 3 else 0
    {
      RedAtParity(o, y, x);
    }
    forall y, x | 0 <= y < h && 0 <= x < w && m[y, x] == 0 {
      m[y, x] := 2;
    }
  }

  /** One channel: padded sums over every window, then the samples put back. */
  method FillChannel(b: seq<seq<real>>, m: array2<int>, o: Order, c: Colour, h: nat, w: nat, ch: array2<real>)
    requires Rect(b, h, w) && m.Length0 == h && m.Length1 == w && ch.Length0 == h && ch.Length1 == w
    requires forall y, x :: 0 <= y < h && 0 <= x < w ==> m[y, x] == Code(ColourAt(o, y, x))
    modifies ch
    ensures forall y, x :: 0 <= y < h && 0 <= x < w ==> ch[y, x] == Plane(b, o, c, h, w, y, x)
  {
    hide ColourAt, SumNum, SumMask;
    for y := 0 to h
      invariant forall i, j :: 0 <= i < y && 0 <= j < w ==> ch[i, j] == Plane(b, o, c, h, w, i, j)
    {
      for x := 0 to w
        invariant forall i, j :: 0 <= i < y && 0 <= j < w ==> ch[i, j] == Plane(b, o, c, h, w, i, j)
        invariant forall j :: 0 <= j < x ==> ch[y, j] == Plane(b, o, c, h, w, y, j)
      {
        var sn, sm := SumNum(b, o, c, h, w, y, x), SumMask(o, c, h, w, y, x);
        ch[y, x] := if m[y, x] == Code(c) then b[y][x] else sn / (if sm > 1.0 then sm else 1.0);
      }
    }
  }

  /** demosaic: the three planes, one after the other. It fails without rows or columns, as an
      empty axis cannot be padded by reflection. */
  method Interpolate(b: seq<seq<real>>, o: Order, h: nat, w: nat)
    returns (ok: bool, r: array2<real>, g: array2<real>, bl: array2<real>)
    requires Rect(b, h, w)
    ensures ok <==> h > 0 && w > 0
    ensures r.Length0 == g.Length0 == bl.Length0 == h && r.Length1 == g.Length1 == bl.Length1 == w
    ensures forall y, x :: 0 <= y < h && 0 <= x < w ==> r[y, x] == Plane(b, o, Red, h, w, y, x)
    ensures forall y, x :: 0 <= y < h && 0 <= x < w ==> g[y, x] == Plane(b, o, Green, h, w, y, x)
    ensures forall y, x :: 0 <= y < h && 0 <= x < w ==> bl[y, x] == Plane(b, o, Blue, h, w, y, x)
  {
    hide ColourAt, Plane;
    var m := FillMask(o, h, w);
    r := new real[h, w]((y, x) => 0.0);
    g := new real[h, w]((y, x) => 0.0);
    bl := new real[h, w]((y, x) => 0.0);
    ok := h > 0 && w > 0;
    if !ok { return; }
    FillChannel(b, m, o, Red, h, w, r);
    FillChannel(b, m, o, Green, h, w, g);
    FillChannel(b, m, o, Blue, h, w, bl);
  }
}
