/** Bayer mosaics: which colour a sensor site has. */
module Bayer {
  /** The four orders, named by the colours of a 2x2 block read row by row. */
  datatype Order = BGGR | GBRG | GRBG | RGGB
  datatype Colour = Red | Green | Blue

  /** The k-th letter of the order's name. */
  function Letter(o: Order, k: nat): Colour
    requires k < 4
  {
    match o
    case RGGB => if k == 0 then Red else if k == 3 then Blue else Green
    case GRBG => if k == 1 then Red else if k == 2 then Blue else Green
    case GBRG => if k == 2 then Red else if k == 1 then Blue else Green
    case BGGR => if k == 3 then Red else if k == 0 then Blue else Green
  }

  function Name(o: Order): (s: string)
    ensures |s| == 4
  {
    match o
    case RGGB => "RGGB"
    case GRBG => "GRBG"
    case GBRG => "GBRG"
    case BGGR => "BGGR"
  }

  function Named(c: char): Colour {
    if c == 'R' then Red else if c == 'B' then Blue else Green
  }

  /** The letters are those that spell the name. */
  lemma {:induction false} LettersSpell(o: Order, k: nat)
    requires k < 4
    ensures Letter(o, k) == Named(Name(o)[k])
  {
  }

  /** Colour of the site in row y and column x, also outside the image. */
  function ColourAt(o: Order, y: int, x: int): Colour {
    Letter(o, 2 * (y % 2) + x % 2)
  }

  /** The four corners of a block are the four letters. */
  lemma {:induction false} Corners(o: Order)
    ensures ColourAt(o, 0, 0) == Letter(o, 0) && ColourAt(o, 0, 1) == Letter(o, 1)
    ensures ColourAt(o, 1, 0) == Letter(o, 2) && ColourAt(o, 1, 1) == Letter(o, 3)
  {
    hide Letter;
  }

  lemma {:induction false} ColourRepeats(o: Order, y: int, x: int, y2: int, x2: int)
    requires y % 2 == y2 % 2 && x % 2 == x2 % 2
    ensures ColourAt(o, y, x) == ColourAt(o, y2, x2)
  {
  }
}
