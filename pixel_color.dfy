/** The colour a pixel stands for.  The converter only ever moves samples
 *  between channel positions; what it must preserve is the colour each
 *  pixel holds, read according to the order its buffer is declared in.
 */
module PixelColors {

  import opened MatColorOrders
  import opened CvMats

  /** The red, green, blue and alpha samples of one pixel. */
  datatype Rgba = Rgba(r: int, g: int, b: int, a: int)

  /** The colour of a 4-channel pixel laid out in order `o`.  Since the
   *  enum aliases BGRA with BGR and RGBA with RGB, the three values of
   *  MatColorOrder are the three 4-channel layouts. */
  function Decode4(p: Pixel, o: MatColorOrder): Rgba
    requires |p| == 4
  {
    if o == MCO_BGRA then Rgba(p[2], p[1], p[0], p[3])
    else if o == MCO_RGBA then Rgba(p[0], p[1], p[2], p[3])
    else Rgba(p[1], p[2], p[3], p[0])
  }

  /** The 4-channel pixel that holds colour `c` in order `o`. */
  function Encode4(c: Rgba, o: MatColorOrder): (p: Pixel)
    ensures |p| == 4 && Decode4(p, o) == c
  {
    if o == MCO_BGRA then [c.b, c.g, c.r, c.a]
    else if o == MCO_RGBA then [c.r, c.g, c.b, c.a]
    else [c.a, c.r, c.g, c.b]
  }

  /** A layout loses nothing: the colour determines the pixel. */
  lemma {:induction false} EncodeDecode(p: Pixel, o: MatColorOrder)
    requires |p| == 4
    ensures Encode4(Decode4(p, o), o) == p
  {
    var q := Encode4(Decode4(p, o), o);
    assert q[0] == p[0] && q[1] == p[1] && q[2] == p[2] && q[3] == p[3];
  }

  /** Two pixels of the same layout with the same colour are equal. */
  lemma {:induction false} Decode4Injective(p: Pixel, q: Pixel, o: MatColorOrder)
    requires |p| == 4 && |q| == 4 && Decode4(p, o) == Decode4(q, o)
    ensures p == q
  {
    EncodeDecode(p, o);
    EncodeDecode(q, o);
  }

  /** The colour with every component scaled to 8 bits. */
  function NarrowColor(c: Rgba): Rgba
  {
    Rgba(Narrow(c.r), Narrow(c.g), Narrow(c.b), Narrow(c.a))
  }

  /** Scaling samples and reading the colour commute, so the depth step
   *  may come after the channel step. */
  lemma {:induction false} Decode4To8Bit(p: Pixel, o: MatColorOrder, d: Depth)
    requires |p| == 4
    ensures |To8Bit(p, d)| == 4
    ensures Decode4(To8Bit(p, d), o) == if d == CV_16U then NarrowColor(Decode4(p, o)) else Decode4(p, o)
  {
  }
}
