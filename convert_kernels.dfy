/** The two helper kernels of the converter: ARGBToBGRA, which reverses
 *  the four channels of every pixel, and AdjustChannelsOrder, which
 *  rewrites a 4-channel Mat from one channel order into another with an
 *  explicit mixChannels table per pair of orders.
 */
module ConvertKernels {

  import opened MatColorOrders
  import opened CvMats
  import opened PixelColors

  /** from_to = { 0, 3, 1, 2, 2, 1, 3, 0 }: ARGB <-> BGRA. */
  const ARGB_TO_BGRA: seq<ChannelPair> :=
    [ChannelPair(0, 3), ChannelPair(1, 2), ChannelPair(2, 1), ChannelPair(3, 0)]

  /** from_to = { 0, 3, 1, 0, 2, 1, 3, 2 }: ARGB -> RGBA. */
  const ARGB_TO_RGBA: seq<ChannelPair> :=
    [ChannelPair(0, 3), ChannelPair(1, 0), ChannelPair(2, 1), ChannelPair(3, 2)]

  /** from_to = { 0, 1, 1, 2, 2, 3, 3, 0 }: RGBA -> ARGB. */
  const RGBA_TO_ARGB: seq<ChannelPair> :=
    [ChannelPair(0, 1), ChannelPair(1, 2), ChannelPair(2, 3), ChannelPair(3, 0)]

  /** A 4-channel table that writes each destination channel from the
   *  given source channel. */
  lemma {:induction false} FourPairTable(ft: seq<ChannelPair>, p: Pixel, s0: nat, s1: nat, s2: nat, s3: nat)
    requires |p| == 4 && s0 < 4 && s1 < 4 && s2 < 4 && s3 < 4
    requires |ft| == 4
    requires ft[0].src < 4 && ft[1].src < 4 && ft[2].src < 4 && ft[3].src < 4
    requires ft[0].dst < 4 && ft[1].dst < 4 && ft[2].dst < 4 && ft[3].dst < 4
    requires Targets(ft) == {ft[0].dst, ft[1].dst, ft[2].dst, ft[3].dst} == {0, 1, 2, 3}
    requires SourceOf(ft, 0) == s0 && SourceOf(ft, 1) == s1 && SourceOf(ft, 2) == s2 && SourceOf(ft, 3) == s3
    ensures TableFits(ft, 4, 4) && Covers(ft, 4)
    ensures MixPixel(p, ft, 4) == [p[s0], p[s1], p[s2], p[s3]]
  {
    assert TableFits(ft, 4, 4) by {
      forall k | 0 <= k < 4 ensures ft[k].src < 4 && ft[k].dst < 4 {
        assert k == 0 || k == 1 || k == 2 || k == 3;
      }
    }
  }

  /** Targets and sources of a 4-pair table, unfolded pair by pair. */
  lemma {:induction false} Unfold4(ft: seq<ChannelPair>)
    requires |ft| == 4
    ensures Targets(ft) == {ft[0].dst, ft[1].dst, ft[2].dst, ft[3].dst}
    ensures forall d :: d in Targets(ft) ==>
              SourceOf(ft, d) == if ft[3].dst == d then ft[3].src
                                 else if ft[2].dst == d then ft[2].src
                                 else if ft[1].dst == d then ft[1].src
                                 else ft[0].src
  {
    assert ft[..3][..2] == ft[..2];
    assert ft[..2][..1] == ft[..1];
    assert ft[..1][..0] == [];
    assert Targets(ft[..1]) == {ft[0].dst};
    assert Targets(ft[..2]) == {ft[0].dst, ft[1].dst};
    assert Targets(ft[..3]) == {ft[0].dst, ft[1].dst, ft[2].dst};
    forall d | d in Targets(ft)
      ensures SourceOf(ft, d) == if ft[3].dst == d then ft[3].src
                                 else if ft[2].dst == d then ft[2].src
                                 else if ft[1].dst == d then ft[1].src
                                 else ft[0].src
    {
      if ft[3].dst != d {
        assert SourceOf(ft, d) == SourceOf(ft[..3], d);
        if ft[2].dst != d {
          assert SourceOf(ft[..3], d) == SourceOf(ft[..2], d);
          if ft[1].dst != d {
            assert SourceOf(ft[..2], d) == SourceOf(ft[..1], d);
          }
        }
      }
    }
  }

  /** Targets and sources of a 3-pair table, unfolded pair by pair. */
  lemma {:induction false} Unfold3(ft: seq<ChannelPair>)
    requires |ft| == 3
    ensures Targets(ft) == {ft[0].dst, ft[1].dst, ft[2].dst}
    ensures forall d :: d in Targets(ft) ==>
              SourceOf(ft, d) == if ft[2].dst == d then ft[2].src
                                 else if ft[1].dst == d then ft[1].src
                                 else ft[0].src
  {
    assert ft[..2][..1] == ft[..1];
    assert ft[..1][..0] == [];
    assert Targets(ft[..1]) == {ft[0].dst};
    assert Targets(ft[..2]) == {ft[0].dst, ft[1].dst};
    forall d | d in Targets(ft)
      ensures SourceOf(ft, d) == if ft[2].dst == d then ft[2].src
                                 else if ft[1].dst == d then ft[1].src
                                 else ft[0].src
    {
      if ft[2].dst != d {
        assert SourceOf(ft, d) == SourceOf(ft[..2], d);
        if ft[1].dst != d {
          assert SourceOf(ft[..2], d) == SourceOf(ft[..1], d);
        }
      }
    }
  }

  function Reversed4(p: Pixel): Pixel
    requires |p| == 4
  {
    [p[3], p[2], p[1], p[0]]
  }

  /** The ARGB <-> BGRA table reverses a pixel. */
  lemma {:induction false} ArgbToBgraTable(p: Pixel)
    requires |p| == 4
    ensures TableFits(ARGB_TO_BGRA, 4, 4) && Covers(ARGB_TO_BGRA, 4)
    ensures MixPixel(p, ARGB_TO_BGRA, 4) == Reversed4(p)
  {
    Unfold4(ARGB_TO_BGRA);
    FourPairTable(ARGB_TO_BGRA, p, 3, 2, 1, 0);
  }

  /** The ARGB -> RGBA table rotates a pixel left. */
  lemma {:induction false} ArgbToRgbaTable(p: Pixel)
    requires |p| == 4
    ensures TableFits(ARGB_TO_RGBA, 4, 4) && Covers(ARGB_TO_RGBA, 4)
    ensures MixPixel(p, ARGB_TO_RGBA, 4) == [p[1], p[2], p[3], p[0]]
  {
    Unfold4(ARGB_TO_RGBA);
    FourPairTable(ARGB_TO_RGBA, p, 1, 2, 3, 0);
  }

  /** The RGBA -> ARGB table rotates a pixel right. */
  lemma {:induction false} RgbaToArgbTable(p: Pixel)
    requires |p| == 4
    ensures TableFits(RGBA_TO_ARGB, 4, 4) && Covers(RGBA_TO_ARGB, 4)
    ensures MixPixel(p, RGBA_TO_ARGB, 4) == [p[3], p[0], p[1], p[2]]
  {
    Unfold4(RGBA_TO_ARGB);
    FourPairTable(RGBA_TO_ARGB, p, 3, 0, 1, 2);
  }

  /** Reversing twice gives the pixel back, and the reversal reads an ARGB
   *  pixel as the same colour in BGRA order and vice versa. */
  lemma {:induction false} ArgbToBgraInvolution(p: Pixel)
    requires |p| == 4
    ensures TableFits(ARGB_TO_BGRA, 4, 4) && Covers(ARGB_TO_BGRA, 4)
    ensures MixPixel(MixPixel(p, ARGB_TO_BGRA, 4), ARGB_TO_BGRA, 4) == p
    ensures Decode4(MixPixel(p, ARGB_TO_BGRA, 4), MCO_BGRA) == Decode4(p, MCO_ARGB)
    ensures Decode4(MixPixel(p, ARGB_TO_BGRA, 4), MCO_ARGB) == Decode4(p, MCO_BGRA)
  {
    ArgbToBgraTable(p);
    ArgbToBgraTable(Reversed4(p));
  }

  /** The ARGB -> RGBA and RGBA -> ARGB tables undo each other. */
  lemma {:induction false} ArgbRgbaTablesInverse(p: Pixel)
    requires |p| == 4
    ensures TableFits(ARGB_TO_RGBA, 4, 4) && Covers(ARGB_TO_RGBA, 4)
    ensures TableFits(RGBA_TO_ARGB, 4, 4) && Covers(RGBA_TO_ARGB, 4)
    ensures MixPixel(MixPixel(p, ARGB_TO_RGBA, 4), RGBA_TO_ARGB, 4) == p
    ensures MixPixel(MixPixel(p, RGBA_TO_ARGB, 4), ARGB_TO_RGBA, 4) == p
  {
    ArgbToRgbaTable(p);
    RgbaToArgbTable(p);
    ArgbToRgbaTable(MixPixel(p, RGBA_TO_ARGB, 4));
    RgbaToArgbTable(MixPixel(p, ARGB_TO_RGBA, 4));
  }

  /** The samples a table moves stay within the depth's range. */
  lemma {:induction false} MixKeepsRange(ps: seq<Pixel>, qs: seq<Pixel>, n: nat, d: Depth)
    requires d != CV_32F && |qs| == |ps|
    requires forall i :: 0 <= i < |ps| ==> SamplesFit(ps[i], |ps[i]|, d)
    requires forall i :: 0 <= i < |ps| ==> |qs[i]| == n && forall c :: 0 <= c < n ==> qs[i][c] in ps[i]
    ensures forall i :: 0 <= i < |qs| ==> SamplesFit(qs[i], n, d)
  {
  }

  /** ARGBToBGRA: a new Mat of the same size and type whose every pixel is
   *  the source pixel with its four channels reversed. */
  method ARGBToBGRA(m: Mat) returns (r: Mat)
    requires Valid(m) && m.channels == 4
    ensures Valid(r) && r.rows == m.rows && r.cols == m.cols && r.depth == m.depth && r.channels == 4
    ensures r.step == ContinuousStep(m.cols, 4, m.depth)
    ensures |r.data| == |m.data|
    ensures forall i :: 0 <= i < |m.data| ==> r.data[i] == Reversed4(m.data[i])
  {
    ArgbToBgraTable(seq(4, _ => 0));
    var data := MixChannels(m.data, 4, ARGB_TO_BGRA, 4);
    forall i | 0 <= i < |m.data| ensures data[i] == Reversed4(m.data[i]) {
      ArgbToBgraTable(m.data[i]);
    }
    MixKeepsRange(m.data, data, 4, m.depth);
    r := NewMat(m.rows, m.cols, m.depth, 4, data);
  }

  /** Applying ARGBToBGRA twice gives back the original pixels. */
  method ARGBToBGRATwice(m: Mat) returns (back: Mat)
    requires Valid(m) && m.channels == 4
    ensures back.rows == m.rows && back.cols == m.cols && back.depth == m.depth && back.channels == 4
    ensures back.data == m.data
  {
    var once := ARGBToBGRA(m);
    back := ARGBToBGRA(once);
    forall i | 0 <= i < |m.data| ensures back.data[i] == m.data[i] {
      assert back.data[i] == Reversed4(Reversed4(m.data[i]));
    }
  }

  /** AdjustChannelsOrder: a new 4-channel Mat whose every pixel holds, in
   *  the target order, the colour the source pixel holds in the source
   *  order; with equal orders it is a clone. */
  method AdjustChannelsOrder(m: Mat, srcOrder: MatColorOrder, targetOrder: MatColorOrder) returns (r: Mat)
    requires Valid(m) && m.channels == 4
    ensures Valid(r) && r.rows == m.rows && r.cols == m.cols && r.depth == m.depth && r.channels == 4
    ensures r.step == ContinuousStep(m.cols, 4, m.depth)
    ensures |r.data| == |m.data|
    ensures forall i :: 0 <= i < |m.data| ==> Decode4(r.data[i], targetOrder) == Decode4(m.data[i], srcOrder)
    ensures srcOrder == targetOrder ==> r == Clone(m)
  {
    if srcOrder == targetOrder {
      return Clone(m);
    }
    if (MCO_ARGB == srcOrder && MCO_BGRA == targetOrder) || (MCO_BGRA == srcOrder && MCO_ARGB == targetOrder) {
      r := ARGBToBGRA(m);
      forall i | 0 <= i < |m.data| ensures Decode4(r.data[i], targetOrder) == Decode4(m.data[i], srcOrder) {
        ArgbToBgraInvolution(m.data[i]);
        ArgbToBgraTable(m.data[i]);
      }
    } else if MCO_ARGB == srcOrder && MCO_RGBA == targetOrder {
      ArgbToRgbaTable(seq(4, _ => 0));
      var data := MixChannels(m.data, 4, ARGB_TO_RGBA, 4);
      forall i | 0 <= i < |m.data| ensures data[i] == [m.data[i][1], m.data[i][2], m.data[i][3], m.data[i][0]] {
        ArgbToRgbaTable(m.data[i]);
      }
      MixKeepsRange(m.data, data, 4, m.depth);
      r := NewMat(m.rows, m.cols, m.depth, 4, data);
    } else if MCO_RGBA == srcOrder && MCO_ARGB == targetOrder {
      RgbaToArgbTable(seq(4, _ => 0));
      var data := MixChannels(m.data, 4, RGBA_TO_ARGB, 4);
      forall i | 0 <= i < |m.data| ensures data[i] == [m.data[i][3], m.data[i][0], m.data[i][1], m.data[i][2]] {
        RgbaToArgbTable(m.data[i]);
      }
      MixKeepsRange(m.data, data, 4, m.depth);
      r := NewMat(m.rows, m.cols, m.depth, 4, data);
    } else {
      // Only BGRA -> RGBA and RGBA -> BGRA are left; both swap channels 0 and 2.
      r := CvtColor(m, CV_BGRA2RGBA);
      MixKeepsRange(m.data, r.data, 4, m.depth);
    }
  }

  /** The pairs of orders that reach the CV_BGRA2RGBA fallback are exactly
   *  BGRA -> RGBA and RGBA -> BGRA. */
  lemma AdjustFallbackPairs(srcOrder: MatColorOrder, targetOrder: MatColorOrder)
    ensures (srcOrder != targetOrder &&
             !((MCO_ARGB == srcOrder && MCO_BGRA == targetOrder) || (MCO_BGRA == srcOrder && MCO_ARGB == targetOrder)) &&
             !(MCO_ARGB == srcOrder && MCO_RGBA == targetOrder) &&
             !(MCO_RGBA == srcOrder && MCO_ARGB == targetOrder))
            <==>
            ((srcOrder == MCO_BGRA && targetOrder == MCO_RGBA) || (srcOrder == MCO_RGBA && targetOrder == MCO_BGRA))
  {
  }
}
