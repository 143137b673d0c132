/** The part of OpenCV's cv::Mat that the converter relies on: a dense
 *  2-D array of multi-channel pixels as a value, the packed type code,
 *  cv::mixChannels (the one kernel whose channel tables the converter
 *  spells out), the cv::cvtColor codes that only move or add channels,
 *  and cv::Mat::convertTo between 8-bit and 16-bit samples.
 */
module CvMats {

  /** The samples of one pixel, channel by channel. */
  type Pixel = seq<int>

  /** The sample depths the converter accepts. */
  datatype Depth = CV_8U | CV_16U | CV_32F

  /** Bytes per sample. */
  function ElemSize(d: Depth): nat
  {
    match d
    case CV_8U => 1
    case CV_16U => 2
    case CV_32F => 4
  }

  /** The largest sample of an integer depth. */
  function MaxSample(d: Depth): int
    requires d != CV_32F
  {
    if d == CV_8U then 255 else 65535
  }

  const CV_CN_MAX: nat := 512

  /** The depth field of a packed type code. */
  function DepthCode(d: Depth): nat
  {
    match d
    case CV_8U => 0
    case CV_16U => 2
    case CV_32F => 5
  }

  /** CV_MAKETYPE(depth, cn). */
  function MakeType(d: Depth, cn: nat): int
    requires 1 <= cn <= CV_CN_MAX
  {
    DepthCode(d) + (cn - 1) * 8
  }

  /** CV_MAT_DEPTH(type). */
  function MatDepth(t: int): int
    requires t >= 0
  {
    t % 8
  }

  /** CV_MAT_CN(type). */
  function MatCn(t: int): int
    requires t >= 0
  {
    t / 8 % 512 + 1
  }

  /** A type code made from a depth and a channel count gives both back. */
  lemma {:induction false} TypeRoundTrip(d: Depth, cn: nat)
    requires 1 <= cn <= CV_CN_MAX
    ensures MakeType(d, cn) >= 0
    ensures MatDepth(MakeType(d, cn)) == DepthCode(d) && MatCn(MakeType(d, cn)) == cn
  {
    var t := MakeType(d, cn);
    assert t == DepthCode(d) + 8 * (cn - 1);
    assert t / 8 == cn - 1;
  }

  /** A cv::Mat as a value: `data` holds rows * cols pixels row by row,
   *  and `step` is the number of bytes from one row to the next. */
  datatype Mat = Mat(rows: nat, cols: nat, depth: Depth, channels: nat, step: nat, data: seq<Pixel>)

  /** cv::Mat(): no rows, no columns, type CV_8UC1. */
  const EmptyMat: Mat := Mat(0, 0, CV_8U, 1, 0, [])

  /** cv::Mat::empty(). */
  predicate Empty(m: Mat)
  {
    m.rows == 0 || m.cols == 0
  }

  predicate SamplesFit(p: Pixel, n: nat, d: Depth)
    requires d != CV_32F
  {
    |p| == n && forall c :: 0 <= c < n ==> 0 <= p[c] <= MaxSample(d)
  }

  /** An integer-depth Mat whose pixels all have `channels` samples within
   *  the depth's range and whose rows fit within the stride. */
  predicate Valid(m: Mat)
  {
    m.depth != CV_32F && 1 <= m.channels <= CV_CN_MAX &&
    |m.data| == m.rows * m.cols &&
    m.step >= m.cols * m.channels * ElemSize(m.depth) &&
    forall i :: 0 <= i < |m.data| ==> SamplesFit(m.data[i], m.channels, m.depth)
  }

  /** The stride of a Mat that OpenCV allocates: rows packed tightly. */
  function ContinuousStep(cols: nat, cn: nat, d: Depth): nat
  {
    cols * cn * ElemSize(d)
  }

  /** A newly allocated Mat with the given pixels. */
  function NewMat(rows: nat, cols: nat, d: Depth, cn: nat, data: seq<Pixel>): Mat
  {
    Mat(rows, cols, d, cn, ContinuousStep(cols, cn, d), data)
  }

  /** cv::Mat::clone(): the same pixels in a new, tightly packed buffer. */
  function Clone(m: Mat): (c: Mat)
    ensures c.rows == m.rows && c.cols == m.cols && c.depth == m.depth && c.channels == m.channels
    ensures c.data == m.data
    ensures Valid(m) ==> Valid(c)
  {
    NewMat(m.rows, m.cols, m.depth, m.channels, m.data)
  }

  // ---------------------------------------------------------------------
  // cv::mixChannels

  /** One (source channel, destination channel) entry of a from_to table. */
  datatype ChannelPair = ChannelPair(src: nat, dst: nat)

  /** The destination channels a from_to table writes. */
  function Targets(ft: seq<ChannelPair>): set<nat>
    decreases |ft|
  {
    if ft == [] then {} else Targets(ft[..|ft| - 1]) + {ft[|ft| - 1].dst}
  }

  /** The source channel whose sample ends up in destination channel d:
   *  mixChannels applies the pairs in order, so the last pair naming d
   *  wins. */
  function SourceOf(ft: seq<ChannelPair>, d: nat): (s: nat)
    requires d in Targets(ft)
    ensures exists k :: 0 <= k < |ft| && ft[k] == ChannelPair(s, d)
    decreases |ft|
  {
    var k := |ft| - 1;
    if ft[k].dst == d then ft[k].src
    else
      var s := SourceOf(ft[..k], d);
      ghost var j :| 0 <= j < k && ft[..k][j] == ChannelPair(s, d);
      assert ft[j] == ChannelPair(s, d);
      s
  }

  /** Every pair reads an existing source channel and writes an existing
   *  destination channel. */
  predicate TableFits(ft: seq<ChannelPair>, srcCn: nat, dstCn: nat)
  {
    forall k :: 0 <= k < |ft| ==> ft[k].src < srcCn && ft[k].dst < dstCn
  }

  /** Every destination channel is written, so nothing of the freshly
   *  allocated (uninitialised) destination survives. */
  predicate Covers(ft: seq<ChannelPair>, dstCn: nat)
  {
    forall d :: 0 <= d < dstCn ==> d in Targets(ft)
  }

  /** What mixChannels makes of one pixel. */
  function MixPixel(p: Pixel, ft: seq<ChannelPair>, n: nat): (q: Pixel)
    requires TableFits(ft, |p|, n) && Covers(ft, n)
    ensures |q| == n
  {
    seq(n, d requires 0 <= d < n => p[SourceOf(ft, d)])
  }

  /** Pixel i of several input Mats taken together, as mixChannels numbers
   *  their channels: the first input's channels, then the second's. */
  function Planes(a: seq<Pixel>, b: seq<Pixel>): (s: seq<Pixel>)
    requires |a| == |b|
    ensures |s| == |a| && forall i :: 0 <= i < |a| ==> s[i] == a[i] + b[i]
  {
    seq(|a|, i requires 0 <= i < |a| => a[i] + b[i])
  }

  /** The pixels of a one-channel Mat filled with cv::Scalar(v). */
  function ConstantPlane(count: nat, v: int): (s: seq<Pixel>)
    ensures |s| == count && forall i :: 0 <= i < count ==> s[i] == [v]
  {
    seq(count, _ => [v])
  }

  /** cv::mixChannels into a newly allocated destination: for every pixel
   *  and every pair (s, d) of the table, dst[d] := src[s]. */
  method MixChannels(src: seq<Pixel>, srcCn: nat, ft: seq<ChannelPair>, n: nat) returns (dst: seq<Pixel>)
    requires forall i :: 0 <= i < |src| ==> |src[i]| == srcCn
    requires TableFits(ft, srcCn, n) && Covers(ft, n)
    ensures |dst| == |src|
    ensures forall i :: 0 <= i < |src| ==> dst[i] == MixPixel(src[i], ft, n)
  {
    dst := [];
    var i := 0;
    while i < |src|
      invariant 0 <= i <= |src| && |dst| == i
      invariant forall j :: 0 <= j < i ==> dst[j] == MixPixel(src[j], ft, n)
    {
      // The destination pixel starts uninitialised; every channel of it
      // is overwritten because the table covers all of them.
      var px: Pixel := seq(n, _ => 0);
      var k := 0;
      while k < |ft|
        invariant 0 <= k <= |ft| && |px| == n
        invariant forall d :: 0 <= d < n && d in Targets(ft[..k]) ==> px[d] == src[i][SourceOf(ft[..k], d)]
      {
        assert ft[..k + 1][..k] == ft[..k];
        px := px[ft[k].dst := src[i][ft[k].src]];
        k := k + 1;
      }
      assert ft[..|ft|] == ft;
      dst := dst + [px];
      i := i + 1;
    }
  }

  // ---------------------------------------------------------------------
  // cv::cvtColor codes that only move channels or add an opaque alpha

  datatype CvtCode =
    | CV_BGR2RGB | CV_RGB2BGR | CV_BGRA2RGBA
    | CV_GRAY2BGR | CV_GRAY2RGB | CV_GRAY2RGBA
    | CV_BGRA2BGR | CV_BGRA2RGB | CV_RGBA2BGR | CV_RGBA2RGB
    | CV_RGB2RGBA | CV_RGB2BGRA

  function CvtSrcChannels(code: CvtCode): nat
  {
    match code
    case CV_BGR2RGB | CV_RGB2BGR | CV_RGB2RGBA | CV_RGB2BGRA => 3
    case CV_BGRA2RGBA | CV_BGRA2BGR | CV_BGRA2RGB | CV_RGBA2BGR | CV_RGBA2RGB => 4
    case CV_GRAY2BGR | CV_GRAY2RGB | CV_GRAY2RGBA => 1
  }

  function CvtDstChannels(code: CvtCode): nat
  {
    match code
    case CV_BGR2RGB | CV_RGB2BGR | CV_GRAY2BGR | CV_GRAY2RGB => 3
    case CV_BGRA2BGR | CV_BGRA2RGB | CV_RGBA2BGR | CV_RGBA2RGB => 3
    case CV_BGRA2RGBA | CV_GRAY2RGBA | CV_RGB2RGBA | CV_RGB2BGRA => 4
  }

  /** What cvtColor makes of one pixel: channels named by the code's
   *  source layout are placed in its destination layout, and an added
   *  alpha channel is the depth's full opacity. */
  function CvtPixel(p: Pixel, code: CvtCode, d: Depth): (q: Pixel)
    requires |p| == CvtSrcChannels(code) && d != CV_32F
    ensures |q| == CvtDstChannels(code)
  {
    match code
    case CV_BGR2RGB | CV_RGB2BGR => [p[2], p[1], p[0]]
    case CV_BGRA2RGBA => [p[2], p[1], p[0], p[3]]
    case CV_GRAY2BGR | CV_GRAY2RGB => [p[0], p[0], p[0]]
    case CV_GRAY2RGBA => [p[0], p[0], p[0], MaxSample(d)]
    case CV_BGRA2BGR | CV_RGBA2RGB => [p[0], p[1], p[2]]
    case CV_BGRA2RGB | CV_RGBA2BGR => [p[2], p[1], p[0]]
    case CV_RGB2RGBA => [p[0], p[1], p[2], MaxSample(d)]
    case CV_RGB2BGRA => [p[2], p[1], p[0], MaxSample(d)]
  }

  /** cv::cvtColor with one of the codes above, into a new Mat. */
  function CvtColor(m: Mat, code: CvtCode): (r: Mat)
    requires Valid(m) && m.channels == CvtSrcChannels(code)
    ensures r.rows == m.rows && r.cols == m.cols && r.depth == m.depth
    ensures r.channels == CvtDstChannels(code) && |r.data| == |m.data|
    ensures forall i :: 0 <= i < |m.data| ==> r.data[i] == CvtPixel(m.data[i], code, m.depth)
    ensures Valid(r)
  {
    var data := seq(|m.data|, i requires 0 <= i < |m.data| => CvtPixel(m.data[i], code, m.depth));
    assert forall i :: 0 <= i < |data| ==> SamplesFit(data[i], CvtDstChannels(code), m.depth) by {
      forall i | 0 <= i < |data| ensures SamplesFit(data[i], CvtDstChannels(code), m.depth) {
        assert SamplesFit(m.data[i], m.channels, m.depth);
      }
    }
    NewMat(m.rows, m.cols, m.depth, CvtDstChannels(code), data)
  }

  // ---------------------------------------------------------------------
  // cv::cvtColor to greyscale: a luma-weighted sum that the model does not
  // interpret, given as a function of (R, G, B)

  type Luma = (int, int, int) -> int

  datatype GreyCode = CV_RGB2GRAY | CV_BGRA2GRAY | CV_RGBA2GRAY

  function GreySrcChannels(code: GreyCode): nat
  {
    if code == CV_RGB2GRAY then 3 else 4
  }

  /** The grey value of one pixel: the luma of the pixel's R, G and B as
   *  the code lays them out. */
  function GreyPixel(p: Pixel, code: GreyCode, luma: Luma): Pixel
    requires |p| == GreySrcChannels(code)
  {
    match code
    case CV_RGB2GRAY | CV_RGBA2GRAY => [luma(p[0], p[1], p[2])]
    case CV_BGRA2GRAY => [luma(p[2], p[1], p[0])]
  }

  /** cvtColor's grey value of 8-bit samples is itself an 8-bit sample. */
  predicate LumaFits(luma: Luma)
  {
    forall r, g, b :: 0 <= r < 256 && 0 <= g < 256 && 0 <= b < 256 ==> 0 <= luma(r, g, b) < 256
  }

  function CvtGrey(m: Mat, code: GreyCode, luma: Luma): (r: Mat)
    requires Valid(m) && m.channels == GreySrcChannels(code)
    ensures r.rows == m.rows && r.cols == m.cols && r.depth == m.depth
    ensures r.channels == 1 && |r.data| == |m.data|
    ensures forall i :: 0 <= i < |m.data| ==> r.data[i] == GreyPixel(m.data[i], code, luma)
    ensures m.depth == CV_8U && LumaFits(luma) ==> Valid(r)
  {
    var data := seq(|m.data|, i requires 0 <= i < |m.data| => GreyPixel(m.data[i], code, luma));
    assert m.depth == CV_8U && LumaFits(luma) ==> forall i :: 0 <= i < |data| ==> SamplesFit(data[i], 1, m.depth) by {
      if m.depth == CV_8U && LumaFits(luma) {
        forall i | 0 <= i < |data| ensures SamplesFit(data[i], 1, m.depth) {
          assert SamplesFit(m.data[i], m.channels, m.depth);
        }
      }
    }
    NewMat(m.rows, m.cols, m.depth, 1, data)
  }

  // ---------------------------------------------------------------------
  // cv::Mat::convertTo between 8-bit and 16-bit samples

  /** convertTo(CV_16U, 255.0) of one 8-bit sample. */
  function Widen(v: int): int
  {
    255 * v
  }

  /** convertTo(CV_8U, 1/255.0) of one 16-bit sample: v / 255 rounded to
   *  the nearest integer, then saturated to 255.  v / 255 is never half
   *  way between two integers, because 255 is odd, so no tie arises. */
  function Narrow(v: int): int
  {
    var r := (2 * v + 255) / 510;
    if r > 255 then 255 else r
  }

  /** Narrow rounds to the nearest 8-bit value: below saturation the
   *  result is within half a step of v / 255. */
  lemma {:induction false} NarrowIsNearest(v: int)
    requires 0 <= v <= 65535
    ensures 0 <= Narrow(v) <= 255
    ensures Narrow(v) < 255 ==> 510 * Narrow(v) - 255 <= 2 * v < 510 * Narrow(v) + 255
    ensures Narrow(v) == 255 ==> 2 * v >= 510 * 255 - 255
  {
    var r := (2 * v + 255) / 510;
    assert 510 * r <= 2 * v + 255 < 510 * r + 510;
  }

  /** Scaling up never saturates, and scaling back restores the sample. */
  lemma {:induction false} NarrowWiden(v: int)
    requires 0 <= v <= 255
    ensures 0 <= Widen(v) <= 65025 <= MaxSample(CV_16U)
    ensures Narrow(Widen(v)) == v
  {
    assert 2 * Widen(v) + 255 == 510 * v + 255;
  }

  function WidenPixel(p: Pixel): (q: Pixel)
    ensures |q| == |p| && forall c :: 0 <= c < |p| ==> q[c] == Widen(p[c])
  {
    seq(|p|, c requires 0 <= c < |p| => Widen(p[c]))
  }

  function NarrowPixel(p: Pixel): (q: Pixel)
    ensures |q| == |p| && forall c :: 0 <= c < |p| ==> q[c] == Narrow(p[c])
  {
    seq(|p|, c requires 0 <= c < |p| => Narrow(p[c]))
  }

  /** The samples of a pixel scaled to 8 bits, as depth `d` requires. */
  function To8Bit(p: Pixel, d: Depth): Pixel
  {
    if d == CV_16U then NarrowPixel(p) else p
  }

  /** An 8-bit pixel scaled to depth `d`. */
  function From8Bit(p: Pixel, d: Depth): Pixel
  {
    if d == CV_16U then WidenPixel(p) else p
  }

  lemma {:induction false} NarrowWidenPixel(p: Pixel)
    requires SamplesFit(p, |p|, CV_8U)
    ensures NarrowPixel(WidenPixel(p)) == p
    ensures SamplesFit(WidenPixel(p), |p|, CV_16U)
  {
    forall c | 0 <= c < |p| ensures NarrowPixel(WidenPixel(p))[c] == p[c] && Widen(p[c]) <= 65535 {
      NarrowWiden(p[c]);
    }
  }

  /** convertTo(CV_8UC(cn), 1/255.0) of a 16-bit Mat, into a new Mat. */
  function ConvertTo8U(m: Mat): (r: Mat)
    requires Valid(m) && m.depth == CV_16U
    ensures Valid(r) && r.depth == CV_8U
    ensures r.rows == m.rows && r.cols == m.cols && r.channels == m.channels
    ensures |r.data| == |m.data| && forall i :: 0 <= i < |m.data| ==> r.data[i] == NarrowPixel(m.data[i])
  {
    var data := seq(|m.data|, i requires 0 <= i < |m.data| => NarrowPixel(m.data[i]));
    assert forall i :: 0 <= i < |data| ==> SamplesFit(data[i], m.channels, CV_8U) by {
      forall i, c | 0 <= i < |data| && 0 <= c < m.channels ensures 0 <= data[i][c] <= 255 {
        NarrowIsNearest(m.data[i][c]);
      }
    }
    NewMat(m.rows, m.cols, CV_8U, m.channels, data)
  }

  /** convertTo(CV_16UC(cn), 255.0) of an 8-bit Mat, into a new Mat. */
  function ConvertTo16U(m: Mat): (r: Mat)
    requires Valid(m) && m.depth == CV_8U
    ensures Valid(r) && r.depth == CV_16U
    ensures r.rows == m.rows && r.cols == m.cols && r.channels == m.channels
    ensures |r.data| == |m.data| && forall i :: 0 <= i < |m.data| ==> r.data[i] == WidenPixel(m.data[i])
  {
    var data := seq(|m.data|, i requires 0 <= i < |m.data| => WidenPixel(m.data[i]));
    assert forall i :: 0 <= i < |data| ==> SamplesFit(data[i], m.channels, CV_16U) by {
      forall i | 0 <= i < |data| ensures SamplesFit(data[i], m.channels, CV_16U) {
        NarrowWidenPixel(m.data[i]);
      }
    }
    NewMat(m.rows, m.cols, CV_16U, m.channels, data)
  }
  // ---------------------------------------------------------------------
  // cv::Mat::convertTo from 8-bit samples to CV_32F

  /** A CV_32F Mat.  Its samples are exact reals: the model does not round
   *  them to single precision. */
  datatype FloatMat = FloatMat(rows: nat, cols: nat, channels: nat, step: nat, data: seq<seq<real>>)

  /** convertTo(CV_32F, 1 / 255.0) of one 8-bit pixel. */
  function ScalePixel(p: Pixel): (q: seq<real>)
    ensures |q| == |p| && forall c :: 0 <= c < |p| ==> q[c] == p[c] as real / 255.0
  {
    seq(|p|, c requires 0 <= c < |p| => p[c] as real / 255.0)
  }

  /** Every sample lies in [0, 1]. */
  predicate UnitSamples(q: seq<real>)
  {
    forall c :: 0 <= c < |q| ==> 0.0 <= q[c] <= 1.0
  }

  lemma {:induction false} ScalePixelBounds(p: Pixel)
    requires SamplesFit(p, |p|, CV_8U)
    ensures UnitSamples(ScalePixel(p))
  {
    forall c | 0 <= c < |p| ensures 0.0 <= ScalePixel(p)[c] <= 1.0 {
      assert 0 <= p[c] <= 255;
      assert p[c] as real <= 255.0;
    }
  }

  /** convertTo(CV_32FC(cn), 1 / 255.0) of an 8-bit Mat, into a new Mat:
   *  every sample is scaled into [0, 1], and 255 becomes exactly 1. */
  function ConvertTo32F(m: Mat): (r: FloatMat)
    requires Valid(m) && m.depth == CV_8U
    ensures r.rows == m.rows && r.cols == m.cols && r.channels == m.channels
    ensures r.step == ContinuousStep(m.cols, m.channels, CV_32F)
    ensures |r.data| == |m.data| && forall i :: 0 <= i < |m.data| ==> r.data[i] == ScalePixel(m.data[i])
    ensures forall i :: 0 <= i < |r.data| ==> |r.data[i]| == r.channels && UnitSamples(r.data[i])
  {
    var data := seq(|m.data|, i requires 0 <= i < |m.data| => ScalePixel(m.data[i]));
    assert forall i :: 0 <= i < |data| ==> |data[i]| == m.channels && UnitSamples(data[i]) by {
      forall i | 0 <= i < |data| ensures |data[i]| == m.channels && UnitSamples(data[i]) {
        assert SamplesFit(m.data[i], m.channels, CV_8U);
        ScalePixelBounds(m.data[i]);
      }
    }
    FloatMat(m.rows, m.cols, m.channels, ContinuousStep(m.cols, m.channels, CV_32F), data)
  }
}
