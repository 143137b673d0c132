/** QImage -> cv::Mat: QImageToMat_Shared, which wraps a QImage of one of
 *  the ten direct formats in a Mat over its own bytes and reports the
 *  channel order of those bytes, and QImageToMat, which normalises the
 *  format, converts the view to the requested channel count and order and
 *  scales it to the requested depth, returning a Mat of its own.
 */
module ConvertToMat {

  import opened Wrappers
  import opened MatColorOrders
  import opened QtImages
  import opened CvMats
  import opened PixelColors
  import opened ConvertFormats
  import opened ConvertKernels
  import opened ConvertToQImage

  /** The MatColorOrder variable that QImageToMat_Shared writes through its
   *  `ptr_order` argument. */
  class OrderSlot {
    var value: MatColorOrder

    constructor (initial: MatColorOrder)
      ensures value == initial
    {
      value := initial;
    }
  }

  /** QImageToMat_Shared: a null image or a format outside the ten direct
   *  ones gives an empty Mat and leaves the order alone; otherwise the Mat
   *  has the image's size, stride and bytes, one channel per byte of a
   *  pixel, and for a 3- or 4-channel format the order slot, if there is
   *  one, receives the order the bytes are laid out in. */
  method QImageToMatShared(img: QImage, e: ByteOrder, slot: OrderSlot?) returns (mat: Mat)
    requires ValidImage(img)
    modifies slot
    ensures img.NullImage? || !IsDirectFormat(img.format) ==> mat == EmptyMat
    ensures img.Image? && IsDirectFormat(img.format) ==>
              Valid(mat) && !Empty(mat) &&
              mat == Mat(img.height, img.width, CV_8U, DirectChannels(img.format), img.bytesPerLine, img.pixels)
    ensures slot != null ==>
              slot.value == if img.Image? && IsDirectFormat(img.format) && !IsOneChannelFormat(img.format)
                            then SharedViewOrder(img.format, e).value
                            else old(slot.value)
  {
    if img.NullImage? {
      return EmptyMat;
    }
    var f := img.format;
    if f == Format_Indexed8 {
    } else if f == Format_RGB888 {
      if slot != null { slot.value := MCO_RGB; }
    } else if IsPackedFormat(f) {
      if slot != null { slot.value := ColorOrderOfRGB32Format(e); }
    } else if IsRgbaByteFormat(f) {
      if slot != null { slot.value := MCO_RGBA; }
    } else if f == Format_Alpha8 || f == Format_Grayscale8 {
    } else {
      return EmptyMat;
    }
    mat := Mat(img.height, img.width, CV_8U, BitsPerPixel(f) / 8, img.bytesPerLine, img.pixels);
    SharedMatValid(img);
  }

  /** The Mat over a valid image of a direct format is a valid, non-empty
   *  8-bit Mat: every pixel is samples that fit a byte and a row fits in
   *  the image's stride. */
  lemma {:induction false} SharedMatValid(img: QImage)
    requires ValidImage(img) && img.Image? && IsDirectFormat(img.format)
    ensures var m := Mat(img.height, img.width, CV_8U, DirectChannels(img.format), img.bytesPerLine, img.pixels);
            Valid(m) && !Empty(m)
  {
    var cn := DirectChannels(img.format);
    forall i | 0 <= i < |img.pixels|
      ensures SamplesFit(img.pixels[i], cn, CV_8U)
    {
      assert ByteFits(img.pixels[i], cn);
    }
  }

  /** The order QImageToMat's `src_order` holds for a view of format f.
   *  For the one-channel formats the source leaves it unset and never
   *  reads it; the model starts it at MCO_BGR. */
  function ViewOrder(f: Format, e: ByteOrder): MatColorOrder
    requires IsDirectFormat(f)
  {
    match SharedViewOrder(f, e)
    case Some(o) => o
    case None => MCO_BGR
  }

  // ---------------------------------------------------------------------
  // The channel stage, defined on colours

  /** The colour of a pixel of a shared view: a grey for one channel, R, G,
   *  B for three (the only 3-channel view is RGB888), the 4-channel layout
   *  `o` for four.  A view without an alpha channel is opaque. */
  function ColorOf(p: Pixel, cn: nat, o: MatColorOrder): Rgba
    requires |p| == cn && (cn == 1 || cn == 3 || cn == 4)
  {
    if cn == 1 then Rgba(p[0], p[0], p[0], 255)
    else if cn == 3 then Rgba(p[0], p[1], p[2], 255)
    else Decode4(p, o)
  }

  /** The 3-channel pixel holding colour c: B, G, R for MCO_BGR and R, G, B
   *  for the other orders. */
  function Encode3(c: Rgba, o: MatColorOrder): (p: Pixel)
    ensures |p| == 3
  {
    if o == MCO_BGR then [c.b, c.g, c.r] else [c.r, c.g, c.b]
  }

  /** The opaque colour a 3-channel pixel holds in layout o. */
  function Decode3(p: Pixel, o: MatColorOrder): Rgba
    requires |p| == 3
  {
    if o == MCO_BGR then Rgba(p[2], p[1], p[0], 255) else Rgba(p[0], p[1], p[2], 255)
  }

  /** The 3-channel layout QImageToMat produces from a view with `cn`
   *  channels for the required order `o`.  From the RGB888 view it swaps
   *  whenever `o` is not MCO_RGB, so MCO_ARGB gives B, G, R there; from the
   *  4-channel views MCO_ARGB gives R, G, B. */
  function ThreeChannelOrder(cn: nat, o: MatColorOrder): MatColorOrder
  {
    if cn == 3 && o == MCO_ARGB then MCO_BGR else o
  }

  /** Whether the channel stage takes the alpha of a 4-channel target from
   *  the alpha plane: an MCO_ARGB request from a view without alpha. */
  predicate UsesAlphaPlane(cn: nat, targetCn: nat, req: MatColorOrder)
  {
    targetCn == 4 && cn != 4 && req == MCO_ARGB
  }

  /** What QImageToMat's channel stage makes of one pixel with `cn`
   *  channels in order `srcOrder`, for `targetCn` channels in order `req`:
   *  one channel keeps a grey and takes the luma of a colour, three hold
   *  the colour without its alpha, four hold the colour with its alpha,
   *  which for a view without one is opaque, except on the alpha-plane
   *  path, where it is the plane's sample `alpha`. */
  function ChannelTarget(p: Pixel, cn: nat, srcOrder: MatColorOrder, targetCn: nat, req: MatColorOrder,
                         alpha: int, luma: Luma): (q: Pixel)
    requires |p| == cn && (cn == 1 || cn == 3 || cn == 4)
    requires targetCn == 1 || targetCn == 3 || targetCn == 4
    ensures |q| == targetCn
  {
    var c := ColorOf(p, cn, srcOrder);
    if targetCn == 1 then (if cn == 1 then p else [luma(c.r, c.g, c.b)])
    else if targetCn == 3 then Encode3(c, ThreeChannelOrder(cn, req))
    else Encode4(if UsesAlphaPlane(cn, targetCn, req) then c.(a := alpha) else c, req)
  }

  /** The stage loses only what the target cannot hold: four channels read
   *  back in the required order give the colour (with the plane's alpha
   *  on the alpha-plane path), three give it opaque, and one gives its
   *  luma. */
  lemma {:induction false} ChannelTargetKeepsColor(p: Pixel, cn: nat, srcOrder: MatColorOrder, targetCn: nat,
                                                   req: MatColorOrder, alpha: int, luma: Luma)
    requires |p| == cn && (cn == 1 || cn == 3 || cn == 4)
    requires targetCn == 1 || targetCn == 3 || targetCn == 4
    ensures var q := ChannelTarget(p, cn, srcOrder, targetCn, req, alpha, luma);
            var c := ColorOf(p, cn, srcOrder);
            (targetCn == 4 && !UsesAlphaPlane(cn, targetCn, req) ==> Decode4(q, req) == c) &&
            (UsesAlphaPlane(cn, targetCn, req) ==> Decode4(q, req) == c.(a := alpha)) &&
            (targetCn == 3 ==> Decode3(q, ThreeChannelOrder(cn, req)) == c.(a := 255)) &&
            (targetCn == 1 && cn == 1 ==> q == p) &&
            (targetCn == 1 && cn != 1 ==> q == [luma(c.r, c.g, c.b)])
  {
  }

  /** With an opaque alpha plane, the corrected one, every 4-channel target
   *  holds exactly the view's colour, whatever the path. */
  lemma {:induction false} OpaquePlaneKeepsColor(p: Pixel, cn: nat, srcOrder: MatColorOrder, req: MatColorOrder,
                                                 d: Depth, luma: Luma)
    requires |p| == cn && (cn == 1 || cn == 3 || cn == 4)
    ensures Decode4(ChannelTarget(p, cn, srcOrder, 4, req, AlphaPlane(d), luma), req) == ColorOf(p, cn, srcOrder)
  {
    var c := ColorOf(p, cn, srcOrder);
    assert cn != 4 ==> c.(a := AlphaPlane(d)) == c;
  }

  /** When the view already has the requested layout the stage changes
   *  nothing. */
  lemma {:induction false} ChannelTargetIdentity(p: Pixel, cn: nat, srcOrder: MatColorOrder, req: MatColorOrder,
                                                 alpha: int, luma: Luma)
    requires |p| == cn && (cn == 1 || cn == 3 || cn == 4)
    requires cn == 1 || (cn == 3 && req == MCO_RGB) || (cn == 4 && req == srcOrder)
    ensures ChannelTarget(p, cn, srcOrder, cn, req, alpha, luma) == p
  {
    if cn == 4 {
      EncodeDecode(p, srcOrder);
    }
  }

  /** The stage keeps 8-bit samples 8-bit. */
  lemma {:induction false} ChannelTargetFits(p: Pixel, cn: nat, srcOrder: MatColorOrder, targetCn: nat,
                                             req: MatColorOrder, alpha: int, luma: Luma)
    requires (cn == 1 || cn == 3 || cn == 4) && SamplesFit(p, cn, CV_8U) && LumaFits(luma) && 0 <= alpha < 256
    requires targetCn == 1 || targetCn == 3 || targetCn == 4
    ensures SamplesFit(ChannelTarget(p, cn, srcOrder, targetCn, req, alpha, luma), targetCn, CV_8U)
  {
    var c := ColorOf(p, cn, srcOrder);
    assert 0 <= c.r < 256 && 0 <= c.g < 256 && 0 <= c.b < 256 && 0 <= c.a < 256;
  }

  // ---------------------------------------------------------------------
  // The alpha plane

  /** max_alpha: the full opacity of the target depth, as a float. */
  function MaxAlpha(d: Depth): real
  {
    if d == CV_8U then 255.0 else if d == CV_16U then 65535.0 else 1.0
  }

  /** saturate_cast<uchar> of a float: rounded, then clamped to [0, 255].
   *  The values it meets here are whole numbers, so the rounding of ties
   *  does not arise. */
  function Saturate8(x: real): (v: int)
    ensures 0 <= v < 256
  {
    if x >= 255.0 then 255 else if x <= 0.0 then 0 else (x + 0.5).Floor
  }

  /** The alpha sample the source writes into its alpha plane.  The plane
   *  has the 8-bit type of the shared view, so cv::Scalar(max_alpha) is
   *  saturated: 255 for 8U and 16U targets, 1 for a CV_32F target. */
  function AlphaPlaneAsWritten(d: Depth): (v: int)
    ensures 0 <= v < 256
  {
    Saturate8(MaxAlpha(d))
  }

  /** The alpha sample the plane evidently should hold: the 8-bit opacity
   *  that cvtColor adds, which the depth step then scales like every other
   *  sample. */
  function AlphaPlane(d: Depth): (v: int)
    ensures v == MaxSample(CV_8U)
  {
    255
  }

  /** As written, the alpha plane is opaque for the integer depths. */
  lemma {:induction false} AlphaPlaneAsWrittenOnIntegerDepths(d: Depth)
    requires d != CV_32F
    ensures AlphaPlaneAsWritten(d) == AlphaPlane(d)
  {
  }

  /** As written, a CV_32F target gets alpha 1 / 255 on the MCO_ARGB paths
   *  from a 1- or 3-channel view, where cvtColor's paths (MCO_RGBA) give
   *  the opaque 1.0 for the same grey pixel. */
  lemma {:induction false} AlphaPlaneAsWrittenFloatMismatch()
    ensures AlphaPlaneAsWritten(CV_32F) == 1
    ensures ScalePixel(Encode4(ColorOf([7], 1, MCO_BGR).(a := AlphaPlaneAsWritten(CV_32F)), MCO_ARGB))[0] == 1.0 / 255.0
    ensures ScalePixel(CvtPixel([7], CV_GRAY2RGBA, CV_8U))[3] == 1.0
  {
    assert (1.0 + 0.5).Floor == 1;
  }

  /** With the corrected plane the alpha of every path is scaled from the
   *  same 8-bit opacity, so at every depth it is what cvtColor gives. */
  lemma {:induction false} AlphaPlaneMatchesCvtColor(d: Depth, g: int)
    ensures Encode4(ColorOf([g], 1, MCO_BGR).(a := AlphaPlane(d)), MCO_ARGB)[0] == CvtPixel([g], CV_GRAY2RGBA, CV_8U)[3]
    ensures ScalePixel(Encode4(ColorOf([g], 1, MCO_BGR).(a := AlphaPlane(d)), MCO_ARGB))[0] == 1.0
  {
  }

  // ---------------------------------------------------------------------
  // The channel stage, as the source performs it

  /** mat_adjusted_channels after the switch: left empty, filled in, or
   *  not reached because cv::cvtColor raised an exception. */
  datatype Stage = Unchanged | Adjusted(mat: Mat) | CvtColorFailed

  /** A view the channel stage accepts. */
  predicate StageInput(shared: Mat, srcOrder: MatColorOrder)
  {
    Valid(shared) && shared.depth == CV_8U &&
    (shared.channels == 1 || shared.channels == 3 || shared.channels == 4) &&
    (shared.channels == 3 ==> srcOrder == MCO_RGB)
  }

  /** A newly allocated 8-bit Mat of the view's size with `cn` channels. */
  predicate FreshOfShape(m: Mat, shared: Mat, cn: nat)
  {
    Valid(m) && m.depth == CV_8U && m.channels == cn &&
    m.rows == shared.rows && m.cols == shared.cols && |m.data| == |shared.data| &&
    m.step == ContinuousStep(shared.cols, cn, CV_8U)
  }

  /** from_to = { 1, 0, 2, 1, 3, 2 }: ARGB -> RGB. */
  const ARGB_TO_RGB: seq<ChannelPair> := [ChannelPair(1, 0), ChannelPair(2, 1), ChannelPair(3, 2)]

  /** from_to = { 1, 2, 2, 1, 3, 0 }: ARGB -> BGR. */
  const ARGB_TO_BGR: seq<ChannelPair> := [ChannelPair(1, 2), ChannelPair(2, 1), ChannelPair(3, 0)]

  /** from_to = { 0, 0, 1, 1, 1, 2, 1, 3 }: (alpha, grey) -> ARGB. */
  const GREY_TO_ARGB: seq<ChannelPair> :=
    [ChannelPair(0, 0), ChannelPair(1, 1), ChannelPair(1, 2), ChannelPair(1, 3)]

  /** from_to = { 0, 0, 1, 1, 2, 2, 3, 3 }: (alpha, R, G, B) -> ARGB. */
  const RGB_TO_ARGB: seq<ChannelPair> :=
    [ChannelPair(0, 0), ChannelPair(1, 1), ChannelPair(2, 2), ChannelPair(3, 3)]

  lemma {:induction false} ArgbToRgbTable(p: Pixel)
    requires |p| == 4
    ensures TableFits(ARGB_TO_RGB, 4, 3) && Covers(ARGB_TO_RGB, 3)
    ensures MixPixel(p, ARGB_TO_RGB, 3) == [p[1], p[2], p[3]]
  {
    Unfold3(ARGB_TO_RGB);
    var q := MixPixel(p, ARGB_TO_RGB, 3);
    assert q[0] == p[1] && q[1] == p[2] && q[2] == p[3];
  }

  lemma {:induction false} ArgbToBgrTable(p: Pixel)
    requires |p| == 4
    ensures TableFits(ARGB_TO_BGR, 4, 3) && Covers(ARGB_TO_BGR, 3)
    ensures MixPixel(p, ARGB_TO_BGR, 3) == [p[3], p[2], p[1]]
  {
    Unfold3(ARGB_TO_BGR);
    var q := MixPixel(p, ARGB_TO_BGR, 3);
    assert q[0] == p[3] && q[1] == p[2] && q[2] == p[1];
  }

  lemma {:induction false} GreyToArgbTable(p: Pixel)
    requires |p| == 2
    ensures TableFits(GREY_TO_ARGB, 2, 4) && Covers(GREY_TO_ARGB, 4)
    ensures MixPixel(p, GREY_TO_ARGB, 4) == [p[0], p[1], p[1], p[1]]
  {
    Unfold4(GREY_TO_ARGB);
    assert TableFits(GREY_TO_ARGB, 2, 4) by {
      forall k | 0 <= k < 4 ensures GREY_TO_ARGB[k].src < 2 && GREY_TO_ARGB[k].dst < 4 {
        assert k == 0 || k == 1 || k == 2 || k == 3;
      }
    }
    var q := MixPixel(p, GREY_TO_ARGB, 4);
    assert q[0] == p[0] && q[1] == p[1] && q[2] == p[1] && q[3] == p[1];
  }

  lemma {:induction false} RgbToArgbTable(p: Pixel)
    requires |p| == 4
    ensures TableFits(RGB_TO_ARGB, 4, 4) && Covers(RGB_TO_ARGB, 4)
    ensures MixPixel(p, RGB_TO_ARGB, 4) == p
  {
    Unfold4(RGB_TO_ARGB);
    FourPairTable(RGB_TO_ARGB, p, 0, 1, 2, 3);
  }

  /** case 1: a grey view is left as it is; a colour view becomes the
   *  luma of each pixel, an ARGB view after ARGBToBGRA. */
  method ToOneChannel(shared: Mat, srcOrder: MatColorOrder, luma: Luma) returns (s: Stage)
    requires StageInput(shared, srcOrder) && LumaFits(luma)
    ensures s.Unchanged? <==> shared.channels == 1
    ensures !s.CvtColorFailed?
    ensures s.Adjusted? ==>
              FreshOfShape(s.mat, shared, 1) &&
              forall i :: 0 <= i < |shared.data| ==>
                var c := ColorOf(shared.data[i], shared.channels, srcOrder);
                s.mat.data[i] == [luma(c.r, c.g, c.b)]
  {
    if 3 == shared.channels {
      s := Adjusted(CvtGrey(shared, CV_RGB2GRAY, luma));
    } else if 4 == shared.channels {
      if MCO_BGRA == srcOrder {
        s := Adjusted(CvtGrey(shared, CV_BGRA2GRAY, luma));
      } else if MCO_RGBA == srcOrder {
        s := Adjusted(CvtGrey(shared, CV_RGBA2GRAY, luma));
      } else {
        var bgra := ARGBToBGRA(shared);
        s := Adjusted(CvtGrey(bgra, CV_BGRA2GRAY, luma));
      }
    } else {
      s := Unchanged;
    }
  }

  /** case 3: a grey view is repeated into three channels, the RGB888 view
   *  is swapped unless MCO_RGB is required, and a 4-channel view loses its
   *  alpha and is laid out B, G, R for MCO_BGR and R, G, B otherwise. */
  method ToThreeChannels(shared: Mat, srcOrder: MatColorOrder, req: MatColorOrder) returns (s: Stage)
    requires StageInput(shared, srcOrder)
    ensures s.Unchanged? <==> shared.channels == 3 && req == srcOrder
    ensures !s.CvtColorFailed?
    ensures s.Adjusted? ==>
              FreshOfShape(s.mat, shared, 3) &&
              forall i :: 0 <= i < |shared.data| ==>
                s.mat.data[i] == Encode3(ColorOf(shared.data[i], shared.channels, srcOrder), ThreeChannelOrder(shared.channels, req))
  {
    if 1 == shared.channels {
      s := Adjusted(CvtColor(shared, if req == MCO_BGR then CV_GRAY2BGR else CV_GRAY2RGB));
    } else if 3 == shared.channels {
      if req != srcOrder {
        s := Adjusted(CvtColor(shared, CV_RGB2BGR));
      } else {
        s := Unchanged;
      }
    } else {
      if MCO_ARGB == srcOrder {
        var ft := if MCO_BGR == req then ARGB_TO_BGR else ARGB_TO_RGB;
        ArgbToRgbTable(seq(4, _ => 0));
        ArgbToBgrTable(seq(4, _ => 0));
        var data := MixChannels(shared.data, 4, ft, 3);
        forall i | 0 <= i < |shared.data|
          ensures data[i] == Encode3(ColorOf(shared.data[i], 4, srcOrder), ThreeChannelOrder(4, req))
        {
          ArgbToRgbTable(shared.data[i]);
          ArgbToBgrTable(shared.data[i]);
        }
        MixKeepsRange(shared.data, data, 3, CV_8U);
        s := Adjusted(NewMat(shared.rows, shared.cols, CV_8U, 3, data));
      } else if MCO_BGRA == srcOrder {
        s := Adjusted(CvtColor(shared, if MCO_BGR == req then CV_BGRA2BGR else CV_BGRA2RGB));
      } else {
        s := Adjusted(CvtColor(shared, if MCO_BGR == req then CV_RGBA2BGR else CV_RGBA2RGB));
      }
    }
  }

  /** The pixels of (alpha plane, view) taken together, as mixChannels
   *  numbers their channels, stay 8-bit. */
  lemma {:induction false} AlphaPlanesFit(shared: Mat, alpha: int)
    requires Valid(shared) && shared.depth == CV_8U && 0 <= alpha < 256
    ensures var planes := Planes(ConstantPlane(|shared.data|, alpha), shared.data);
            forall i :: 0 <= i < |planes| ==>
              |planes[i]| == shared.channels + 1 && SamplesFit(planes[i], |planes[i]|, CV_8U)
  {
    var planes := Planes(ConstantPlane(|shared.data|, alpha), shared.data);
    forall i | 0 <= i < |planes|
      ensures |planes[i]| == shared.channels + 1 && SamplesFit(planes[i], |planes[i]|, CV_8U)
    {
      assert planes[i] == [alpha] + shared.data[i];
      assert SamplesFit(shared.data[i], shared.channels, CV_8U);
    }
  }

  /** One pixel of PrependAlpha: mixing (alpha, p) through the table for
   *  the view's channel count gives p's colour with that alpha, in ARGB. */
  lemma {:induction false} PrependAlphaPixel(p: Pixel, cn: nat, srcOrder: MatColorOrder, alpha: int)
    requires |p| == cn && (cn == 1 || cn == 3)
    ensures var ft := if cn == 1 then GREY_TO_ARGB else RGB_TO_ARGB; TableFits(ft, cn + 1, 4) && Covers(ft, 4)
    ensures MixPixel([alpha] + p, if cn == 1 then GREY_TO_ARGB else RGB_TO_ARGB, 4)
            == Encode4(ColorOf(p, cn, srcOrder).(a := alpha), MCO_ARGB)
  {
    var q := [alpha] + p;
    if cn == 1 {
      GreyToArgbTable(q);
      assert q[0] == alpha && q[1] == p[0];
      assert ColorOf(p, 1, srcOrder).(a := alpha) == Rgba(p[0], p[0], p[0], alpha);
    } else {
      RgbToArgbTable(q);
      assert q == [alpha, p[0], p[1], p[2]];
      assert ColorOf(p, 3, srcOrder).(a := alpha) == Rgba(p[0], p[1], p[2], alpha);
    }
  }

  /** The mixChannels step of case 4 for a 1- or 3-channel view and an
   *  MCO_ARGB request: the alpha plane's sample goes first, the view's
   *  colour after it. */
  method PrependAlpha(shared: Mat, srcOrder: MatColorOrder, alpha: int) returns (m: Mat)
    requires StageInput(shared, srcOrder) && (shared.channels == 1 || shared.channels == 3)
    requires 0 <= alpha < 256
    ensures FreshOfShape(m, shared, 4)
    ensures forall i :: 0 <= i < |shared.data| ==>
              m.data[i] == Encode4(ColorOf(shared.data[i], shared.channels, srcOrder).(a := alpha), MCO_ARGB)
  {
    var planes := Planes(ConstantPlane(|shared.data|, alpha), shared.data);
    AlphaPlanesFit(shared, alpha);
    var ft := if 1 == shared.channels then GREY_TO_ARGB else RGB_TO_ARGB;
    GreyToArgbTable(seq(2, _ => 0));
    RgbToArgbTable(seq(4, _ => 0));
    var data := MixChannels(planes, shared.channels + 1, ft, 4);
    forall i | 0 <= i < |shared.data|
      ensures data[i] == Encode4(ColorOf(shared.data[i], shared.channels, srcOrder).(a := alpha), MCO_ARGB)
    {
      assert planes[i] == [alpha] + shared.data[i];
      PrependAlphaPixel(shared.data[i], shared.channels, srcOrder, alpha);
    }
    MixKeepsRange(planes, data, 4, CV_8U);
    m := NewMat(shared.rows, shared.cols, CV_8U, 4, data);
  }

  /** case 4: an MCO_ARGB request from a 1- or 3-channel view puts the
   *  alpha plane's sample first; the other requests from those views go
   *  through cvtColor, which adds an opaque alpha, except that CV_RGB2BGRA
   *  on a grey view fails; a 4-channel view is reordered if its order
   *  differs. */
  method ToFourChannels(shared: Mat, srcOrder: MatColorOrder, req: MatColorOrder, alpha: int) returns (s: Stage)
    requires StageInput(shared, srcOrder) && 0 <= alpha < 256
    ensures s.Unchanged? <==> shared.channels == 4 && req == srcOrder
    ensures s.CvtColorFailed? <==> shared.channels == 1 && req == MCO_BGRA
    ensures s.Adjusted? ==> FreshOfShape(s.mat, shared, 4)
    ensures s.Adjusted? && shared.channels != 4 && req == MCO_ARGB ==>
              forall i :: 0 <= i < |shared.data| ==>
                s.mat.data[i] == Encode4(ColorOf(shared.data[i], shared.channels, srcOrder).(a := alpha), MCO_ARGB)
    ensures s.Adjusted? && !(shared.channels != 4 && req == MCO_ARGB) ==>
              forall i :: 0 <= i < |shared.data| ==>
                s.mat.data[i] == Encode4(ColorOf(shared.data[i], shared.channels, srcOrder), req)
  {
    if 1 == shared.channels || 3 == shared.channels {
      if MCO_ARGB == req {
        var m := PrependAlpha(shared, srcOrder, alpha);
        s := Adjusted(m);
      } else if MCO_RGBA == req {
        s := Adjusted(CvtColor(shared, if 1 == shared.channels then CV_GRAY2RGBA else CV_RGB2RGBA));
      } else if 3 == shared.channels {
        s := Adjusted(CvtColor(shared, CV_RGB2BGRA));
      } else {
        // cv::cvtColor(.., CV_RGB2BGRA) accepts only 3- and 4-channel input.
        s := CvtColorFailed;
      }
    } else {
      if srcOrder != req {
        var r := AdjustChannelsOrder(shared, srcOrder, req);
        forall i | 0 <= i < |shared.data|
          ensures r.data[i] == Encode4(ColorOf(shared.data[i], 4, srcOrder), req)
        {
          Decode4Injective(r.data[i], Encode4(Decode4(shared.data[i], srcOrder), req), req);
        }
        s := Adjusted(r);
      } else {
        s := Unchanged;
      }
    }
  }

  /** The switch on the target channel count, with `alpha` the sample of
   *  the alpha plane. */
  method AdjustChannels(shared: Mat, srcOrder: MatColorOrder, targetCn: nat, req: MatColorOrder,
                        alpha: int, luma: Luma) returns (s: Stage)
    requires StageInput(shared, srcOrder) && LumaFits(luma) && 0 <= alpha < 256
    requires targetCn == 1 || targetCn == 3 || targetCn == 4
    ensures s.Unchanged? ==> targetCn == shared.channels
    ensures s.CvtColorFailed? <==> shared.channels == 1 && targetCn == 4 && req == MCO_BGRA
    ensures s.Adjusted? ==>
              FreshOfShape(s.mat, shared, targetCn) &&
              forall i :: 0 <= i < |shared.data| ==>
                s.mat.data[i] == ChannelTarget(shared.data[i], shared.channels, srcOrder, targetCn, req, alpha, luma)
    ensures s.Unchanged? ==>
              forall i :: 0 <= i < |shared.data| ==>
                shared.data[i] == ChannelTarget(shared.data[i], shared.channels, srcOrder, targetCn, req, alpha, luma)
  {
    if targetCn == 1 {
      s := ToOneChannel(shared, srcOrder, luma);
    } else if targetCn == 3 {
      s := ToThreeChannels(shared, srcOrder, req);
    } else {
      s := ToFourChannels(shared, srcOrder, req, alpha);
    }
    if s.Unchanged? {
      forall i | 0 <= i < |shared.data|
        ensures shared.data[i] == ChannelTarget(shared.data[i], shared.channels, srcOrder, targetCn, req, alpha, luma)
      {
        assert SamplesFit(shared.data[i], shared.channels, CV_8U);
        ChannelTargetIdentity(shared.data[i], shared.channels, srcOrder, req, alpha, luma);
      }
    }
  }

  // ---------------------------------------------------------------------
  // QImageToMat

  /** A required_mat_type that QImageToMat accepts: depth CV_8U, CV_16U or
   *  CV_32F, and 1, 3 or 4 channels or CV_CN_MAX for "as the image". */
  predicate RequestedType(t: int)
  {
    t >= 0 &&
    (MatDepth(t) == 0 || MatDepth(t) == 2 || MatDepth(t) == 5) &&
    (MatCn(t) == CV_CN_MAX || MatCn(t) == 1 || MatCn(t) == 3 || MatCn(t) == 4)
  }

  function TargetDepth(t: int): Depth
    requires RequestedType(t)
  {
    if MatDepth(t) == 0 then CV_8U else if MatDepth(t) == 2 then CV_16U else CV_32F
  }

  /** The image QImageToMat takes its view of: the image itself when its
   *  format is one of the ten direct ones, otherwise Qt's conversion to
   *  the closest of them. */
  function Normalised(img: QImage, conv: QtConversion): (n: QImage)
    ensures img.NullImage? <==> n.NullImage?
    ensures n.Image? ==> IsDirectFormat(n.format) && n.width == img.width && n.height == img.height
    ensures n.Image? && IsDirectFormat(img.format) ==> n == img
  {
    if img.NullImage? then img
    else
      var f := FindClosestFormat(img.format);
      if img.format == f then img else ConvertToFormat(img, f, conv)
  }

  /** The channel count QImageToMat produces for an image whose view has
   *  `viewCn` channels. */
  function TargetChannels(t: int, viewCn: nat): nat
    requires RequestedType(t)
  {
    if MatCn(t) == CV_CN_MAX then viewCn else MatCn(t)
  }

  /** A type made from a depth and one, three or four channels is one
   *  QImageToMat accepts, and names that depth and channel count. */
  lemma {:induction false} MadeTypeRequested(d: Depth, cn: nat, viewCn: nat)
    requires cn == 1 || cn == 3 || cn == 4
    ensures RequestedType(MakeType(d, cn))
    ensures TargetDepth(MakeType(d, cn)) == d && TargetChannels(MakeType(d, cn), viewCn) == cn
  {
    TypeRoundTrip(d, cn);
  }

  /** What QImageToMat returns: a Mat of an integer depth, a CV_32F Mat, or
   *  the exception cv::cvtColor raises. */
  datatype Outcome = Converted(mat: Mat) | ConvertedFloat(fmat: FloatMat) | CvtColorError

  /** The depth step: an 8-bit target takes the adjusted Mat, or a clone of
   *  the view; the other depths scale it by 255 or by 1 / 255. */
  method AdjustDepth(shared: Mat, s: Stage, d: Depth) returns (r: Outcome)
    requires Valid(shared) && shared.depth == CV_8U && !s.CvtColorFailed?
    requires s.Adjusted? ==> Valid(s.mat) && s.mat.depth == CV_8U && s.mat.step == ContinuousStep(s.mat.cols, s.mat.channels, CV_8U)
    ensures var m := if s.Adjusted? then s.mat else shared;
            (d == CV_8U ==> r == Converted(Clone(m))) &&
            (d == CV_16U ==> r == Converted(ConvertTo16U(m))) &&
            (d == CV_32F ==> r == ConvertedFloat(ConvertTo32F(m)))
  {
    if CV_8U == d {
      return if s.Adjusted? then Converted(s.mat) else Converted(Clone(shared));
    }
    var m := if s.Adjusted? then s.mat else shared;
    if d == CV_16U {
      r := Converted(ConvertTo16U(m));
    } else {
      r := ConvertedFloat(ConvertTo32F(m));
    }
  }

  /** What QImageToMat returns for an alpha-plane sample `alpha`: a null
   *  image gives an empty Mat.  Otherwise the one failure is a 4-channel
   *  MCO_BGRA request on a grey view, where cv::cvtColor raises; a CV_32F
   *  target gives a float Mat; and the result has the image's size, the
   *  requested depth and the requested channel count (the view's for
   *  CV_CN_MAX), in a buffer of its own, each pixel being ChannelTarget of
   *  the normalised image's pixel, scaled to the depth. */
  predicate IsConversion(qimage: QImage, requiredMatType: int, requiredOrder: MatColorOrder,
                         e: ByteOrder, conv: QtConversion, luma: Luma, alpha: int, r: Outcome)
    requires ValidImage(qimage) && ValidImage(Normalised(qimage, conv)) && RequestedType(requiredMatType)
  {
    if qimage.NullImage? then r == Converted(EmptyMat)
    else
      var n := Normalised(qimage, conv);
      var viewCn := DirectChannels(n.format);
      var cn := TargetChannels(requiredMatType, viewCn);
      var d := TargetDepth(requiredMatType);
      (r.CvtColorError? <==> viewCn == 1 && cn == 4 && requiredOrder == MCO_BGRA) &&
      (r.ConvertedFloat? <==> !r.CvtColorError? && d == CV_32F) &&
      (r.Converted? ==>
         Valid(r.mat) && r.mat.depth == d && r.mat.channels == cn &&
         r.mat.rows == qimage.height && r.mat.cols == qimage.width &&
         r.mat.step == ContinuousStep(qimage.width, cn, d) &&
         forall i :: 0 <= i < |n.pixels| ==>
           r.mat.data[i] == From8Bit(ChannelTarget(n.pixels[i], viewCn, ViewOrder(n.format, e), cn, requiredOrder, alpha, luma), d)) &&
      (r.ConvertedFloat? ==>
         r.fmat.channels == cn && r.fmat.rows == qimage.height && r.fmat.cols == qimage.width &&
         |r.fmat.data| == |n.pixels| &&
         forall i :: 0 <= i < |n.pixels| ==>
           r.fmat.data[i] == ScalePixel(ChannelTarget(n.pixels[i], viewCn, ViewOrder(n.format, e), cn, requiredOrder, alpha, luma)))
  }

  /** The body of QImageToMat, for a given alpha-plane sample. */
  method ConvertImage(qimage: QImage, requiredMatType: int, requiredOrder: MatColorOrder,
                      e: ByteOrder, conv: QtConversion, luma: Luma, alpha: int) returns (r: Outcome)
    requires ValidImage(qimage) && ValidImage(Normalised(qimage, conv))
    requires RequestedType(requiredMatType) && LumaFits(luma) && 0 <= alpha < 256
    ensures IsConversion(qimage, requiredMatType, requiredOrder, e, conv, luma, alpha, r)
  {
    if qimage.NullImage? {
      return Converted(EmptyMat);
    }
    var targetDepth := TargetDepth(requiredMatType);
    var converted := Normalised(qimage, conv);
    // src_order; the source leaves it unset for one-channel views
    var slot := new OrderSlot(MCO_BGR);
    var shared := QImageToMatShared(converted, e, slot);
    var srcOrder := slot.value;
    assert srcOrder == ViewOrder(converted.format, e);
    var targetChannels := TargetChannels(requiredMatType, shared.channels);
    var stage := AdjustChannels(shared, srcOrder, targetChannels, requiredOrder, alpha, luma);
    if stage.CvtColorFailed? {
      return CvtColorError;
    }
    r := AdjustDepth(shared, stage, targetDepth);
    StagedPixels(shared, srcOrder, targetChannels, requiredOrder, alpha, luma, stage, targetDepth, r);
  }

  /** The channel stage followed by the depth step: the result has the
   *  view's size, the target depth and channel count, and each pixel is
   *  ChannelTarget of the view's pixel, scaled to the depth. */
  lemma {:induction false} StagedPixels(shared: Mat, srcOrder: MatColorOrder, targetCn: nat, req: MatColorOrder,
                                        alpha: int, luma: Luma, stage: Stage, d: Depth, r: Outcome)
    requires StageInput(shared, srcOrder) && LumaFits(luma) && 0 <= alpha < 256
    requires targetCn == 1 || targetCn == 3 || targetCn == 4
    requires !stage.CvtColorFailed?
    requires stage.Unchanged? ==> targetCn == shared.channels
    requires stage.Adjusted? ==>
               FreshOfShape(stage.mat, shared, targetCn) &&
               forall i :: 0 <= i < |shared.data| ==>
                 stage.mat.data[i] == ChannelTarget(shared.data[i], shared.channels, srcOrder, targetCn, req, alpha, luma)
    requires stage.Unchanged? ==>
               forall i :: 0 <= i < |shared.data| ==>
                 shared.data[i] == ChannelTarget(shared.data[i], shared.channels, srcOrder, targetCn, req, alpha, luma)
    requires var m := if stage.Adjusted? then stage.mat else shared;
             (d == CV_8U ==> r == Converted(Clone(m))) &&
             (d == CV_16U ==> r == Converted(ConvertTo16U(m))) &&
             (d == CV_32F ==> r == ConvertedFloat(ConvertTo32F(m)))
    ensures !r.CvtColorError? && (r.ConvertedFloat? <==> d == CV_32F)
    ensures r.Converted? ==>
              Valid(r.mat) && r.mat.depth == d && r.mat.channels == targetCn &&
              r.mat.rows == shared.rows && r.mat.cols == shared.cols &&
              r.mat.step == ContinuousStep(shared.cols, targetCn, d) &&
              forall i :: 0 <= i < |shared.data| ==>
                r.mat.data[i] == From8Bit(ChannelTarget(shared.data[i], shared.channels, srcOrder, targetCn, req, alpha, luma), d)
    ensures r.ConvertedFloat? ==>
              r.fmat.channels == targetCn && r.fmat.rows == shared.rows && r.fmat.cols == shared.cols &&
              |r.fmat.data| == |shared.data| &&
              forall i :: 0 <= i < |shared.data| ==>
                r.fmat.data[i] == ScalePixel(ChannelTarget(shared.data[i], shared.channels, srcOrder, targetCn, req, alpha, luma))
  {
  }

  /** QImageToMat as written: the alpha plane holds max_alpha saturated to
   *  the view's 8-bit type. */
  method QImageToMat(qimage: QImage, requiredMatType: int, requiredOrder: MatColorOrder,
                     e: ByteOrder, conv: QtConversion, luma: Luma) returns (r: Outcome)
    requires ValidImage(qimage) && ValidImage(Normalised(qimage, conv))
    requires RequestedType(requiredMatType) && LumaFits(luma)
    ensures qimage.NullImage? ==> r == Converted(EmptyMat)
    ensures IsConversion(qimage, requiredMatType, requiredOrder, e, conv, luma,
                         AlphaPlaneAsWritten(TargetDepth(requiredMatType)), r)
  {
    r := ConvertImage(qimage, requiredMatType, requiredOrder, e, conv, luma,
                      AlphaPlaneAsWritten(TargetDepth(requiredMatType)));
  }

  /** QImageToMat with the alpha plane corrected to the 8-bit opacity: on
   *  every path a 4-channel result holds exactly the view's colour. */
  method QImageToMatCorrected(qimage: QImage, requiredMatType: int, requiredOrder: MatColorOrder,
                              e: ByteOrder, conv: QtConversion, luma: Luma) returns (r: Outcome)
    requires ValidImage(qimage) && ValidImage(Normalised(qimage, conv))
    requires RequestedType(requiredMatType) && LumaFits(luma)
    ensures qimage.NullImage? ==> r == Converted(EmptyMat)
    ensures IsConversion(qimage, requiredMatType, requiredOrder, e, conv, luma,
                         AlphaPlane(TargetDepth(requiredMatType)), r)
  {
    r := ConvertImage(qimage, requiredMatType, requiredOrder, e, conv, luma,
                      AlphaPlane(TargetDepth(requiredMatType)));
  }

  /** The one-pixel grey image of the alpha findings. */
  const GreyPixelImage: QImage := Image(1, 1, 4, Format_Grayscale8, [[7]], [])

  /** As written, the grey pixel 7 converted to CV_32FC4 in MCO_ARGB order
   *  gets alpha 1 / 255, and in MCO_RGBA order (through cvtColor) alpha 1. */
  method FloatAlphaAsWritten(e: ByteOrder, conv: QtConversion, luma: Luma)
    returns (argb: Outcome, rgba: Outcome)
    requires LumaFits(luma)
    ensures argb.ConvertedFloat? && |argb.fmat.data| == 1 && |argb.fmat.data[0]| == 4
    ensures argb.fmat.data[0][0] == 1.0 / 255.0
    ensures rgba.ConvertedFloat? && |rgba.fmat.data| == 1 && |rgba.fmat.data[0]| == 4
    ensures rgba.fmat.data[0][3] == 1.0
  {
    var img := GreyPixelImage;
    assert ByteFits(img.pixels[0], 1);
    MadeTypeRequested(CV_32F, 4, 1);
    var t := MakeType(CV_32F, 4);
    assert Normalised(img, conv) == img;
    argb := QImageToMat(img, t, MCO_ARGB, e, conv, luma);
    rgba := QImageToMat(img, t, MCO_RGBA, e, conv, luma);
    assert (1.0 + 0.5).Floor == 1;
  }

  /** Corrected, both orders give the grey pixel alpha 1. */
  method FloatAlphaCorrected(e: ByteOrder, conv: QtConversion, luma: Luma)
    returns (argb: Outcome, rgba: Outcome)
    requires LumaFits(luma)
    ensures argb.ConvertedFloat? && |argb.fmat.data| == 1 && |argb.fmat.data[0]| == 4
    ensures argb.fmat.data[0][0] == 1.0
    ensures rgba.ConvertedFloat? && |rgba.fmat.data| == 1 && |rgba.fmat.data[0]| == 4
    ensures rgba.fmat.data[0][3] == 1.0
  {
    var img := GreyPixelImage;
    assert ByteFits(img.pixels[0], 1);
    MadeTypeRequested(CV_32F, 4, 1);
    var t := MakeType(CV_32F, 4);
    assert Normalised(img, conv) == img;
    argb := QImageToMatCorrected(img, t, MCO_ARGB, e, conv, luma);
    rgba := QImageToMatCorrected(img, t, MCO_RGBA, e, conv, luma);
  }

  /** A Mat converted to a QImage with a hint that needs no Qt conversion
   *  (among them the default and the packed ARGB32 of a 4-channel Mat) and
   *  back with its own type and order comes back unchanged, except a
   *  3-channel Mat with order MCO_ARGB, whose red and blue are swapped on
   *  the way back (ThreeChannelArgbRoundTripSwaps). */
  method MatRoundTrip(m: Mat, order: MatColorOrder, hint: Format, e: ByteOrder, conv: QtConversion, luma: Luma)
    returns (back: Outcome)
    requires Valid(m) && m.depth == CV_8U && !Empty(m) && LumaFits(luma)
    requires m.channels == 1 || m.channels == 3 || m.channels == 4
    requires m.channels == 3 ==> order != MCO_ARGB
    requires !ConvertsToHint(m.channels, order, hint)
    ensures back == Converted(Clone(m))
  {
    var img := MatToQImage(m, e, conv, order, hint);
    MadeTypeRequested(CV_8U, m.channels, m.channels);
    back := QImageToMat(img, MakeType(CV_8U, m.channels), order, e, conv, luma);
    ConversionRestoresMat(m, order, img, e, conv, luma, back);
  }

  /** The case the round trip leaves out: a 3-channel Mat with order
   *  MCO_ARGB is viewed unswapped as RGB888, but converting back in order
   *  MCO_ARGB swaps red and blue, so (10, 20, 30) returns as (30, 20, 10). */
  method ThreeChannelArgbRoundTripSwaps(e: ByteOrder, conv: QtConversion, luma: Luma)
    returns (img: QImage, back: Outcome)
    requires LumaFits(luma)
    ensures img.Image? && img.format == Format_RGB888 && img.pixels == [[10, 20, 30]]
    ensures back.Converted? && back.mat.channels == 3 && back.mat.data == [[30, 20, 10]]
  {
    var m := Mat(1, 1, CV_8U, 3, 3, [[10, 20, 30]]);
    assert SamplesFit(m.data[0], 3, CV_8U);
    img := MatToQImage(m, e, conv, MCO_ARGB, Format_Invalid);
    MadeTypeRequested(CV_8U, 3, 3);
    assert Normalised(img, conv) == img;
    back := QImageToMat(img, MakeType(CV_8U, 3), MCO_ARGB, e, conv, luma);
  }

  /** The channel stage undoes MatToQImage's pixel work: converting an
   *  image that holds an 8-bit Mat's pixels back with the Mat's own type
   *  and order gives the Mat, for every order but MCO_ARGB on a 3-channel
   *  Mat, which the view leaves unswapped and the way back swaps. */
  lemma {:induction false} ConversionRestoresMat(m: Mat, order: MatColorOrder, img: QImage, e: ByteOrder,
                                                 conv: QtConversion, luma: Luma, back: Outcome)
    requires Valid(m) && m.depth == CV_8U && LumaFits(luma)
    requires m.channels == 1 || m.channels == 3 || m.channels == 4
    requires m.channels == 3 ==> order != MCO_ARGB
    requires ValidImage(img) && img.Image? && img.width == m.cols && img.height == m.rows
    requires IsDirectFormat(img.format) && DirectChannels(img.format) == m.channels
    requires HoldsMatPixels(m, order, img.format, e, img.pixels)
    requires RequestedType(MakeType(CV_8U, m.channels))
    requires TargetDepth(MakeType(CV_8U, m.channels)) == CV_8U
    requires TargetChannels(MakeType(CV_8U, m.channels), m.channels) == m.channels
    requires IsConversion(img, MakeType(CV_8U, m.channels), order, e, conv, luma, AlphaPlaneAsWritten(CV_8U), back)
    ensures back == Converted(Clone(m))
  {
    assert Normalised(img, conv) == img;
    var f := img.format;
    forall i | 0 <= i < |m.data|
      ensures ChannelTarget(img.pixels[i], m.channels, ViewOrder(f, e), m.channels, order, AlphaPlaneAsWritten(CV_8U), luma) == m.data[i]
    {
      assert SamplesFit(m.data[i], m.channels, CV_8U);
      if m.channels == 4 {
        EncodeDecode(m.data[i], order);
      }
    }
    assert back.mat.data == m.data;
  }

  /** An image of a direct format converted to a 16-bit Mat of its own
   *  channel count and order: every sample is scaled by 255 and nothing
   *  is moved. */
  method ImageTo16BitMat(img: QImage, e: ByteOrder, conv: QtConversion, luma: Luma) returns (m: Mat)
    requires ValidImage(img) && img.Image? && IsDirectFormat(img.format) && LumaFits(luma)
    ensures Valid(m) && m.depth == CV_16U && m.channels == DirectChannels(img.format) && !Empty(m)
    ensures m.rows == img.height && m.cols == img.width && |m.data| == |img.pixels|
    ensures forall i :: 0 <= i < |img.pixels| ==> m.data[i] == WidenPixel(img.pixels[i])
  {
    var cn := DirectChannels(img.format);
    var order := ViewOrder(img.format, e);
    var t := MakeType(CV_16U, cn);
    MadeTypeRequested(CV_16U, cn, cn);
    assert Normalised(img, conv) == img;
    var r := QImageToMat(img, t, order, e, conv, luma);
    assert !r.CvtColorError? && !r.ConvertedFloat?;
    m := r.mat;
    WidenedUnchanged(img.pixels, m.data, cn, order, AlphaPlaneAsWritten(CV_16U), luma);
  }

  /** Pixels that the channel stage leaves as they are come out of the
   *  16-bit depth step widened. */
  lemma {:induction false} WidenedUnchanged(src: seq<Pixel>, dst: seq<Pixel>, cn: nat, order: MatColorOrder,
                                            alpha: int, luma: Luma)
    requires cn == 1 || cn == 3 || cn == 4
    requires forall i :: 0 <= i < |src| ==> |src[i]| == cn
    requires |dst| == |src|
    requires forall i :: 0 <= i < |src| ==> dst[i] == From8Bit(ChannelTarget(src[i], cn, order, cn, order, alpha, luma), CV_16U)
    requires cn == 3 ==> order == MCO_RGB
    ensures forall i :: 0 <= i < |src| ==> dst[i] == WidenPixel(src[i])
  {
    forall i | 0 <= i < |src|
      ensures dst[i] == WidenPixel(src[i])
    {
      ChannelTargetIdentity(src[i], cn, order, order, alpha, luma);
    }
  }

  /** An image of a direct format converted to a 16-bit Mat and back with
   *  its own format as hint keeps its format and pixel bytes: scaling by
   *  255 and then by 1 / 255 with rounding restores every 8-bit sample. */
  method ImageRoundTrip16(img: QImage, e: ByteOrder, conv: QtConversion, luma: Luma) returns (back: QImage)
    requires ValidImage(img) && img.Image? && IsDirectFormat(img.format) && LumaFits(luma)
    ensures back.Image? && back.format == img.format
    ensures back.width == img.width && back.height == img.height
    ensures back.pixels == img.pixels
  {
    var f := img.format;
    var cn := DirectChannels(f);
    var order := ViewOrder(f, e);
    var m := ImageTo16BitMat(img, e, conv, luma);
    assert MatToQImageFormat(cn, order, f) == f;
    back := MatToQImage(m, e, conv, order, f);
    forall i | 0 <= i < |img.pixels|
      ensures back.pixels[i] == img.pixels[i]
    {
      assert ByteFits(img.pixels[i], cn);
      NarrowWidenPixel(img.pixels[i]);
      if cn == 4 {
        RequiredOrderMatchesView(f, e);
        Decode4Injective(back.pixels[i], img.pixels[i], order);
      }
    }
  }
}
