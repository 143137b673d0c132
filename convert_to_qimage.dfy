/** cv::Mat -> QImage: MatToQImage_Shared, which wraps an 8-bit Mat's
 *  buffer in a QImage of a format fitting its channel count, and
 *  MatToQImage, which first reorders channels and scales the depth to
 *  8 bits and returns an image of its own.
 */
module ConvertToQImage {

  import opened Wrappers
  import opened MatColorOrders
  import opened QtImages
  import opened CvMats
  import opened PixelColors
  import opened ConvertFormats
  import opened ConvertKernels

  predicate IsGreyTable(table: seq<Rgb>)
  {
    |table| == 256 && forall i :: 0 <= i < 256 ==> table[i] == QRgb(i, i, i)
  }

  /** Entry i of the grey table is the opaque grey of intensity i, so an
   *  Indexed8 view shows each byte as its own intensity. */
  lemma {:induction false} GreyTableEntries(table: seq<Rgb>, i: int)
    requires IsGreyTable(table) && 0 <= i < 256
    ensures QRed(table[i]) == i && QGreen(table[i]) == i && QBlue(table[i]) == i && QAlpha(table[i]) == 255
  {
    QRgbaComponents(i, i, i, 255);
  }

  /** The grey colour table, entry i being the opaque grey of intensity i. */
  function GreyTable(): (table: seq<Rgb>)
    ensures IsGreyTable(table)
  {
    seq(256, i => QRgb(i, i, i))
  }

  /** MatToQImage_Shared: a QImage over the Mat's own pixels and stride,
   *  with the hint normalised to the channel count, and for Indexed8 the
   *  256-entry grey colour table. */
  method MatToQImageShared(mat: Mat, formatHint: Format) returns (img: QImage)
    requires Valid(mat) && mat.depth == CV_8U && (mat.channels == 1 || mat.channels == 3 || mat.channels == 4)
    ensures Empty(mat) <==> img.NullImage?
    ensures ValidImage(img)
    ensures img.Image? ==> img.width == mat.cols && img.height == mat.rows && img.bytesPerLine == mat.step
    ensures img.Image? ==> img.pixels == mat.data && img.format == SharedFormat(mat.channels, formatHint)
    ensures img.Image? && img.format == Format_Indexed8 ==> img.colorTable == GreyTable()
    ensures img.Image? && img.format != Format_Indexed8 ==> img.colorTable == []
  {
    if Empty(mat) {
      return NullImage;
    }
    var format := formatHint;
    if mat.channels == 1 {
      if Format_Indexed8 != format && Format_Alpha8 != format && Format_Grayscale8 != format {
        format := Format_Indexed8;
      }
    } else if mat.channels == 3 {
      format := Format_RGB888;
    } else if !IsFourChannelFormat(format) {
      format := Format_ARGB32;
    }
    var colorTable: seq<Rgb> := [];
    if Format_Indexed8 == format {
      colorTable := BuildGreyTable();
    }
    assert format == SharedFormat(mat.channels, formatHint);
    img := Image(mat.cols, mat.rows, mat.step, format, mat.data, colorTable);
    SharedViewValid(mat, format, colorTable);
  }

  /** A view over a non-empty 8-bit Mat, in a format of its channel count,
   *  is a valid image: every pixel is whole bytes and a row fits in the
   *  Mat's stride. */
  lemma {:induction false} SharedViewValid(mat: Mat, format: Format, table: seq<Rgb>)
    requires Valid(mat) && mat.depth == CV_8U && !Empty(mat)
    requires IsDirectFormat(format) && DirectChannels(format) == mat.channels
    ensures ValidImage(Image(mat.cols, mat.rows, mat.step, format, mat.data, table))
  {
    forall i | 0 <= i < |mat.data|
      ensures ByteFits(mat.data[i], mat.channels)
    {
      assert SamplesFit(mat.data[i], mat.channels, CV_8U);
    }
  }

  /** The loop of MatToQImage_Shared that fills the Indexed8 colour table
   *  entry by entry. */
  method BuildGreyTable() returns (table: seq<Rgb>)
    ensures table == GreyTable()
  {
    table := [];
    var i := 0;
    while i < 256
      invariant 0 <= i <= 256 && |table| == i
      invariant forall j :: 0 <= j < i ==> table[j] == QRgb(j, j, j)
    {
      table := table + [QRgb(i, i, i)];
      i := i + 1;
    }
  }

  /** MatToQImage hands the view to convertToFormat exactly when a real
   *  hint differs from the format it chose. */
  predicate ConvertsToHint(cn: nat, order: MatColorOrder, hint: Format)
    requires cn == 1 || cn == 3 || cn == 4
  {
    hint != Format_Invalid && MatToQImageFormat(cn, order, hint) != hint
  }

  /** Whether MatToQImage moves channels before building its view: a
   *  3-channel BGR Mat is swapped, a 4-channel Mat whose order differs
   *  from the required order `target` is reordered. */
  predicate MovesChannels(cn: nat, order: MatColorOrder, target: MatColorOrder)
  {
    (cn == 3 && order == MCO_BGR) || (cn == 4 && order != target)
  }

  /** A pixel of MatToQImage's view, for a 4-channel Mat reordered into
   *  `target`: the Mat's pixel with its channels placed as the view's
   *  format reads them, scaled to 8 bits. */
  function ViewPixel(p: Pixel, cn: nat, order: MatColorOrder, target: MatColorOrder, d: Depth): Pixel
    requires |p| == cn && (cn == 1 || cn == 3 || cn == 4)
  {
    if cn == 1 then To8Bit(p, d)
    else if cn == 3 then To8Bit(if order == MCO_BGR then [p[2], p[1], p[0]] else p, d)
    else To8Bit(Encode4(Decode4(p, order), target), d)
  }

  /** The stride of the view: the Mat's own when the Mat is shared as it
   *  is, a packed row when a new Mat was made. */
  function ViewStride(mat: Mat, order: MatColorOrder, target: MatColorOrder): nat
  {
    if mat.depth == CV_8U && !MovesChannels(mat.channels, order, target) then mat.step
    else ContinuousStep(mat.cols, mat.channels, CV_8U)
  }

  /** The QImage MatToQImage builds with MatToQImage_Shared before copying
   *  or converting it, for a 4-channel Mat reordered into `target`. */
  function View(mat: Mat, order: MatColorOrder, hint: Format, target: MatColorOrder): QImage
    requires Valid(mat) && (mat.channels == 1 || mat.channels == 3 || mat.channels == 4)
  {
    var f := MatToQImageFormat(mat.channels, order, hint);
    Image(mat.cols, mat.rows, ViewStride(mat, order, target), f,
          seq(|mat.data|, i requires 0 <= i < |mat.data| =>
                assert SamplesFit(mat.data[i], mat.channels, mat.depth);
                ViewPixel(mat.data[i], mat.channels, order, target, mat.depth)),
          if f == Format_Indexed8 then GreyTable() else [])
  }

  /** Reordering into `target` and narrowing keep a 4-channel pixel's
   *  colour: read in `target`, a view pixel holds the Mat pixel's colour
   *  scaled to 8 bits. */
  lemma {:induction false} ViewPixelKeepsColor(p: Pixel, order: MatColorOrder, target: MatColorOrder, d: Depth)
    requires |p| == 4
    ensures |ViewPixel(p, 4, order, target, d)| == 4
    ensures Decode4(ViewPixel(p, 4, order, target, d), target) == Decode4(To8Bit(p, d), order)
  {
    var q := Encode4(Decode4(p, order), target);
    Decode4To8Bit(q, target, d);
    Decode4To8Bit(p, order, d);
  }

  /** The pixels of an image made from `mat` hold the Mat's samples,
   *  scaled to 8 bits: unchanged for one channel, in R, G, B order for
   *  three, and for four the Mat's colours in the channel order that
   *  format f is read in. */
  predicate HoldsMatPixels(mat: Mat, order: MatColorOrder, f: Format, e: ByteOrder, pixels: seq<Pixel>)
    requires Valid(mat) && (mat.channels == 1 || mat.channels == 3 || mat.channels == 4)
  {
    |pixels| == |mat.data| &&
    (mat.channels == 1 ==>
       forall i :: 0 <= i < |mat.data| ==> pixels[i] == To8Bit(mat.data[i], mat.depth)) &&
    (mat.channels == 3 ==>
       forall i :: 0 <= i < |mat.data| ==>
         pixels[i] == To8Bit(if order == MCO_BGR then [mat.data[i][2], mat.data[i][1], mat.data[i][0]]
                             else mat.data[i], mat.depth)) &&
    (mat.channels == 4 ==>
       IsFourChannelFormat(f) &&
       forall i :: 0 <= i < |mat.data| ==>
         |pixels[i]| == 4 &&
         Decode4(pixels[i], SharedViewOrder(f, e).value) == Decode4(To8Bit(mat.data[i], mat.depth), order))
  }

  /** When a 4-channel Mat is reordered into the order its view's format
   *  is read in, the view holds the Mat's pixels. */
  lemma {:induction false} ViewHoldsMatPixels(mat: Mat, order: MatColorOrder, hint: Format, target: MatColorOrder,
                                              e: ByteOrder)
    requires Valid(mat) && (mat.channels == 1 || mat.channels == 3 || mat.channels == 4)
    requires mat.channels == 4 ==> target == RequiredOrder(MatToQImageFormat(4, order, hint), e)
    ensures var f := MatToQImageFormat(mat.channels, order, hint);
            HoldsMatPixels(mat, order, f, e, View(mat, order, hint, target).pixels)
  {
    var f := MatToQImageFormat(mat.channels, order, hint);
    var view := View(mat, order, hint, target);
    if mat.channels == 4 {
      RequiredOrderMatchesView(f, e);
      forall i | 0 <= i < |mat.data|
        ensures |view.pixels[i]| == 4 &&
                Decode4(view.pixels[i], SharedViewOrder(f, e).value) == Decode4(To8Bit(mat.data[i], mat.depth), order)
      {
        assert SamplesFit(mat.data[i], 4, mat.depth);
        ViewPixelKeepsColor(mat.data[i], order, target, mat.depth);
      }
    }
  }

  /** The pixel work MatToQImage does before building the view
   *  (convert.cpp:167-219): a 3-channel BGR Mat gets its blue and red
   *  swapped, a 4-channel Mat is reordered into `target`, and a 16-bit Mat
   *  is scaled to 8 bits. */
  method PrepareForView(mat: Mat, order: MatColorOrder, target: MatColorOrder)
    returns (prepared: Mat)
    requires Valid(mat) && (mat.channels == 1 || mat.channels == 3 || mat.channels == 4)
    requires mat.depth == CV_8U || mat.depth == CV_16U
    ensures Valid(prepared) && prepared.depth == CV_8U && prepared.channels == mat.channels
    ensures prepared.rows == mat.rows && prepared.cols == mat.cols
    ensures prepared.step == ViewStride(mat, order, target)
    ensures |prepared.data| == |mat.data|
    ensures forall i :: 0 <= i < |mat.data| ==>
              prepared.data[i] == ViewPixel(mat.data[i], mat.channels, order, target, mat.depth)
  {
    // mat_adjusted_channels, which stands for the input itself when no
    // channel work is needed
    var adjusted := mat;
    if mat.channels == 3 {
      if MCO_BGR == order {
        adjusted := CvtColor(mat, CV_BGR2RGB);
      }
    } else if mat.channels == 4 {
      if order != target {
        adjusted := AdjustChannelsOrder(mat, order, target);
      }
      forall i | 0 <= i < |mat.data|
        ensures adjusted.data[i] == Encode4(Decode4(mat.data[i], order), target)
      {
        assert SamplesFit(mat.data[i], 4, mat.depth);
        if order == target {
          EncodeDecode(mat.data[i], order);
        } else {
          Decode4Injective(adjusted.data[i], Encode4(Decode4(mat.data[i], order), target), target);
        }
      }
    }
    prepared := if mat.depth != CV_8U then ConvertTo8U(adjusted) else adjusted;
  }

  /** MatToQImage for a given required order of 4-channel Mats: an empty
   *  Mat gives a null image; otherwise the view is copied, or converted
   *  by Qt when the hint asks for a format of another layout. */
  method BuildImage(mat: Mat, e: ByteOrder, conv: QtConversion, order: MatColorOrder, hint: Format,
                    target: MatColorOrder) returns (img: QImage)
    requires Valid(mat) && (mat.channels == 1 || mat.channels == 3 || mat.channels == 4)
    requires mat.depth == CV_8U || mat.depth == CV_16U
    ensures Empty(mat) <==> img.NullImage?
    ensures !Empty(mat) ==> ValidImage(View(mat, order, hint, target))
    ensures !Empty(mat) && ConvertsToHint(mat.channels, order, hint) ==>
              img == ConvertToFormat(View(mat, order, hint, target), hint, conv)
    ensures !Empty(mat) && !ConvertsToHint(mat.channels, order, hint) ==>
              img == Copy(View(mat, order, hint, target))
  {
    if Empty(mat) {
      return NullImage;
    }
    var format := MatToQImageFormat(mat.channels, order, hint);
    var prepared := PrepareForView(mat, order, target);
    SharedFormatKeepsMatching(mat.channels, format);
    var view := MatToQImageShared(prepared, format);
    assert view == View(mat, order, hint, target);
    if format == hint || hint == Format_Invalid {
      img := Copy(view);
    } else {
      img := ConvertToFormat(view, hint, conv);
    }
  }

  /** MatToQImage, with the required order of a 4-channel Mat taken from
   *  the hint as the source does.  An empty Mat gives a null image.
   *  Otherwise the image is Qt's conversion, or a copy, of View; when no
   *  conversion is needed its format is the one MatToQImageFormat
   *  chooses and its pixels are the Mat's, scaled to 8 bits: unchanged for
   *  one channel, in R, G, B order for three, and for four holding the
   *  Mat's colours in the order the format is read in. */
  method MatToQImage(mat: Mat, e: ByteOrder, conv: QtConversion,
                     order: MatColorOrder := MCO_BGR, hint: Format := Format_Invalid)
    returns (img: QImage)
    requires Valid(mat) && (mat.channels == 1 || mat.channels == 3 || mat.channels == 4)
    requires mat.depth == CV_8U || mat.depth == CV_16U
    ensures Empty(mat) <==> img.NullImage?
    ensures img.Image? ==> img.width == mat.cols && img.height == mat.rows
    ensures img.Image? && ConvertsToHint(mat.channels, order, hint) ==>
              img.format == hint &&
              img == ConvertToFormat(View(mat, order, hint, RequiredOrder(hint, e)), hint, conv)
    ensures img.Image? && !ConvertsToHint(mat.channels, order, hint) ==>
              img == Copy(View(mat, order, hint, RequiredOrder(hint, e))) &&
              img.format == MatToQImageFormat(mat.channels, order, hint) &&
              img.bytesPerLine == QtStride(mat.cols, img.format) &&
              |img.pixels| == |mat.data| && ValidImage(img) &&
              (img.format == Format_Indexed8 ==> IsGreyTable(img.colorTable))
    ensures img.Image? && !ConvertsToHint(mat.channels, order, hint) ==>
              HoldsMatPixels(mat, order, img.format, e, img.pixels)
  {
    var target := RequiredOrder(hint, e);
    img := BuildImage(mat, e, conv, order, hint, target);
    if img.Image? && !ConvertsToHint(mat.channels, order, hint) {
      var f := MatToQImageFormat(mat.channels, order, hint);
      if mat.channels == 4 {
        // without a conversion the hint is Format_Invalid or the chosen
        // format itself, and the hint-based order is the format's
        assert IsFourChannelFormat(FindClosestFormat(hint));
        RequiredOrderAsWrittenAgreesUnlessRgbaFallback(hint, order, e);
      }
      ViewHoldsMatPixels(mat, order, hint, target, e);
    }
  }

  /** MatToQImage with the required order taken from the format the view
   *  is built with: whether or not Qt converts afterwards, every pixel of
   *  the view of a 4-channel Mat holds the Mat's colour in the order the
   *  view's format is read in. */
  method MatToQImageCorrected(mat: Mat, e: ByteOrder, conv: QtConversion,
                              order: MatColorOrder := MCO_BGR, hint: Format := Format_Invalid)
    returns (img: QImage)
    requires Valid(mat) && (mat.channels == 1 || mat.channels == 3 || mat.channels == 4)
    requires mat.depth == CV_8U || mat.depth == CV_16U
    ensures Empty(mat) <==> img.NullImage?
    ensures var f := MatToQImageFormat(mat.channels, order, hint);
            var view := View(mat, order, hint, RequiredOrder(f, e));
            img.Image? ==>
              (ConvertsToHint(mat.channels, order, hint) ==> img == ConvertToFormat(view, hint, conv)) &&
              (!ConvertsToHint(mat.channels, order, hint) ==> img == Copy(view)) &&
              HoldsMatPixels(mat, order, f, e, view.pixels)
  {
    var f := MatToQImageFormat(mat.channels, order, hint);
    var target := RequiredOrder(f, e);
    img := BuildImage(mat, e, conv, order, hint, target);
    ViewHoldsMatPixels(mat, order, hint, target, e);
  }

  /** The header's defaults (order BGR, no format hint): one channel gives
   *  Indexed8 with the grey table, three give RGB888 with blue and red
   *  swapped, four give ARGB32 holding the Mat's BGRA colours. */
  method MatToQImageDefaults(mat: Mat, e: ByteOrder, conv: QtConversion) returns (img: QImage)
    requires Valid(mat) && (mat.channels == 1 || mat.channels == 3 || mat.channels == 4)
    requires mat.depth == CV_8U && !Empty(mat)
    ensures img.Image? && img.width == mat.cols && img.height == mat.rows && |img.pixels| == |mat.data|
    ensures mat.channels == 1 ==>
              img.format == Format_Indexed8 && IsGreyTable(img.colorTable) && img.pixels == mat.data
    ensures mat.channels == 3 ==>
              img.format == Format_RGB888 &&
              forall i :: 0 <= i < |mat.data| ==> img.pixels[i] == [mat.data[i][2], mat.data[i][1], mat.data[i][0]]
    ensures mat.channels == 4 ==>
              img.format == Format_ARGB32 &&
              forall i :: 0 <= i < |mat.data| ==>
                |img.pixels[i]| == 4 && Decode4(img.pixels[i], ColorOrderOfRGB32Format(e)) == Decode4(mat.data[i], MCO_BGRA)
  {
    img := MatToQImage(mat, e, conv);
    if mat.channels == 1 {
      assert img.pixels == mat.data;
    }
  }

  /** A BGR pixel (10, 20, 30) becomes the RGB888 pixel (30, 20, 10). */
  method BgrPixelExample(e: ByteOrder, conv: QtConversion) returns (img: QImage)
    ensures img.Image? && img.format == Format_RGB888 && img.width == 2 && img.height == 2 && |img.pixels| == 4
    ensures img.pixels[0] == [30, 20, 10]
  {
    var px := [10, 20, 30];
    var mat := Mat(2, 2, CV_8U, 3, 6, [px, px, px, px]);
    assert SamplesFit(px, 3, CV_8U);
    img := MatToQImageDefaults(mat, e, conv);
  }

  /** The 1x1 RGBA Mat holding (10, 20, 30, 255). */
  const RgbaPixelMat: Mat := Mat(1, 1, CV_8U, 4, 4, [[10, 20, 30, 255]])

  /** As written, the reorder target comes from the hint: the RGBA Mat
   *  with hint RGB888 on a little-endian platform is viewed as RGBA8888
   *  while its pixels are put in BGRA order, so the view reads red and
   *  blue swapped; with the order taken from the view's format the view
   *  holds the Mat's colour. */
  lemma AsWrittenSwapsRedAndBlue()
    ensures Valid(RgbaPixelMat)
    ensures ConvertsToHint(4, MCO_RGBA, Format_RGB888)
    ensures var written := View(RgbaPixelMat, MCO_RGBA, Format_RGB888,
                                RequiredOrder(Format_RGB888, LittleEndian));
            written.format == Format_RGBA8888 && written.pixels == [[30, 20, 10, 255]] &&
            Decode4(written.pixels[0], SharedViewOrder(written.format, LittleEndian).value) == Rgba(30, 20, 10, 255)
    ensures var corrected := View(RgbaPixelMat, MCO_RGBA, Format_RGB888,
                                  RequiredOrder(Format_RGBA8888, LittleEndian));
            corrected.format == Format_RGBA8888 && corrected.pixels == [[10, 20, 30, 255]] &&
            Decode4(corrected.pixels[0], SharedViewOrder(corrected.format, LittleEndian).value) == Rgba(10, 20, 30, 255)
  {
    assert SamplesFit([10, 20, 30, 255], 4, CV_8U);
    var written := View(RgbaPixelMat, MCO_RGBA, Format_RGB888, MCO_BGRA);
    assert written.pixels[0] == To8Bit([30, 20, 10, 255], CV_8U);
    var corrected := View(RgbaPixelMat, MCO_RGBA, Format_RGB888, MCO_RGBA);
    assert corrected.pixels[0] == To8Bit([10, 20, 30, 255], CV_8U);
  }
}
