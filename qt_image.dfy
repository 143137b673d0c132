/** The part of Qt's QImage that the converter relies on: the format
 *  enumeration, the bits per pixel of each format, packed QRgb colours,
 *  and an image as a value (size, stride, format, pixel bytes, colour
 *  table).  QImage::convertToFormat is Qt's own code: the model fixes
 *  the size and format it documents and takes the converted pixel bytes
 *  and colour table from a parameter.
 */
module QtImages {

  /** QImage::Format, in Qt 5's declaration order. */
  datatype Format =
    | Format_Invalid
    | Format_Mono
    | Format_MonoLSB
    | Format_Indexed8
    | Format_RGB32
    | Format_ARGB32
    | Format_ARGB32_Premultiplied
    | Format_RGB16
    | Format_ARGB8565_Premultiplied
    | Format_RGB666
    | Format_ARGB6666_Premultiplied
    | Format_RGB555
    | Format_ARGB8555_Premultiplied
    | Format_RGB888
    | Format_RGB444
    | Format_ARGB4444_Premultiplied
    | Format_RGBX8888
    | Format_RGBA8888
    | Format_RGBA8888_Premultiplied
    | Format_BGR30
    | Format_A2BGR30_Premultiplied
    | Format_RGB30
    | Format_A2RGB30_Premultiplied
    | Format_Alpha8
    | Format_Grayscale8
    | Format_RGBX64
    | Format_RGBA64
    | Format_RGBA64_Premultiplied
    | Format_Grayscale16
    | Format_BGR888

  /** QImage::depth(): bits per pixel of each format. */
  function BitsPerPixel(f: Format): nat
  {
    match f
    case Format_Invalid => 0
    case Format_Mono => 1
    case Format_MonoLSB => 1
    case Format_Indexed8 => 8
    case Format_RGB32 => 32
    case Format_ARGB32 => 32
    case Format_ARGB32_Premultiplied => 32
    case Format_RGB16 => 16
    case Format_ARGB8565_Premultiplied => 24
    case Format_RGB666 => 24
    case Format_ARGB6666_Premultiplied => 24
    case Format_RGB555 => 16
    case Format_ARGB8555_Premultiplied => 24
    case Format_RGB888 => 24
    case Format_RGB444 => 16
    case Format_ARGB4444_Premultiplied => 16
    case Format_RGBX8888 => 32
    case Format_RGBA8888 => 32
    case Format_RGBA8888_Premultiplied => 32
    case Format_BGR30 => 32
    case Format_A2BGR30_Premultiplied => 32
    case Format_RGB30 => 32
    case Format_A2RGB30_Premultiplied => 32
    case Format_Alpha8 => 8
    case Format_Grayscale8 => 8
    case Format_RGBX64 => 64
    case Format_RGBA64 => 64
    case Format_RGBA64_Premultiplied => 64
    case Format_Grayscale16 => 16
    case Format_BGR888 => 24
  }

  /** The ten formats whose pixels are whole bytes, one byte per 8-bit
   *  channel, that the converter shares with a cv::Mat directly. */
  predicate IsDirectFormat(f: Format)
  {
    IsOneChannelFormat(f) || f == Format_RGB888 || IsFourChannelFormat(f)
  }

  /** The 8-bit one-channel formats. */
  predicate IsOneChannelFormat(f: Format)
  {
    f == Format_Indexed8 || f == Format_Alpha8 || f == Format_Grayscale8
  }

  /** The native-endian packed 32-bit formats (0xAARRGGBB words). */
  predicate IsPackedFormat(f: Format)
  {
    f == Format_RGB32 || f == Format_ARGB32 || f == Format_ARGB32_Premultiplied
  }

  /** The byte-ordered R, G, B, A formats. */
  predicate IsRgbaByteFormat(f: Format)
  {
    f == Format_RGBX8888 || f == Format_RGBA8888 || f == Format_RGBA8888_Premultiplied
  }

  /** The six 4-channel 8-bit formats. */
  predicate IsFourChannelFormat(f: Format)
  {
    IsPackedFormat(f) || IsRgbaByteFormat(f)
  }

  /** Bytes per pixel of a direct format, the cv::Mat channel count. */
  function DirectChannels(f: Format): (n: nat)
    requires IsDirectFormat(f)
    ensures n == 1 <==> IsOneChannelFormat(f)
    ensures n == 3 <==> f == Format_RGB888
    ensures n == 4 <==> IsFourChannelFormat(f)
  {
    BitsPerPixel(f) / 8
  }

  /** A QRgb value, 0xAARRGGBB. */
  type Rgb = int

  /** qRgba(r, g, b, a). */
  function QRgba(r: int, g: int, b: int, a: int): Rgb
  {
    b + 256 * (g + 256 * (r + 256 * a))
  }

  /** qRgb(r, g, b): the opaque colour. */
  function QRgb(r: int, g: int, b: int): Rgb
  {
    QRgba(r, g, b, 255)
  }

  function QRed(c: Rgb): int { (c / 65536) % 256 }
  function QGreen(c: Rgb): int { (c / 256) % 256 }
  function QBlue(c: Rgb): int { c % 256 }
  function QAlpha(c: Rgb): int { (c / 16777216) % 256 }

  lemma {:induction false} DivMod256(lo: int, hi: int)
    requires 0 <= lo < 256
    ensures (lo + 256 * hi) % 256 == lo && (lo + 256 * hi) / 256 == hi
  {
  }

  /** The four components of qRgba(r, g, b, a) can be read back. */
  lemma {:induction false} QRgbaComponents(r: int, g: int, b: int, a: int)
    requires 0 <= r < 256 && 0 <= g < 256 && 0 <= b < 256 && 0 <= a < 256
    ensures QRed(QRgba(r, g, b, a)) == r && QGreen(QRgba(r, g, b, a)) == g
    ensures QBlue(QRgba(r, g, b, a)) == b && QAlpha(QRgba(r, g, b, a)) == a
  {
    var c := QRgba(r, g, b, a);
    DivMod256(b, g + 256 * (r + 256 * a));
    DivMod256(g, r + 256 * a);
    DivMod256(r, a);
    DivMod256(a, 0);
    assert c / 256 == g + 256 * (r + 256 * a);
    assert c / 65536 == (c / 256) / 256;
    assert c / 65536 == r + 256 * a;
    assert c / 16777216 == (c / 65536) / 256;
  }

  /** The bytes of a pixel, in memory order. */
  type Bytes = seq<int>

  /** A QImage as a value.  `pixels` holds width * height pixels, row by
   *  row; for a direct format each is DirectChannels bytes.  A null
   *  image (QImage()) has no data at all. */
  datatype QImage =
    | NullImage
    | Image(width: nat, height: nat, bytesPerLine: nat, format: Format,
            pixels: seq<Bytes>, colorTable: seq<Rgb>)

  /** What every non-null QImage guarantees: a real format, a positive
   *  size, one entry per pixel, and for the direct formats whole-byte pixels that fit
   *  in a row of bytesPerLine bytes. */
  predicate ValidImage(img: QImage)
  {
    img.NullImage? ||
    (img.format != Format_Invalid && img.width > 0 && img.height > 0 &&
     |img.pixels| == img.height * img.width &&
     (IsDirectFormat(img.format) ==>
        img.bytesPerLine >= img.width * DirectChannels(img.format) &&
        forall i :: 0 <= i < |img.pixels| ==> ByteFits(img.pixels[i], DirectChannels(img.format))))
  }

  predicate ByteFits(p: Bytes, n: nat)
  {
    |p| == n && forall c :: 0 <= c < n ==> 0 <= p[c] < 256
  }

  /** The stride of an image Qt allocates itself: rows padded to 32 bits. */
  function QtStride(width: nat, f: Format): nat
  {
    (width * BitsPerPixel(f) + 31) / 32 * 4
  }

  /** Qt's padded stride always holds a row of whole-byte pixels. */
  lemma {:induction false} QtStrideFits(width: nat, f: Format)
    ensures IsDirectFormat(f) ==> QtStride(width, f) >= width * DirectChannels(f)
  {
    if IsDirectFormat(f) {
      var c := DirectChannels(f);
      assert BitsPerPixel(f) == 8 * c;
      var q := (width * BitsPerPixel(f) + 31) / 32;
      assert 32 * q >= width * BitsPerPixel(f);
      assert width * BitsPerPixel(f) == 8 * (width * c);
    }
  }

  /** QImage::copy(): a deep copy with the same size, format, pixel bytes
   *  and colour table, in a buffer of Qt's own stride. */
  function Copy(img: QImage): (c: QImage)
    ensures img.NullImage? <==> c.NullImage?
    ensures c.Image? ==> c.width == img.width && c.height == img.height && c.format == img.format
    ensures c.Image? ==> c.pixels == img.pixels && c.colorTable == img.colorTable
    ensures ValidImage(img) ==> ValidImage(c)
  {
    match img
    case NullImage => NullImage
    case Image(w, h, _, f, px, table) =>
      QtStrideFits(w, f);
      Image(w, h, QtStride(w, f), f, px, table)
  }

  /** Qt's pixel conversion, which the model does not interpret: the
   *  converted pixel bytes and colour table for a target format. */
  type QtConversion = (QImage, Format) -> (seq<Bytes>, seq<Rgb>)

  /** QImage::convertToFormat(f): a null image stays null, an image that
   *  already has format f is returned as it is, any other image becomes
   *  an image of format f and the same size whose content Qt computes. */
  function ConvertToFormat(img: QImage, f: Format, conv: QtConversion): (c: QImage)
    ensures img.NullImage? <==> c.NullImage?
    ensures c.Image? ==> c.width == img.width && c.height == img.height && c.format == f
    ensures img.Image? && img.format == f ==> c == img
  {
    match img
    case NullImage => NullImage
    case Image(w, h, _, g, _, _) =>
      if g == f then img
      else
        var converted := conv(img, f);
        Image(w, h, QtStride(w, f), f, converted.0, converted.1)
  }
}
