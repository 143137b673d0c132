/** The converter's pure decisions: which QImage format a Mat becomes,
 *  which format an arbitrary QImage is normalised to, and which channel
 *  order each 8-bit QImage format implies.  The byte order of the
 *  platform is a parameter.
 */
module ConvertFormats {

  import opened Wrappers
  import opened MatColorOrders
  import opened QtImages
  import opened PixelColors

  /** The platform's byte order (Q_BYTE_ORDER). */
  datatype ByteOrder = LittleEndian | BigEndian

  // ---------------------------------------------------------------------
  // FindClosestFormat

  /** The direct format a QImage of any format is converted to before it
   *  is shared with a Mat. */
  function FindClosestFormat(hint: Format): (f: Format)
    ensures IsDirectFormat(f)
    ensures IsDirectFormat(hint) ==> f == hint
  {
    match hint
    case Format_Indexed8 | Format_RGB32 | Format_ARGB32 | Format_ARGB32_Premultiplied
      | Format_RGB888 | Format_RGBX8888 | Format_RGBA8888 | Format_RGBA8888_Premultiplied
      | Format_Alpha8 | Format_Grayscale8 => hint
    case Format_Mono | Format_MonoLSB => Format_Indexed8
    case Format_RGB16 => Format_RGB32
    case Format_RGB444 | Format_RGB555 | Format_RGB666 => Format_RGB888
    case Format_ARGB4444_Premultiplied | Format_ARGB6666_Premultiplied
      | Format_ARGB8555_Premultiplied | Format_ARGB8565_Premultiplied => Format_ARGB32_Premultiplied
    case _ => Format_ARGB32
  }

  /** Normalising twice is normalising once. */
  lemma FindClosestFormatIdempotent(hint: Format)
    ensures FindClosestFormat(FindClosestFormat(hint)) == FindClosestFormat(hint)
  {
  }

  /** The nearest-equivalent rules for the formats that are not direct. */
  lemma FindClosestFormatCollapses(hint: Format)
    ensures hint == Format_Mono || hint == Format_MonoLSB ==> FindClosestFormat(hint) == Format_Indexed8
    ensures hint == Format_RGB16 ==> FindClosestFormat(hint) == Format_RGB32
    ensures hint == Format_RGB444 || hint == Format_RGB555 || hint == Format_RGB666 ==>
              FindClosestFormat(hint) == Format_RGB888
    ensures hint == Format_ARGB4444_Premultiplied || hint == Format_ARGB6666_Premultiplied ||
            hint == Format_ARGB8555_Premultiplied || hint == Format_ARGB8565_Premultiplied ==>
              FindClosestFormat(hint) == Format_ARGB32_Premultiplied
    ensures (hint == Format_Invalid || hint == Format_BGR30 || hint == Format_A2BGR30_Premultiplied ||
             hint == Format_RGB30 || hint == Format_A2RGB30_Premultiplied || hint == Format_RGBX64 ||
             hint == Format_RGBA64 || hint == Format_RGBA64_Premultiplied || hint == Format_Grayscale16 ||
             hint == Format_BGR888) ==> FindClosestFormat(hint) == Format_ARGB32
  {
    if IsDirectFormat(hint) {
      assert FindClosestFormat(hint) == hint;
    } else {
      ClosestOfIndirect(hint);
    }
  }

  /** Where the formats that are not direct go, one group per rule. */
  lemma ClosestOfIndirect(hint: Format)
    requires !IsDirectFormat(hint)
    ensures var f := FindClosestFormat(hint);
            if hint == Format_Mono || hint == Format_MonoLSB then f == Format_Indexed8
            else if hint == Format_RGB16 then f == Format_RGB32
            else if hint == Format_RGB444 || hint == Format_RGB555 || hint == Format_RGB666 then f == Format_RGB888
            else if hint == Format_ARGB4444_Premultiplied || hint == Format_ARGB6666_Premultiplied ||
                    hint == Format_ARGB8555_Premultiplied || hint == Format_ARGB8565_Premultiplied
            then f == Format_ARGB32_Premultiplied
            else f == Format_ARGB32
  {
  }

  // ---------------------------------------------------------------------
  // Channel order of the formats

  /** The memory order of the bytes of a 0xAARRGGBB word. */
  function ColorOrderOfRGB32Format(e: ByteOrder): MatColorOrder
  {
    if e == LittleEndian then MCO_BGRA else MCO_ARGB
  }

  /** The bytes of a 32-bit word as they lie in memory. */
  function WordBytes(w: int, e: ByteOrder): seq<int>
  {
    var b0, b1, b2, b3 := w % 256, w / 256 % 256, w / 65536 % 256, w / 16777216 % 256;
    if e == LittleEndian then [b0, b1, b2, b3] else [b3, b2, b1, b0]
  }

  /** Reading the bytes of a packed qRgba word in the order given for the
   *  packed formats yields the word's own components, on either byte
   *  order: this is why that order depends on the platform. */
  lemma {:induction false} RGB32OrderReadsPackedWords(c: Rgba, e: ByteOrder)
    requires 0 <= c.r < 256 && 0 <= c.g < 256 && 0 <= c.b < 256 && 0 <= c.a < 256
    ensures Decode4(WordBytes(QRgba(c.r, c.g, c.b, c.a), e), ColorOrderOfRGB32Format(e)) == c
  {
    QRgbaComponents(c.r, c.g, c.b, c.a);
  }

  /** The order QImageToMat_Shared reports for a direct format; the
   *  one-channel formats report none. */
  function SharedViewOrder(f: Format, e: ByteOrder): (o: Option<MatColorOrder>)
    requires IsDirectFormat(f)
    ensures o.None? <==> IsOneChannelFormat(f)
  {
    if f == Format_RGB888 then Some(MCO_RGB)
    else if IsPackedFormat(f) then Some(ColorOrderOfRGB32Format(e))
    else if IsRgbaByteFormat(f) then Some(MCO_RGBA)
    else None
  }

  /** The order of each group of formats, on each byte order. */
  lemma SharedViewOrderByGroup(f: Format, e: ByteOrder)
    requires IsDirectFormat(f)
    ensures f == Format_RGB888 ==> SharedViewOrder(f, e) == Some(MCO_RGB)
    ensures IsPackedFormat(f) && e == LittleEndian ==> SharedViewOrder(f, e) == Some(MCO_BGRA)
    ensures IsPackedFormat(f) && e == BigEndian ==> SharedViewOrder(f, e) == Some(MCO_ARGB)
    ensures IsRgbaByteFormat(f) ==> SharedViewOrder(f, e) == Some(MCO_RGBA)
  {
  }

  /** Every format FindClosestFormat produces is one QImageToMat_Shared
   *  accepts, with a channel count of 1, 3 or 4 and an order exactly
   *  when it has more than one channel. */
  lemma {:induction false} ClosestFormatIsShareable(hint: Format, e: ByteOrder)
    ensures IsDirectFormat(FindClosestFormat(hint))
    ensures var f := FindClosestFormat(hint);
            var n := DirectChannels(f);
            (n == 1 || n == 3 || n == 4) && (SharedViewOrder(f, e).Some? <==> n > 1)
  {
    var f := FindClosestFormat(hint);
    assert IsDirectFormat(f);
  }

  // ---------------------------------------------------------------------
  // The format a Mat becomes in MatToQImage and MatToQImage_Shared

  /** A one-channel Mat keeps a one-channel hint, otherwise Indexed8. */
  function OneChannelFormat(hint: Format): Format
  {
    if hint != Format_Indexed8 && hint != Format_Alpha8 && hint != Format_Grayscale8
    then Format_Indexed8 else hint
  }

  /** MatToQImage's choice for a 4-channel Mat: the closest format if it
   *  has four channels, otherwise RGBA8888 for an RGBA Mat and ARGB32 for
   *  any other. */
  function FourChannelFormat(hint: Format, order: MatColorOrder): Format
  {
    var f := FindClosestFormat(hint);
    if !IsFourChannelFormat(f) then (if order == MCO_RGBA then Format_RGBA8888 else Format_ARGB32)
    else f
  }

  /** The format MatToQImage builds its view with. */
  function MatToQImageFormat(cn: nat, order: MatColorOrder, hint: Format): (f: Format)
    requires cn == 1 || cn == 3 || cn == 4
    ensures IsDirectFormat(f) && DirectChannels(f) == cn
  {
    if cn == 1 then OneChannelFormat(hint)
    else if cn == 3 then Format_RGB888
    else FourChannelFormat(hint, order)
  }

  /** What MatToQImage picks, channel count by channel count. */
  lemma MatToQImageFormatCases(cn: nat, order: MatColorOrder, hint: Format)
    requires cn == 1 || cn == 3 || cn == 4
    ensures cn == 1 ==>
              MatToQImageFormat(cn, order, hint) == (if IsOneChannelFormat(hint) then hint else Format_Indexed8)
    ensures cn == 3 ==> MatToQImageFormat(cn, order, hint) == Format_RGB888
    ensures cn == 4 && IsFourChannelFormat(FindClosestFormat(hint)) ==>
              MatToQImageFormat(cn, order, hint) == FindClosestFormat(hint)
    ensures cn == 4 && IsFourChannelFormat(hint) ==> MatToQImageFormat(cn, order, hint) == hint
  {
  }

  /** The format MatToQImage_Shared gives an 8-bit Mat of cn channels. */
  function SharedFormat(cn: nat, hint: Format): (f: Format)
    requires cn == 1 || cn == 3 || cn == 4
    ensures IsDirectFormat(f) && DirectChannels(f) == cn
    ensures cn == 4 && !IsFourChannelFormat(hint) ==> f == Format_ARGB32
  {
    if cn == 1 then OneChannelFormat(hint)
    else if cn == 3 then Format_RGB888
    else if !IsFourChannelFormat(hint) then Format_ARGB32
    else hint
  }

  /** A format that already matches the channel count is kept, so the view
   *  MatToQImage builds has exactly the format it chose. */
  lemma {:induction false} SharedFormatKeepsMatching(cn: nat, f: Format)
    requires cn == 1 || cn == 3 || cn == 4
    requires IsDirectFormat(f) && DirectChannels(f) == cn
    ensures SharedFormat(cn, f) == f
  {
    assert cn == 1 ==> IsOneChannelFormat(f);
    assert cn == 3 ==> f == Format_RGB888;
    assert cn == 4 ==> IsFourChannelFormat(f);
  }

  // ---------------------------------------------------------------------
  // The channel order MatToQImage reorders a 4-channel Mat into

  /** The order a 4-channel Mat is put in for format f: RGBA for the
   *  RGBX/RGBA group, the platform's packed-word order otherwise.  The code
   *  applies it to the caller's hint (convert.cpp:191-197); applied to the
   *  format the view is built with, it is the order that view is read in. */
  function RequiredOrder(f: Format, e: ByteOrder): MatColorOrder
  {
    if IsRgbaByteFormat(f) then MCO_RGBA else ColorOrderOfRGB32Format(e)
  }

  /** The order MatToQImage reorders into is the order the view's format
   *  is read back in by QImageToMat_Shared. */
  lemma {:induction false} RequiredOrderMatchesView(format: Format, e: ByteOrder)
    requires IsFourChannelFormat(format)
    ensures SharedViewOrder(format, e) == Some(RequiredOrder(format, e))
  {
    assert IsDirectFormat(format);
  }

  /** For every 4-channel Mat the chosen format and the order the pixels
   *  are put in agree. */
  lemma {:induction false} FourChannelOrderAgrees(hint: Format, order: MatColorOrder, e: ByteOrder)
    ensures var f := FourChannelFormat(hint, order);
            IsFourChannelFormat(f) && SharedViewOrder(f, e) == Some(RequiredOrder(f, e))
  {
    RequiredOrderMatchesView(FourChannelFormat(hint, order), e);
  }

  /** The hint-based order agrees with the format-based one whenever the
   *  hint is itself a 4-channel format or the fallback picks ARGB32. */
  lemma {:induction false} RequiredOrderAsWrittenAgreesUnlessRgbaFallback(hint: Format, order: MatColorOrder, e: ByteOrder)
    requires IsFourChannelFormat(FindClosestFormat(hint)) || order != MCO_RGBA
    ensures RequiredOrder(hint, e) == RequiredOrder(FourChannelFormat(hint, order), e)
  {
    var f := FindClosestFormat(hint);
    if IsDirectFormat(hint) {
      assert f == hint;
    } else {
      assert !IsRgbaByteFormat(hint) && !IsRgbaByteFormat(f);
    }
  }

  /** The case where they disagree: an RGBA Mat with a hint of RGB888 is
   *  viewed as RGBA8888, an order-RGBA format, yet the hint-based order
   *  puts its pixels in the packed order. */
  lemma RequiredOrderAsWrittenMismatch()
    ensures FourChannelFormat(Format_RGB888, MCO_RGBA) == Format_RGBA8888
    ensures SharedViewOrder(Format_RGBA8888, LittleEndian) == Some(MCO_RGBA)
    ensures RequiredOrder(Format_RGB888, LittleEndian) == MCO_BGRA
    ensures RequiredOrder(Format_RGB888, LittleEndian) != MCO_RGBA
  {
  }
}
