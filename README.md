# cv::Mat ↔ QImage converter, modelled in Dafny

This project models the image converter of ImageFilter (`jz::convert`, in
`ImageFilter/base/convert.cpp` and `convert.h`). The converter turns an
OpenCV `cv::Mat` into a Qt `QImage` and back. The model covers:

- the `MatColorOrder` enumeration with its aliased values;
- the format decisions: `FindClosestFormat`, the formats `MatToQImage` and
  `MatToQImage_Shared` choose, and the channel order `QImageToMat_Shared`
  reports;
- the channel kernels: `ARGBToBGRA`, `AdjustChannelsOrder`, and the channel
  and alpha dispatch of `QImageToMat`. Their `cv::mixChannels` tables (the
  ARGB↔BGRA reversal, ARGB↔RGBA, ARGB to RGB or BGR, and the two alpha-plane
  prepends) run through one looping `MixChannels` method; their
  `cv::cvtColor` reorderings and grey conversions are `CvtColor` and
  `CvtGrey`;
- the depth scaling between 8-bit, 16-bit and `CV_32F` samples.

Images and Mats are values:

- a `Mat` holds rows, cols, depth, channels, its byte stride (`step`) and its
  pixels row by row, each pixel a sequence of integer samples;
- a `QImage` is either `NullImage` or an `Image` with width, height,
  `bytesPerLine`, format, pixel bytes and colour table.

The code's two state changes are modelled imperatively. The colour table is
built by a loop in `MatToQImageShared`. `QImageToMat_Shared` writes its order
through an optional pointer, which is the nullable `OrderSlot` object passed
to `QImageToMatShared`.

Several inputs the code takes from its platform or from libraries are
parameters of the model:

- the platform byte order (`Q_BYTE_ORDER`) is `ByteOrder`;
- Qt's pixel conversion behind `QImage::convertToFormat` is `QtConversion`;
- OpenCV's luma-weighted greyscale conversion is `Luma`.

Colours are the common ground of the proofs. `Decode4` reads the colour of a
4-channel pixel in a given order and `Encode4` writes one. `ColorOf` reads the
colour of a pixel of a shared view. Two reference definitions say what each
direction builds:

- `View` is the QImage `MatToQImage` builds before copying or converting it,
  for a given order that a 4-channel Mat is reordered into. `ViewPixel` gives
  its pixels. `HoldsMatPixels` says when an image's pixels hold a Mat's
  samples and colours.
- `ChannelTarget` is what `QImageToMat`'s channel stage makes of a pixel, for
  a given alpha-plane sample. `AdjustChannels` and `QImageToMat` are proved
  against it.

`MatToQImage` and `QImageToMat` model the code as written, including the two
defects listed under "## Findings". For each defect a separately named
variant carries the corrected behaviour: `MatToQImageCorrected` and
`QImageToMatCorrected`. Both directions share their body with the as-written
member, through `BuildImage` and `ConvertImage`, and differ only in the one
value the defect concerns.

Two behaviours of the code are easy to miss:

- A one-channel Mat passed to `MatToQImage` with a real hint other than
  Indexed8, Alpha8 or Grayscale8 does not stay one-channel. Its Indexed8 view
  is handed to `convertToFormat(format_hint)` (convert.cpp:223-230), so the
  result has the hint's format. `MatToQImage` states this as its
  `ConvertsToHint` case.
- A 3-channel target with order MCO_ARGB is laid out B, G, R from the RGB888
  view. The test at :367 swaps whenever the required order is not MCO_RGB. The
  same target is laid out R, G, B from a 4-channel view (:376-400).
  `ThreeChannelOrder` captures the difference.

## Model

| member | source | states |
|---|---|---|
| MatColorOrders.EnumValues | ImageFilter/base/convert.h:13-17 | MCO_BGRA equals MCO_BGR, MCO_RGBA equals MCO_RGB, and MCO_ARGB differs from both |
| MatColorOrders.ExactlyThreeOrders | ImageFilter/base/convert.h:11-18 | every order value is one of exactly three distinct values |
| QtImages.DirectChannels | ImageFilter/base/convert.cpp:530-534 | depth()/8 of a direct format is 1 exactly for the one-channel formats, 3 exactly for RGB888, 4 exactly for the six 4-channel formats |
| QtImages.QRgbaComponents | ImageFilter/base/convert.cpp:285 | qRed, qGreen, qBlue and qAlpha of qRgba(r, g, b, a) give back r, g, b and a |
| QtImages.QtStrideFits | ImageFilter/base/convert.cpp:225 | the 32-bit-padded stride of an image Qt allocates holds a full row of pixels of a direct format |
| QtImages.Copy | ImageFilter/base/convert.cpp:225 | copy() keeps nullness, size, format, pixel bytes and colour table, and keeps a well-formed image well-formed |
| CvMats.TypeRoundTrip | ImageFilter/base/convert.cpp:298-299 | CV_MAT_DEPTH and CV_MAT_CN of CV_MAKETYPE(d, cn) give back d's code and cn |
| CvMats.Clone | ImageFilter/base/convert.cpp:93 | clone() keeps shape, type and every pixel, and keeps a valid Mat valid |
| CvMats.MixChannels | ImageFilter/base/convert.cpp:22-27 | for a table that fits the channel counts and writes every destination channel, each output pixel is MixPixel of the input pixel: destination d holds the source sample of the last pair naming d |
| CvMats.CvtColor | ImageFilter/base/convert.cpp:172-174 | cvtColor with a reordering code keeps the size and depth, gives the code's channel count, maps every pixel by CvtPixel, and keeps samples within the depth |
| CvMats.CvtGrey | ImageFilter/base/convert.cpp:332-354 | the greyscale codes give one channel per pixel: the luma of the pixel's R, G and B as the code lays them out, valid when the luma maps bytes to bytes |
| CvMats.NarrowIsNearest | ImageFilter/base/convert.cpp:216-218 | scaling a 16-bit sample by 1/255 gives an 8-bit sample within half a step of v/255, saturating at 255 |
| CvMats.NarrowWiden | ImageFilter/base/convert.cpp:494-496 | scaling an 8-bit sample by 255 stays within 65025 ≤ 65535, so it never saturates, and scaling back by 1/255 restores the sample |
| CvMats.NarrowWidenPixel | ImageFilter/base/convert.cpp:494-496 | the same for every sample of a pixel: the widened pixel fits 16 bits and narrows back to itself |
| CvMats.ConvertTo8U | ImageFilter/base/convert.cpp:214-219 | convertTo(CV_8U, 1/255) gives a valid 8-bit Mat of the same shape with every pixel narrowed |
| CvMats.ConvertTo16U | ImageFilter/base/convert.cpp:493-496 | convertTo(CV_16U, 255) gives a valid 16-bit Mat of the same shape with every pixel widened |
| CvMats.ScalePixelBounds | ImageFilter/base/convert.cpp:494-496 | scaling 8-bit samples by 1/255 puts every sample in [0, 1] |
| CvMats.ConvertTo32F | ImageFilter/base/convert.cpp:493-496 | convertTo(CV_32F, 1/255) keeps the shape, packs rows tightly, and maps every pixel to samples v/255 that lie in [0, 1] |
| PixelColors.EncodeDecode | ImageFilter/base/convert.h:11-18 | in each of the three 4-channel layouts, writing the colour a pixel holds gives back that pixel |
| PixelColors.Decode4Injective | ImageFilter/base/convert.h:11-18 | two 4-channel pixels of one layout holding the same colour are equal |
| PixelColors.Decode4To8Bit | ImageFilter/base/convert.cpp:212-219 | depth scaling and reading a 4-channel colour commute, so MatToQImage may scale after reordering |
| ConvertFormats.FindClosestFormat | ImageFilter/base/convert.cpp:31-77 | every result is one of the ten direct formats, and each direct format maps to itself |
| ConvertFormats.FindClosestFormatIdempotent | ImageFilter/base/convert.cpp:31-77 | applying FindClosestFormat twice gives the same as once |
| ConvertFormats.FindClosestFormatCollapses | ImageFilter/base/convert.cpp:49-73 | Mono and MonoLSB give Indexed8, RGB16 gives RGB32, RGB444/555/666 give RGB888, the four low-bit premultiplied formats give ARGB32_Premultiplied, and every remaining format gives ARGB32 |
| ConvertFormats.RGB32OrderReadsPackedWords | ImageFilter/base/convert.cpp:79-86 | reading the memory bytes of a qRgba word in the platform order (BGRA on little-endian, ARGB on big-endian) yields exactly the word's components |
| ConvertFormats.SharedViewOrder | ImageFilter/base/convert.cpp:506-528 | QImageToMat_Shared reports no order exactly for the one-channel formats |
| ConvertFormats.SharedViewOrderByGroup | ImageFilter/base/convert.cpp:510-522 | RGB888 reports RGB, the packed 32-bit group reports BGRA on little-endian and ARGB on big-endian, and the RGBX/RGBA group reports RGBA |
| ConvertFormats.ClosestFormatIsShareable | ImageFilter/base/convert.cpp:311-316 | every output of FindClosestFormat is accepted by QImageToMat_Shared, with 1, 3 or 4 channels and an order exactly when it has more than one, so the empty branch at :526-527 is unreachable from QImageToMat |
| ConvertFormats.MatToQImageFormat | ImageFilter/base/convert.cpp:157-189 | MatToQImage's format is always a direct format whose channel count is the Mat's |
| ConvertFormats.MatToQImageFormatCases | ImageFilter/base/convert.cpp:157-189 | one channel keeps a one-channel hint and otherwise gives Indexed8; three channels give RGB888; four give the closest format when it has four channels, and in particular a 4-channel hint itself |
| ConvertFormats.SharedFormat | ImageFilter/base/convert.cpp:243-267 | MatToQImage_Shared's format always matches the channel count, and a 4-channel Mat with any other hint falls back to ARGB32 |
| ConvertFormats.SharedFormatKeepsMatching | ImageFilter/base/convert.cpp:222 | a format that already matches the channel count is kept by MatToQImage_Shared, so MatToQImage's view has exactly the format it chose |
| ConvertFormats.RequiredOrderMatchesView | ImageFilter/base/convert.cpp:191-198 | for a 4-channel format, the order pixels are put in (RGBA for the RGBX/RGBA group, else the platform order) is the order QImageToMat_Shared reads that format in |
| ConvertFormats.FourChannelOrderAgrees | ImageFilter/base/convert.cpp:179-198 | with the corrected required order, every 4-channel Mat's chosen format and pixel order agree |
| ConvertFormats.RequiredOrderAsWrittenAgreesUnlessRgbaFallback | ImageFilter/base/convert.cpp:179-198 | the hint-based order as written agrees with the format-based one unless an RGBA Mat falls back to RGBA8888 |
| ConvertFormats.RequiredOrderAsWrittenMismatch | ImageFilter/base/convert.cpp:187-198 | an RGBA Mat with hint RGB888 on little-endian is given format RGBA8888, read as RGBA, while the order as written puts its pixels in BGRA |
| ConvertKernels.ArgbToBgraTable | ImageFilter/base/convert.cpp:21 | the table { 0,3, 1,2, 2,1, 3,0 } fits, covers all four channels and reverses a pixel |
| ConvertKernels.ArgbToRgbaTable | ImageFilter/base/convert.cpp:108 | the table { 0,3, 1,0, 2,1, 3,2 } fits, covers all four channels and moves A from the front to the back |
| ConvertKernels.RgbaToArgbTable | ImageFilter/base/convert.cpp:122 | the table { 0,1, 1,2, 2,3, 3,0 } fits, covers all four channels and moves A from the back to the front |
| ConvertKernels.ArgbToBgraInvolution | ImageFilter/base/convert.cpp:21 | the reversal applied twice gives the pixel back, and it turns an ARGB pixel into the BGRA pixel of the same colour and vice versa |
| ConvertKernels.ArgbRgbaTablesInverse | ImageFilter/base/convert.cpp:105-128 | the ARGB→RGBA and RGBA→ARGB tables undo each other in both orders of composition |
| ConvertKernels.ARGBToBGRA | ImageFilter/base/convert.cpp:14-29 | a valid new Mat of the same rows, cols and type, tightly packed, whose every pixel is the input pixel reversed |
| ConvertKernels.ARGBToBGRATwice | ImageFilter/base/convert.cpp:14-29 | applying ARGBToBGRA twice gives back the original pixels |
| ConvertKernels.AdjustChannelsOrder | ImageFilter/base/convert.cpp:88-138 | a valid new 4-channel Mat of the same shape and depth whose every pixel holds, in the target order, the colour the source pixel holds in the source order; equal orders give an exact clone |
| ConvertKernels.AdjustFallbackPairs | ImageFilter/base/convert.cpp:96-135 | the pairs of distinct orders that reach the CV_BGRA2RGBA fallback are exactly BGRA→RGBA and RGBA→BGRA |
| ConvertToQImage.GreyTableEntries | ImageFilter/base/convert.cpp:280-288 | entry i of the grey colour table is the opaque grey with red, green and blue i |
| ConvertToQImage.BuildGreyTable | ImageFilter/base/convert.cpp:280-288 | the loop fills exactly the 256-entry grey table, entry i being qRgb(i, i, i) |
| ConvertToQImage.MatToQImageShared | ImageFilter/base/convert.cpp:234-292 | for an 8-bit 1/3/4-channel Mat: null exactly when the Mat is empty; otherwise a well-formed image of the Mat's size whose stride is mat.step, whose pixels are the Mat's and whose format matches the channel count; the grey table for Indexed8 and no table otherwise |
| ConvertToQImage.ViewPixelKeepsColor | ImageFilter/base/convert.cpp:198-219 | a 4-channel pixel reordered into a target order and scaled to 8 bits, read in that target order, holds the source pixel's colour scaled to 8 bits |
| ConvertToQImage.ViewHoldsMatPixels | ImageFilter/base/convert.cpp:167-222 | when a 4-channel Mat is reordered into the order its view's format is read in, the view's pixels hold the Mat's samples, scaled to 8 bits: unchanged for one channel, R, G, B for three, the Mat's colours for four |
| ConvertToQImage.PrepareForView | ImageFilter/base/convert.cpp:167-219 | for a given reorder target: the prepared Mat is 8-bit, valid and of the same shape; its stride is the Mat's own when nothing is moved or scaled and a packed row otherwise; each pixel is the view pixel: B and R swapped for a BGR 3-channel Mat, a 4-channel pixel's colour re-laid in the target order, then scaled to 8 bits |
| ConvertToQImage.BuildImage | ImageFilter/base/convert.cpp:142-231 | for a given reorder target: null exactly for an empty Mat; otherwise the view is well-formed, and the result is Qt's conversion of the view to the hint when the hint names another layout, else a copy of the view |
| ConvertToQImage.MatToQImage | ImageFilter/base/convert.cpp:142-231 | as written, a 4-channel Mat is reordered by the order of the hint (:191-197). Null exactly for an empty Mat; the image has the Mat's size. With a hint of another layout, the image is convertToFormat(hint) of that view. Otherwise it is a copy of the view, with the chosen format, Qt's stride and the Mat's samples and colours |
| ConvertToQImage.MatToQImageCorrected | ImageFilter/base/convert.cpp:142-231 | with the reorder order taken from the resolved format, the image is the converted or copied view as above, and that view holds the Mat's samples and colours whether or not Qt converts afterwards |
| ConvertToQImage.MatToQImageDefaults | ImageFilter/base/convert.h:21-23 | with the default order MCO_BGR and hint Format_Invalid: one channel gives Indexed8 with the grey table and the same bytes, three give RGB888 with B and R swapped, four give ARGB32 holding the Mat's BGRA colours in the platform order |
| ConvertToQImage.BgrPixelExample | ImageFilter/base/convert.cpp:167-176 | a 2×2 BGR Mat of pixel (10, 20, 30) becomes an RGB888 image whose first pixel is (30, 20, 10) |
| ConvertToQImage.AsWrittenSwapsRedAndBlue | ImageFilter/base/convert.cpp:191-204 | a 1×1 RGBA Mat of (10, 20, 30, 255) with hint RGB888 on little-endian is handed to Qt's conversion; as written its RGBA8888 view holds (30, 20, 10, 255), read as red 30 and blue 10, while the view with the format's order holds (10, 20, 30, 255) |
| ConvertToMat.QImageToMatShared | ImageFilter/base/convert.cpp:502-535 | a null image or a format outside the ten direct ones gives an empty Mat and writes no order; otherwise a valid 8-bit Mat over the image's size, bytesPerLine and bytes with depth()/8 channels; a non-null slot receives RGB, the platform order or RGBA for the 3- and 4-channel formats and is left alone otherwise |
| ConvertToMat.ChannelTargetKeepsColor | ImageFilter/base/convert.cpp:327-483 | the reference channel stage keeps the colour for four channels in the required order, with the alpha-plane sample as alpha on the MCO_ARGB path from a 1- or 3-channel view; it keeps the colour opaque for three, keeps a grey for one channel and takes the luma of a colour |
| ConvertToMat.OpaquePlaneKeepsColor | ImageFilter/base/convert.cpp:404-480 | with the alpha plane at full 8-bit opacity, a 4-channel target holds exactly the view's colour on every path |
| ConvertToMat.ChannelTargetIdentity | ImageFilter/base/convert.cpp:365-373 | a grey target from a grey view, an RGB target from the RGB888 view, and a 4-channel target in the view's own order leave the pixel unchanged |
| ConvertToMat.ChannelTargetFits | ImageFilter/base/convert.cpp:327-483 | with an 8-bit alpha-plane sample, the channel stage keeps 8-bit samples 8-bit |
| ConvertToMat.Saturate8 | ImageFilter/base/convert.cpp:412 | saturating a float to uchar always gives a value in [0, 255] |
| ConvertToMat.AlphaPlaneAsWritten | ImageFilter/base/convert.cpp:409-412 | the alpha sample the code writes is an 8-bit value |
| ConvertToMat.AlphaPlaneAsWrittenOnIntegerDepths | ImageFilter/base/convert.cpp:409-412 | as written, the alpha plane is opaque (255) for 8U and 16U targets |
| ConvertToMat.AlphaPlaneAsWrittenFloatMismatch | ImageFilter/base/convert.cpp:442-445 | as written, a CV_32F target gets alpha 1 on the MCO_ARGB path (1/255 after scaling), while the CV_GRAY2RGBA path gives an alpha of 1.0 |
| ConvertToMat.AlphaPlaneMatchesCvtColor | ImageFilter/base/convert.cpp:425-430 | with the corrected plane, the MCO_ARGB path's alpha equals the alpha cvtColor adds, and scales to 1.0 for CV_32F |
| ConvertToMat.ArgbToRgbTable | ImageFilter/base/convert.cpp:381 | ARGB2RGB = { 1,0, 2,1, 3,2 } fits, covers three channels, and drops alpha keeping R, G, B |
| ConvertToMat.ArgbToBgrTable | ImageFilter/base/convert.cpp:382 | ARGB2BGR = { 1,2, 2,1, 3,0 } fits, covers three channels, and drops alpha giving B, G, R |
| ConvertToMat.GreyToArgbTable | ImageFilter/base/convert.cpp:417 | { 0,0, 1,1, 1,2, 1,3 } over (alpha plane, grey) puts alpha at position 0 and the grey in positions 1-3 |
| ConvertToMat.RgbToArgbTable | ImageFilter/base/convert.cpp:450 | { 0,0, 1,1, 2,2, 3,3 } over (alpha plane, R, G, B) puts alpha first followed by R, G, B |
| ConvertToMat.AlphaPlanesFit | ImageFilter/base/convert.cpp:416 | the combined pixels of the alpha plane and the view have one more channel than the view and stay 8-bit |
| ConvertToMat.ToOneChannel | ImageFilter/base/convert.cpp:329-357 | a grey view is left unchanged exactly when it has one channel; colour views become a new 1-channel Mat of each pixel's luma, an ARGB view after ARGBToBGRA |
| ConvertToMat.ToThreeChannels | ImageFilter/base/convert.cpp:358-403 | unchanged exactly for the RGB888 view with MCO_RGB required; otherwise a new 3-channel Mat of every pixel's colour without alpha, laid out B, G, R or R, G, B as ThreeChannelOrder says |
| ConvertToMat.PrependAlpha | ImageFilter/base/convert.cpp:407-456 | the mixChannels of the alpha plane and a 1- or 3-channel view gives a new 4-channel Mat of the view's shape whose every pixel is the view pixel's colour with the plane's sample as alpha, in ARGB order |
| ConvertToMat.ToFourChannels | ImageFilter/base/convert.cpp:404-480 | unchanged exactly for a 4-channel view already in the required order; fails exactly for MCO_BGRA from a grey view; otherwise a new 4-channel Mat holding each pixel's colour in the required order, with the alpha plane's sample on the MCO_ARGB paths and opaque alpha elsewhere |
| ConvertToMat.AdjustChannels | ImageFilter/base/convert.cpp:318-483 | for a given alpha-plane sample, the switch on the target channel count fails exactly on a 4-channel MCO_BGRA request from a grey view; otherwise every pixel of its result, or of the untouched view, is ChannelTarget of the view's pixel |
| ConvertToMat.Normalised | ImageFilter/base/convert.cpp:310-313 | the image QImageToMat shares is never null for a non-null image, has a direct format and the same size, and is the image itself when its format is already direct |
| ConvertToMat.MadeTypeRequested | ImageFilter/base/convert.cpp:298-306 | a type made from an accepted depth and 1, 3 or 4 channels passes the asserts and names that depth and channel count |
| ConvertToMat.AdjustDepth | ImageFilter/base/convert.cpp:485-498 | an 8U target gives the adjusted Mat or a clone of the view; 16U scales it by 255; CV_32F scales it by 1/255 |
| ConvertToMat.ConvertImage | ImageFilter/base/convert.cpp:294-499 | for a given alpha-plane sample: a null image gives an empty Mat; otherwise it fails exactly on a 4-channel MCO_BGRA request from a grey view; a float result is given exactly for CV_32F; the result has the image's size, the requested depth and the requested channel count (the view's for CV_CN_MAX), and each pixel is ChannelTarget of the normalised image's pixel scaled to that depth |
| ConvertToMat.QImageToMat | ImageFilter/base/convert.cpp:294-499 | the same, with the alpha plane as written: max_alpha saturated to the view's 8-bit type (:409-412, :442-445) |
| ConvertToMat.QImageToMatCorrected | ImageFilter/base/convert.cpp:294-499 | the same, with the alpha plane at the full 8-bit opacity 255, so every 4-channel result holds the view's colour |
| ConvertToMat.FloatAlphaAsWritten | ImageFilter/base/convert.cpp:404-445 | a 1×1 Grayscale8 image of 7 converted to CV_32FC4 gets alpha 1/255 with order MCO_ARGB and alpha 1.0 with order MCO_RGBA |
| ConvertToMat.FloatAlphaCorrected | ImageFilter/base/convert.cpp:404-445 | with the corrected alpha plane, the same image gets alpha 1.0 with both orders |
| ConvertToMat.ConversionRestoresMat | ImageFilter/base/convert.cpp:327-498 | converting an image whose pixels hold an 8-bit Mat's samples and colours back with the Mat's own type and order gives a clone of the Mat, except a 3-channel Mat with order MCO_ARGB, whose red and blue are swapped on the way back (:170-175 against :366-372) |
| ConvertToMat.MatRoundTrip | ImageFilter/base/convert.cpp:142-231 | an 8-bit Mat converted to a QImage with a hint that needs no Qt conversion, and back with its own type and order, comes back as a clone of itself, except a 3-channel Mat with order MCO_ARGB, whose red and blue are swapped on the way back (:170-175 against :366-372) |
| ConvertToMat.ThreeChannelArgbRoundTripSwaps | ImageFilter/base/convert.cpp:366-372 | a 1×1 3-channel Mat (10, 20, 30) with order MCO_ARGB is viewed unswapped as RGB888 (:170-175) and comes back from QImageToMat in that order as (30, 20, 10), because the 3-channel case swaps whenever the order is not the view's MCO_RGB |
| ConvertToMat.ImageTo16BitMat | ImageFilter/base/convert.cpp:486-498 | an image of a direct format converted to a 16-bit Mat of its own channel count and order is valid and non-empty, has the image's size, and every sample is multiplied by 255 |
| ConvertToMat.ImageRoundTrip16 | ImageFilter/base/convert.cpp:214-219 | an image of a direct format taken to a 16-bit Mat (×255, :496) and back with its own format as hint (×1/255, :218) keeps its format, size and every pixel byte |

## Left out

- `QImage::convertToFormat` (convert.cpp:229, :313) is Qt's code. The model keeps the size and format Qt documents. Its pixel bytes and colour table come from the parameter `QtConversion`, about which nothing is proved.
- ConvertToMat.QImageToMat: requires that Qt's conversion of a non-direct image gives a well-formed image (`ValidImage(Normalised(...))`). Nothing else about `QtConversion` is known.
- The luma-weighted greyscale conversions (convert.cpp:332-354) use OpenCV's floating-point weights. The weighting is the parameter `Luma`, whose only property is that it maps bytes to bytes (`LumaFits`).
- ConvertToQImage.MatToQImage: requires depth 8U or 16U. The CV_32F input path (×255 at :218) is floating-point numerics and is not modelled, although the source accepts that depth.
- CvMats.ConvertTo32F: its samples are exact reals v/255. Rounding to single precision is not modelled.
- ConvertToMat.ConversionRestoresMat: excludes a 3-channel Mat with order MCO_ARGB, for the reason on the next line.
- ConvertToMat.MatRoundTrip: not promised for a 3-channel Mat with order MCO_ARGB. MatToQImage swaps only MCO_BGR (:170-175), while QImageToMat swaps every order but MCO_RGB (:366-372), so that Mat comes back with red and blue swapped; `ThreeChannelArgbRoundTripSwaps` shows it for (10, 20, 30).
- `cv::saturate_cast` rounding of 16-bit samples that are not multiples of 255 is modelled exactly (`Narrow`).
- ConvertToMat.Saturate8: rounds ties up, where OpenCV's `saturate_cast<uchar>(float)` rounds them to even. It is only applied to the whole numbers 1, 255 and 65535 (`max_alpha`, :320-321), where no tie arises. No other rounding is modelled.
- Zero-copy sharing is not modelled. `mat.data`, `qimage.bits()` and the `const_cast` at :273-277 and :530-534 become values that carry the same pixels and stride, so aliasing and buffer lifetime are not captured.
- The `Q_ASSERT` checks (:16, :92, :146-151, :236-238, :300-306) become `requires` clauses.
- `src_order` is left uninitialised by the source for one-channel views and never read for them. The model starts it at MCO_BGR.
- `cv::cvtColor(..., CV_RGB2BGRA)` on a one-channel view (:433-435) is refused by OpenCV with an exception. It is modelled as the `CvtColorError` outcome, not as an exception unwinding the caller.
- The platform byte order (`Q_BYTE_ORDER`, :81) is the parameter `ByteOrder` rather than a compile-time choice.
- The stride of an image Qt allocates in `copy()` is taken to be rows padded to 32 bits (`QtStride`), as Qt documents.
- `ImageFilter/main.cpp` (application window, file dialog, `imread`, event loop) is UI and I/O and not part of this model.

## Findings

| source | as written | input that shows it | evidently intended | confidence | as-written member | corrected member |
|---|---|---|---|---|---|---|
| ImageFilter/base/convert.cpp:193-198 | the channel order a 4-channel Mat is put in is chosen from `format_hint`, not from the format resolved at :179-189 | a 4-channel MCO_RGBA Mat with hint Format_RGB888 on a little-endian platform: the format falls back to RGBA8888, but pixels are put in BGRA order, so red and blue are swapped in the view | choose the required order from the resolved `format`, so pixels are put in the order the view's format is read in | not executed | ConvertToQImage.MatToQImage, ConvertToQImage.AsWrittenSwapsRedAndBlue, ConvertFormats.RequiredOrderAsWrittenMismatch | ConvertToQImage.MatToQImageCorrected, ConvertFormats.RequiredOrderMatchesView |
| ImageFilter/base/convert.cpp:409-412 | the alpha plane has the 8-bit type of the shared view, so `cv::Scalar(max_alpha)` saturates to 255, 255 and 1 for 8U, 16U and CV_32F targets | a Grayscale8 image converted with type CV_32FC4 and order MCO_ARGB: alpha becomes 1/255 after the depth step, while order MCO_RGBA (cvtColor) gives 1.0. For 16U both paths give 65025 rather than the 65535 that max_alpha names | the alpha plane holds the 8-bit opacity 255, which the depth step scales like every other sample | not executed | ConvertToMat.QImageToMat, ConvertToMat.FloatAlphaAsWritten, ConvertToMat.AlphaPlaneAsWrittenFloatMismatch | ConvertToMat.QImageToMatCorrected, ConvertToMat.FloatAlphaCorrected, ConvertToMat.AlphaPlaneMatchesCvtColor |
