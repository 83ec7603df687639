/** The rendering value types and their C counterparts: `CefRect`/`cef_rect_t`,
    `CefPoint`/`cef_point_t`, `CefRange`/`cef_range_t`,
    `CefAcceleratedPaintInfo`/`cef_accelerated_paint_info_t` and
    `CefScreenInfo`/`cef_screen_info_t`. */
module RenderUtils {
  import opened CTypes

  datatype CefRect = CefRect(x: Int32, y: Int32, width: Int32, height: Int32)
  /** `cef_rect_t`. */
  datatype RawRect = RawRect(x: Int32, y: Int32, width: Int32, height: Int32)

  /** `CefRect::new()`, which is `CefRect::default()`. */
  function NewRect(): (r: CefRect)
    ensures r.x == 0 && r.y == 0 && r.width == 0 && r.height == 0
  {
    CefRect(0, 0, 0, 0)
  }

  /** `CefRect::from(&cef_rect_t)`, and `from_ptr` on the pointee. */
  function RectFrom(raw: RawRect): (r: CefRect)
    ensures r.x == raw.x && r.y == raw.y && r.width == raw.width && r.height == raw.height
  {
    CefRect(raw.x, raw.y, raw.width, raw.height)
  }

  /** `CefRect::into_raw`. */
  function RectIntoRaw(r: CefRect): (raw: RawRect)
    ensures raw.x == r.x && raw.y == r.y && raw.width == r.width && raw.height == r.height
  {
    RawRect(r.x, r.y, r.width, r.height)
  }

  /** The two conversions are inverse to each other. */
  lemma RectRoundTrip(r: CefRect, raw: RawRect)
    ensures RectFrom(RectIntoRaw(r)) == r
    ensures RectIntoRaw(RectFrom(raw)) == raw
  {
  }

  /** `CefRect::from_array(count, rects)`: exactly `count` rectangles, the i-th converted
      from `rects[i]`, in order. `rects` holds the rectangles the pointer addresses; CEF
      promises at least `count` of them. */
  function RectsFromArray(count: USize, rects: seq<RawRect>): (r: seq<CefRect>)
    requires count <= |rects|
    ensures |r| == count
    ensures forall i :: 0 <= i < count ==> RectIntoRaw(r[i]) == rects[i]
  {
    seq(count, i requires 0 <= i < count => RectFrom(rects[i]))
  }

  datatype CefPoint = CefPoint(x: Int32, y: Int32)
  /** `cef_point_t`. */
  datatype RawPoint = RawPoint(x: Int32, y: Int32)

  /** `CefPoint::new()`, which is `CefPoint::default()`. */
  function NewPoint(): (p: CefPoint)
    ensures p.x == 0 && p.y == 0
  {
    CefPoint(0, 0)
  }

  /** `CefPoint::into_raw`: both coordinates unchanged. */
  function PointIntoRaw(p: CefPoint): (raw: RawPoint)
    ensures raw.x == p.x && raw.y == p.y
  {
    RawPoint(p.x, p.y)
  }

  datatype CefRange = CefRange(from: UInt32, to: UInt32)
  /** `cef_range_t`. */
  datatype RawRange = RawRange(from: UInt32, to: UInt32)

  /** `CefRange::new()`, which is `CefRange::default()`. */
  function NewRange(): (r: CefRange)
    ensures r.from == 0 && r.to == 0
  {
    CefRange(0, 0)
  }

  /** `CefRange::from(&cef_range_t)`, and `from_ptr` on the pointee. */
  function RangeFrom(raw: RawRange): (r: CefRange)
    ensures r.from == raw.from && r.to == raw.to
  {
    CefRange(raw.from, raw.to)
  }

  /** `CefRange::into_raw`. */
  function RangeIntoRaw(r: CefRange): (raw: RawRange)
    ensures raw.from == r.from && raw.to == r.to
  {
    RawRange(r.from, r.to)
  }

  lemma RangeRoundTrip(r: CefRange, raw: RawRange)
    ensures RangeFrom(RangeIntoRaw(r)) == r
    ensures RangeIntoRaw(RangeFrom(raw)) == raw
  {
  }

  /** `cef_accelerated_paint_native_pixmap_plane_info_t`, copied as a whole. */
  datatype PlaneInfo = PlaneInfo(stride: UInt32, offset: UInt64, size: UInt64, fd: Int32)

  /** The fixed array `[PlaneInfo; 4]`. */
  type Planes = s: seq<PlaneInfo> | |s| == 4
    witness [PlaneInfo(0, 0, 0, 0), PlaneInfo(0, 0, 0, 0), PlaneInfo(0, 0, 0, 0), PlaneInfo(0, 0, 0, 0)]

  /** `cef_color_type_t`, an enumeration copied by value. */
  type ColorType = Int32

  datatype CefAcceleratedPaintInfo =
    CefAcceleratedPaintInfo(planes: Planes, planeCount: Int32, modifier: UInt64, format: ColorType)
  /** `cef_accelerated_paint_info_t`. */
  datatype RawAcceleratedPaintInfo =
    RawAcceleratedPaintInfo(planes: Planes, planeCount: Int32, modifier: UInt64, format: ColorType)

  /** `CefAcceleratedPaintInfo::from`, and `from_ptr` on the pointee. */
  function AcceleratedPaintInfoFrom(raw: RawAcceleratedPaintInfo): (info: CefAcceleratedPaintInfo)
    ensures info.planes == raw.planes && info.planeCount == raw.planeCount
    ensures info.modifier == raw.modifier && info.format == raw.format
  {
    CefAcceleratedPaintInfo(raw.planes, raw.planeCount, raw.modifier, raw.format)
  }

  /** `CefAcceleratedPaintInfo::into_raw`. */
  function AcceleratedPaintInfoIntoRaw(info: CefAcceleratedPaintInfo): (raw: RawAcceleratedPaintInfo)
    ensures raw.planes == info.planes && raw.planeCount == info.planeCount
    ensures raw.modifier == info.modifier && raw.format == info.format
  {
    RawAcceleratedPaintInfo(info.planes, info.planeCount, info.modifier, info.format)
  }

  lemma AcceleratedPaintInfoRoundTrip(info: CefAcceleratedPaintInfo, raw: RawAcceleratedPaintInfo)
    ensures AcceleratedPaintInfoFrom(AcceleratedPaintInfoIntoRaw(info)) == info
    ensures AcceleratedPaintInfoIntoRaw(AcceleratedPaintInfoFrom(raw)) == raw
  {
  }

  datatype CefScreenInfo = CefScreenInfo(
    deviceScaleFactor: Float32,
    depth: Int32,
    depthPerComponent: Int32,
    isMonochrome: bool,
    rect: CefRect,
    availableRect: CefRect)

  /** `cef_screen_info_t`. */
  datatype RawScreenInfo = RawScreenInfo(
    deviceScaleFactor: Float32,
    depth: Int32,
    depthPerComponent: Int32,
    isMonochrome: Int32,
    rect: RawRect,
    availableRect: RawRect)

  /** `CefScreenInfo::from`, and `from_mut_ptr` on the pointee: `is_monochrome` is decoded
      as `> 0`, everything else is copied. */
  function ScreenInfoFrom(raw: RawScreenInfo): (info: CefScreenInfo)
    ensures info.isMonochrome <==> raw.isMonochrome > 0
    ensures info.deviceScaleFactor == raw.deviceScaleFactor
    ensures info.depth == raw.depth && info.depthPerComponent == raw.depthPerComponent
    ensures RectIntoRaw(info.rect) == raw.rect && RectIntoRaw(info.availableRect) == raw.availableRect
  {
    CefScreenInfo(
      raw.deviceScaleFactor,
      raw.depth,
      raw.depthPerComponent,
      CIntToBool(raw.isMonochrome),
      RectFrom(raw.rect),
      RectFrom(raw.availableRect))
  }

  /** `CefScreenInfo::into_raw`: `is_monochrome` is encoded as 0 or 1. */
  function ScreenInfoIntoRaw(info: CefScreenInfo): (raw: RawScreenInfo)
    ensures raw.isMonochrome == 0 || raw.isMonochrome == 1
    ensures raw.isMonochrome == 1 <==> info.isMonochrome
    ensures raw.deviceScaleFactor == info.deviceScaleFactor
    ensures raw.depth == info.depth && raw.depthPerComponent == info.depthPerComponent
    ensures raw.rect == RectIntoRaw(info.rect) && raw.availableRect == RectIntoRaw(info.availableRect)
  {
    RawScreenInfo(
      info.deviceScaleFactor,
      info.depth,
      info.depthPerComponent,
      BoolToCInt(info.isMonochrome),
      RectIntoRaw(info.rect),
      RectIntoRaw(info.availableRect))
  }

  /** A screen info survives `into_raw` then `from`; a raw one survives `from` then
      `into_raw` exactly when its `is_monochrome` is already 0 or 1. */
  lemma ScreenInfoRoundTrip(info: CefScreenInfo, raw: RawScreenInfo)
    ensures ScreenInfoFrom(ScreenInfoIntoRaw(info)) == info
    ensures ScreenInfoIntoRaw(ScreenInfoFrom(raw)) == raw <==> raw.isMonochrome == 0 || raw.isMonochrome == 1
  {
  }
}
