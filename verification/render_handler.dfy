/** The `cef_render_handler_t` trampolines: how a `RenderHandler`'s answers become C return
    codes and writes through out-pointers, and how C arguments become the trait's arguments. */
module RenderHandlers {
  import opened Wrappers
  import opened CTypes
  import opened Strings
  import opened RenderUtils

  /** A `cef_rect_t` owned by CEF and passed by pointer for the handler to fill in. */
  class RectSlot {
    var x: Int32
    var y: Int32
    var width: Int32
    var height: Int32

    constructor(raw: RawRect)
      ensures Contents() == raw
    {
      x, y, width, height := raw.x, raw.y, raw.width, raw.height;
    }

    function Contents(): RawRect
      reads this
    {
      RawRect(x, y, width, height)
    }
  }

  /** A `c_int` owned by CEF and passed by pointer for the handler to fill in. */
  class IntSlot {
    var value: Int32

    constructor(v: Int32)
      ensures value == v
    {
      value := v;
    }
  }

  /** A `cef_screen_info_t` owned by CEF and passed by pointer for the handler to fill in. */
  class ScreenInfoSlot {
    var contents: RawScreenInfo

    constructor(raw: RawScreenInfo)
      ensures contents == raw
    {
      contents := raw;
    }
  }

  /** The accessibility handler object CEF may ask for. */
  datatype AccessibilityHandler = AccessibilityHandler(address: nat)

  // The trait's default answers, and those of the `()` implementation.

  /** `RenderHandler::get_root_screen_rect` by default (and for `()`): no root rectangle. */
  function DefaultGetRootScreenRect(): (r: Option<CefRect>)
    ensures r.None?
  {
    None
  }

  /** `RenderHandler::get_screen_point` by default: no mapping for any view point. */
  function DefaultGetScreenPoint(view: CefPoint): (r: Option<CefPoint>)
    ensures r.None?
  {
    None
  }

  /** `RenderHandler::get_screen_info` by default: the screen info is not provided. */
  function DefaultGetScreenInfo(info: CefScreenInfo): (provided: bool)
    ensures !provided
  {
    false
  }

  /** `get_view_rect` of the `()` implementation: `CefRect::default()`, the empty rectangle
      at the origin. */
  function UnitGetViewRect(): (r: CefRect)
    ensures r.x == 0 && r.y == 0 && r.width == 0 && r.height == 0
  {
    NewRect()
  }

  /** The notifications CEF delivers through the render handler, carrying the arguments the
      trampolines hand to the trait. */
  datatype RenderCallback =
    | PopupShow(show: bool)
    | PopupSize(rect: CefRect)
    | Paint(elementType: Int32, dirtyRects: seq<CefRect>, bytes: seq<bv8>, width: Int32, height: Int32)
    | AcceleratedPaint(elementType: Int32, paintRects: seq<CefRect>, info: CefAcceleratedPaintInfo)
    | UpdateDragCursor(operation: Int32)
    | ScrollOffsetChanged(scrollX: Float64, scrollY: Float64)
    | ImeCompositionRangeChanged(selectedRange: CefRange, characterBounds: seq<CefRect>)
    | TextSelectionChanged(selectedText: CefString, textRange: CefRange)
    | VirtualKeyboardRequested(inputMode: Int32)

  /** The message of a bare `panic!()`. */
  const EXPLICIT_PANIC := "explicit panic"

  /** The trait's default bodies: `on_paint`, `on_accelerated_paint` and
      `on_virtual_keyboard_requested` only log, every other notification is `panic!()`. */
  function DefaultCallback(call: RenderCallback): (r: Panicking<()>)
    ensures r.Panics? <==> !(call.Paint? || call.AcceleratedPaint? || call.VirtualKeyboardRequested?)
    ensures r.Panics? ==> r.message == EXPLICIT_PANIC
  {
    match call
    case Paint(_, _, _, _, _) => Returns(())
    case AcceleratedPaint(_, _, _) => Returns(())
    case VirtualKeyboardRequested(_) => Returns(())
    case _ => Panics(EXPLICIT_PANIC)
  }

  // The trampolines.

  /** `get_accessibility_handler`: never provides one. */
  function GetAccessibilityHandler(): (p: Ptr<AccessibilityHandler>)
    ensures p.Null?
  {
    Null
  }

  /** `get_root_screen_rect`, given what the handler answered: 1 exactly when it answered
      `Some`, in which case the rectangle is copied into a non-null `rect`; a null `rect` is
      skipped and 1 is still returned; on `None` nothing is written. */
  method GetRootScreenRect(res: Option<CefRect>, rect: RectSlot?) returns (code: Int32)
    modifies rect
    ensures code == 1 <==> res.Some?
    ensures code == 0 <==> res.None?
    ensures res.Some? && rect != null ==> rect.Contents() == RectIntoRaw(res.value)
    ensures res.None? && rect != null ==> unchanged(rect)
  {
    if res.Some? {
      if rect != null {
        var r := res.value;
        rect.x := r.x;
        rect.y := r.y;
        rect.width := r.width;
        rect.height := r.height;
      }
      code := 1;
    } else {
      code := 0;
    }
  }

  /** `get_view_rect`, given the handler's rectangle: copied into `rect` unless it is null. */
  method GetViewRect(res: CefRect, rect: RectSlot?)
    modifies rect
    ensures rect != null ==> rect.Contents() == RectIntoRaw(res)
  {
    if rect != null {
      rect.x := res.x;
      rect.y := res.y;
      rect.width := res.width;
      rect.height := res.height;
    }
  }

  /** `get_screen_point`: the view coordinates are passed to the handler as a `CefPoint`; on
      `Some(p)` the trampoline writes `p.x` then `p.y` through the two pointers (which it does
      not check for null) and returns 1; on `None` it returns 0 and writes nothing. When both
      pointers address the same `c_int`, the later write of `p.y` is what remains. */
  method GetScreenPoint(
    getScreenPoint: CefPoint -> Option<CefPoint>,
    viewX: Int32,
    viewY: Int32,
    screenX: IntSlot,
    screenY: IntSlot
  ) returns (code: Int32)
    modifies screenX, screenY
    ensures var p := getScreenPoint(CefPoint(viewX, viewY));
      && (code == 1 <==> p.Some?)
      && (code == 0 <==> p.None?)
      && (p.Some? ==> screenY.value == p.value.y)
      && (p.Some? && screenX != screenY ==> screenX.value == p.value.x)
      && (p.None? ==> unchanged(screenX, screenY))
  {
    var screenPoint := getScreenPoint(CefPoint(viewX, viewY));
    if screenPoint.Some? {
      screenX.value := screenPoint.value.x;
      screenY.value := screenPoint.value.y;
      code := 1;
    } else {
      code := 0;
    }
  }

  /** `get_screen_info`: the handler sees a copy of the screen info and its answer becomes
      1 or 0; the C struct is never written. */
  function GetScreenInfo(screenInfo: RawScreenInfo, getScreenInfo: CefScreenInfo -> bool): (code: Int32)
    ensures code == 0 || code == 1
    ensures code == 1 <==> getScreenInfo(ScreenInfoFrom(screenInfo))
  {
    BoolToCInt(getScreenInfo(ScreenInfoFrom(screenInfo)))
  }

  /** `get_screen_info` with the handler given the screen info by mutable reference: it
      answers whether it filled it in, and then what it filled in is written back to CEF's
      struct; on false the struct is left as it was. */
  method GetScreenInfoFilling(
    screenInfo: ScreenInfoSlot,
    fill: CefScreenInfo -> (bool, CefScreenInfo)
  ) returns (code: Int32)
    modifies screenInfo
    ensures code == 0 || code == 1
    ensures code == 1 <==> fill(ScreenInfoFrom(old(screenInfo.contents))).0
    ensures code == 1 ==> screenInfo.contents == ScreenInfoIntoRaw(fill(ScreenInfoFrom(old(screenInfo.contents))).1)
    ensures code == 0 ==> screenInfo.contents == old(screenInfo.contents)
  {
    var answer := fill(ScreenInfoFrom(screenInfo.contents));
    if answer.0 {
      screenInfo.contents := ScreenInfoIntoRaw(answer.1);
    }
    code := BoolToCInt(answer.0);
  }

  /** A handler that reports a depth of 24 on a screen CEF described with depth 0: as
      written CEF is told 1 and its struct still says 0; with the write-back it says 24. */
  method FilledScreenInfoIsLost() returns (asWrittenCode: Int32, asWrittenDepth: Int32, filledDepth: Int32)
    ensures asWrittenCode == 1 && asWrittenDepth == 0
    ensures filledDepth == 24
  {
    var zero := RawRect(0, 0, 0, 0);
    var raw := RawScreenInfo(Float32(0), 0, 0, 0, zero, zero);
    var fill := (info: CefScreenInfo) => (true, info.(depth := 24));
    var slot := new ScreenInfoSlot(raw);
    asWrittenCode := GetScreenInfo(slot.contents, info => fill(info).0);
    asWrittenDepth := slot.contents.depth;
    var code := GetScreenInfoFilling(slot, fill);
    filledDepth := slot.contents.depth;
  }

  /** With the trait's default `get_screen_info`, CEF is always told 0. */
  lemma DefaultScreenInfoNotProvided(screenInfo: RawScreenInfo)
    ensures GetScreenInfo(screenInfo, DefaultGetScreenInfo) == 0
  {
  }

  /** `on_popup_show`: the C flag is read as `show > 0`. */
  function OnPopupShow(show: Int32): (call: RenderCallback)
    ensures call.PopupShow?
    ensures call.show <==> show > 0
  {
    PopupShow(show > 0)
  }

  /** A flag that CEF encodes as 0/1 reaches the handler unchanged. */
  lemma {:induction false} OnPopupShowRoundTrip(show: bool)
    ensures OnPopupShow(BoolToCInt(show)).show == show
  {
    BoolRoundTrip(show, BoolToCInt(show));
  }

  /** `on_popup_size`: the rectangle behind the pointer, converted with `CefRect::from`. */
  function OnPopupSize(rect: RawRect): (call: RenderCallback)
    ensures call.PopupSize? && RectIntoRaw(call.rect) == rect
  {
    PopupSize(RectFrom(rect))
  }

  /** `(width * height * 4) as usize` as written: the product is computed in `i32`, which a
      release build wraps, and the `i32` is then sign-extended to `usize`. It is the exact
      byte count only while that count stays below 2^31. */
  function PaintByteCountAsWritten(width: Int32, height: Int32): (n: USize)
    ensures 0 <= width * height * 4 < TWO_31 ==> n == width * height * 4
  {
    CIntAsUsize(WrappingI32(width * height * 4))
  }

  /** A 32768 x 16384 frame has 2^31 bytes, but the wrapped product is `i32::MIN`, and the
      slice handed to the handler claims 2^64 - 2^31 bytes. A 65536 x 16384 frame gets an
      empty slice. */
  lemma PaintByteCountOverflow()
    ensures PaintByteCountAsWritten(32768, 16384) == TWO_64 - TWO_31
    ensures 32768 * 16384 * 4 == TWO_31
    ensures PaintByteCountAsWritten(65536, 16384) == 0
  {
  }

  lemma MulLeftMonotone(a: int, b: int, c: int)
    requires 0 <= a <= c && 0 <= b
    ensures a * b <= c * b
  {
  }

  lemma {:induction false} MulMonotone(a: int, b: int, bound: int)
    requires 0 <= a <= bound && 0 <= b <= bound
    ensures a * b <= bound * bound
  {
    MulLeftMonotone(a, b, bound);
    MulLeftMonotone(b, bound, bound);
    assert b * bound == bound * b;
  }

  /** The evidently intended byte count of a BGRA frame: 4 bytes for each of the
      `width * height` pixels, computed without overflow; it always fits a 64-bit `usize`. */
  function PaintByteCount(width: Int32, height: Int32): (n: USize)
    requires width >= 0 && height >= 0
    ensures n % 4 == 0 && n / 4 == width * height
  {
    var pixels := width * height;
    MulMonotone(width, height, TWO_31 - 1);
    FourBytesEach(pixels);
    pixels * 4
  }

  lemma FourBytesEach(pixels: nat)
    requires pixels <= (TWO_31 - 1) * (TWO_31 - 1)
    ensures pixels * 4 < TWO_64
    ensures (pixels * 4) % 4 == 0 && (pixels * 4) / 4 == pixels
  {
  }

  /** The written and the intended byte counts agree exactly when the frame has fewer than
      2^31 bytes. */
  lemma {:induction false} PaintByteCountAgreement(width: Int32, height: Int32)
    requires width >= 0 && height >= 0
    ensures PaintByteCountAsWritten(width, height) == PaintByteCount(width, height)
      <==> width * height * 4 < TWO_31
  {
    var n := width * height * 4;
    MulMonotone(width, height, TWO_31 - 1);
    assert (TWO_31 - 1) * (TWO_31 - 1) * 4 < TWO_64 - TWO_31;
    var v := WrappingI32(n);
    if n >= TWO_31 {
      if v >= 0 {
        assert CIntAsUsize(v) == v < TWO_31;
      } else {
        assert CIntAsUsize(v) == v + TWO_64;
      }
    }
  }

  /** `on_paint`: `dirty_rects_count` rectangles converted in order, and the pixel buffer as a
      slice of the frame's byte count (the intended count; see `PaintByteCountAsWritten` for
      the one written). `buffer` holds the bytes the pointer addresses. */
  function OnPaint(
    elementType: Int32,
    dirtyRectsCount: USize,
    dirtyRects: seq<RawRect>,
    buffer: seq<bv8>,
    width: Int32,
    height: Int32
  ): (call: RenderCallback)
    requires dirtyRectsCount <= |dirtyRects|
    requires width >= 0 && height >= 0
    requires PaintByteCount(width, height) <= |buffer|
    ensures call.Paint? && call.elementType == elementType
    ensures call.width == width && call.height == height
    ensures |call.dirtyRects| == dirtyRectsCount
    ensures forall i :: 0 <= i < dirtyRectsCount ==> RectIntoRaw(call.dirtyRects[i]) == dirtyRects[i]
    ensures |call.bytes| == 4 * width * height
    ensures call.bytes <= buffer
  {
    var bytes := buffer[..PaintByteCount(width, height)];
    Paint(elementType, RectsFromArray(dirtyRectsCount, dirtyRects), bytes, width, height)
  }

  /** `on_accelerated_paint`: the dirty rectangles converted in order and the shared-texture
      description copied. */
  function OnAcceleratedPaint(
    elementType: Int32,
    dirtyRectsCount: USize,
    dirtyRects: seq<RawRect>,
    info: RawAcceleratedPaintInfo
  ): (call: RenderCallback)
    requires dirtyRectsCount <= |dirtyRects|
    ensures call.AcceleratedPaint? && call.elementType == elementType
    ensures |call.paintRects| == dirtyRectsCount
    ensures forall i :: 0 <= i < dirtyRectsCount ==> RectIntoRaw(call.paintRects[i]) == dirtyRects[i]
    ensures AcceleratedPaintInfoIntoRaw(call.info) == info
  {
    AcceleratedPaint(elementType, RectsFromArray(dirtyRectsCount, dirtyRects), AcceleratedPaintInfoFrom(info))
  }

  /** `start_dragging`: dragging is never started; CEF is always told 0. */
  function StartDragging(allowedOps: Int32, x: Int32, y: Int32): (code: Int32)
    ensures code == 0
  {
    0
  }

  /** `on_scroll_offset_changed`: both offsets forwarded as they are. */
  function OnScrollOffsetChanged(x: Float64, y: Float64): (call: RenderCallback)
    ensures call.ScrollOffsetChanged? && call.scrollX == x && call.scrollY == y
  {
    ScrollOffsetChanged(x, y)
  }

  /** `on_ime_composition_range_changed`: the range behind the pointer and the character
      bounds converted in order. */
  function OnImeCompositionRangeChanged(
    selectedRange: RawRange,
    characterBoundsCount: USize,
    characterBounds: seq<RawRect>
  ): (call: RenderCallback)
    requires characterBoundsCount <= |characterBounds|
    ensures call.ImeCompositionRangeChanged?
    ensures RangeIntoRaw(call.selectedRange) == selectedRange
    ensures |call.characterBounds| == characterBoundsCount
    ensures forall i :: 0 <= i < characterBoundsCount ==>
      RectIntoRaw(call.characterBounds[i]) == characterBounds[i]
  {
    ImeCompositionRangeChanged(RangeFrom(selectedRange), RectsFromArray(characterBoundsCount, characterBounds))
  }

  const SELECTED_TEXT_MESSAGE := "Error executing CefString::from_raw"

  /** `on_text_selection_changed`: the selected text must convert; a null pointer or a text
      holding a NUL makes the trampoline panic before the handler runs. */
  function OnTextSelectionChanged(selectedText: Ptr<RawString>, selectedRange: RawRange): (r: Panicking<RenderCallback>)
    requires selectedText.NonNull? ==> Readable(selectedText.target)
    ensures r.Returns? <==> selectedText.NonNull? && Convertible(selectedText.target)
    ensures r.Returns? ==>
      && r.value.TextSelectionChanged?
      && r.value.selectedText == Content(selectedText.target)
      && RangeIntoRaw(r.value.textRange) == selectedRange
    ensures r.Panics? ==> r.message == SELECTED_TEXT_MESSAGE
  {
    var text :- Expect(FromRaw(selectedText), SELECTED_TEXT_MESSAGE);
    Returns(TextSelectionChanged(text, RangeFrom(selectedRange)))
  }
}
