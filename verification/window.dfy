/** `WindowInfo` and its conversions from and to `cef_window_info_t`, and the
    `WindowDelegate` defaults and `can_close` trampoline. */
module Windows {
  import opened Wrappers
  import opened CTypes
  import opened Strings
  import opened RenderUtils

  datatype WindowInfo = WindowInfo(
    windowName: CefString,
    bounds: CefRect,
    parentWindow: UInt64,
    windowlessRenderingEnabled: bool,
    sharedTextureEnabled: bool,
    externalBeginFrameEnabled: bool,
    window: UInt64)

  /** `cef_window_info_t`; the two window handles are `c_ulong`, stored here as their
      value. */
  datatype RawWindowInfo = RawWindowInfo(
    windowName: RawString,
    bounds: RawRect,
    parentWindow: UInt64,
    windowlessRenderingEnabled: Int32,
    sharedTextureEnabled: Int32,
    externalBeginFrameEnabled: Int32,
    window: UInt64)

  const DEFAULT_WINDOW_TEXT: string := "UwU"

  /** The UTF-16 code units of "UwU". */
  const DEFAULT_WINDOW_NAME: seq<bv16> := [0x55, 0x77, 0x55]

  /** "UwU" holds no NUL, and its UTF-16 code units are `DEFAULT_WINDOW_NAME`. */
  lemma DefaultWindowText()
    ensures '\0' !in DEFAULT_WINDOW_TEXT
    ensures Utf16(DEFAULT_WINDOW_TEXT) == DEFAULT_WINDOW_NAME
  {
    var u, w := 'U', 'w';
    assert Utf16Char(u) == [0x55];
    assert Utf16Char(w) == [0x77];
    assert Utf16([u]) == [0x55];
    assert Utf16([w, u]) == [0x77, 0x55];
    assert DEFAULT_WINDOW_TEXT == [u, w, u];
  }

  /** `WindowInfo::default()`: named "UwU", bounds (0, 0, 1280, 720), no parent or window
      handle, and every flag off. */
  function DefaultWindowInfo(): (info: WindowInfo)
    ensures info.windowName == DEFAULT_WINDOW_NAME
    ensures info.bounds == CefRect(0, 0, 1280, 720)
    ensures info.parentWindow == 0 && info.window == 0
    ensures !info.windowlessRenderingEnabled && !info.sharedTextureEnabled && !info.externalBeginFrameEnabled
  {
    DefaultWindowText();
    var name := New(DEFAULT_WINDOW_TEXT);
    WindowInfo(name.value, CefRect(0, 0, 1280, 720), 0, false, false, false, 0)
  }

  /** `WindowInfo::new()`, which is the default. */
  function NewWindowInfo(): (info: WindowInfo)
    ensures info == DefaultWindowInfo()
  {
    DefaultWindowInfo()
  }

  /** `WindowInfo::into_raw` taking the window info by reference, so that it outlives the
      struct, on a target whose `c_ulong` has width `w`: the name becomes a borrowed view, the bounds go through `CefRect::into_raw`, the flags become 0 or 1,
      and the handles are cast to `c_ulong` (truncated when it is 32 bits wide). */
  function WindowInfoIntoRaw(w: CULongWidth, info: WindowInfo): (raw: RawWindowInfo)
    ensures BorrowedView(raw.windowName, info.windowName)
    ensures raw.bounds == RectIntoRaw(info.bounds)
    ensures raw.parentWindow < CULongLimit(w) && raw.window < CULongLimit(w)
    ensures (raw.parentWindow - info.parentWindow) % CULongLimit(w) == 0
    ensures (raw.window - info.window) % CULongLimit(w) == 0
    ensures raw.windowlessRenderingEnabled == BoolToCInt(info.windowlessRenderingEnabled)
    ensures raw.sharedTextureEnabled == BoolToCInt(info.sharedTextureEnabled)
    ensures raw.externalBeginFrameEnabled == BoolToCInt(info.externalBeginFrameEnabled)
  {
    RawWindowInfo(
      Strings.GetRaw(info.windowName),
      RectIntoRaw(info.bounds),
      U64AsCULong(w, info.parentWindow),
      BoolToCInt(info.windowlessRenderingEnabled),
      BoolToCInt(info.sharedTextureEnabled),
      BoolToCInt(info.externalBeginFrameEnabled),
      U64AsCULong(w, info.window))
  }

  /** `WindowInfo::into_raw` as written: it takes the window info by value, lends out its
      name through `get_raw`, and drops it when it returns. Every field is what the
      by-reference conversion gives, except that the name can no longer be read. */
  function WindowInfoIntoRawAsWritten(w: CULongWidth, info: WindowInfo): (raw: RawWindowInfo)
    ensures !Readable(raw.windowName)
    ensures raw == WindowInfoIntoRaw(w, info).(windowName := raw.windowName)
  {
    var lent := WindowInfoIntoRaw(w, info);
    lent.(windowName := Release(lent.windowName))
  }

  /** The struct `into_raw` returns as written cannot be converted back, since `from` would
      read a freed name; the by-reference conversion can. */
  lemma {:induction false} AsWrittenNameDangles(w: CULongWidth, info: WindowInfo)
    ensures !Readable(WindowInfoIntoRawAsWritten(w, info).windowName)
    ensures Readable(WindowInfoIntoRaw(w, info).windowName)
  {
  }

  const WINDOW_NAME_MESSAGE := "Issue converting window_name string"

  /** `From<&cef_window_info_t> for WindowInfo`: it panics exactly when the name does not
      convert; otherwise the flags are decoded as `> 0`, the handles are widened to `u64`
      (which keeps their value) and the bounds are copied. */
  function WindowInfoFrom(raw: RawWindowInfo): (r: Panicking<WindowInfo>)
    requires Readable(raw.windowName)
    ensures r.Returns? <==> Convertible(raw.windowName)
    ensures r.Panics? ==> r.message == WINDOW_NAME_MESSAGE
    ensures r.Returns? ==> r.value.windowName == Content(raw.windowName)
    ensures r.Returns? ==> RectIntoRaw(r.value.bounds) == raw.bounds
    ensures r.Returns? ==> r.value.parentWindow == raw.parentWindow && r.value.window == raw.window
    ensures r.Returns? ==> (r.value.windowlessRenderingEnabled <==> raw.windowlessRenderingEnabled > 0)
    ensures r.Returns? ==> (r.value.sharedTextureEnabled <==> raw.sharedTextureEnabled > 0)
    ensures r.Returns? ==> (r.value.externalBeginFrameEnabled <==> raw.externalBeginFrameEnabled > 0)
  {
    var windowName :- Expect(TryFrom(raw.windowName), WINDOW_NAME_MESSAGE);
    Returns(WindowInfo(
      windowName,
      RectFrom(raw.bounds),
      raw.parentWindow,
      CIntToBool(raw.windowlessRenderingEnabled),
      CIntToBool(raw.sharedTextureEnabled),
      CIntToBool(raw.externalBeginFrameEnabled),
      raw.window))
  }

  /** `into_raw` by reference then `from`: the name, the bounds and the three flags always survive; the
      two handles survive unchanged when `c_ulong` is 64 bits wide, and are reduced modulo
      2^32 when it is 32 bits wide. */
  lemma {:induction false} WindowInfoRoundTrip(w: CULongWidth, info: WindowInfo)
    ensures WindowInfoFrom(WindowInfoIntoRaw(w, info)).Returns?
    ensures var back := WindowInfoFrom(WindowInfoIntoRaw(w, info)).value;
      && back.windowName == info.windowName
      && back.bounds == info.bounds
      && back.windowlessRenderingEnabled == info.windowlessRenderingEnabled
      && back.sharedTextureEnabled == info.sharedTextureEnabled
      && back.externalBeginFrameEnabled == info.externalBeginFrameEnabled
      && (w == ULong64 ==> back == info)
      && (w == ULong32 ==> back.parentWindow == info.parentWindow % TWO_32 && back.window == info.window % TWO_32)
  {
    BorrowedViewRoundTrip(WindowInfoIntoRaw(w, info).windowName, info.windowName);
    RectRoundTrip(info.bounds, RectIntoRaw(info.bounds));
    CULongRoundTrip(w, info.parentWindow);
    CULongRoundTrip(w, info.window);
  }

  /** `WindowDelegate::can_close`'s default answer: the window may close. */
  const DEFAULT_CAN_CLOSE: bool := true

  /** The `can_close` trampoline: the delegate's answer as `i32`, 1 for true and 0 for
      false. */
  function CanClose(answer: bool): (code: Int32)
    ensures code == 0 || code == 1
    ensures code == 1 <==> answer
  {
    BoolToCInt(answer)
  }

  /** A delegate that keeps the default lets every window close. */
  lemma DefaultCanClose()
    ensures CanClose(DEFAULT_CAN_CLOSE) == 1
  {
  }
}
