/** `BrowserSettings` and its conversions from and to `cef_browser_settings_t`, and the
    getters of the `Browser`, `BrowserHost` and `BrowserView` handles. */
module Browsers {
  import opened Wrappers
  import opened CTypes
  import opened Strings

  /** `cef_state_t`. */
  datatype State = StateDefault | StateEnabled | StateDisabled

  datatype BrowserSettings = BrowserSettings(
    windowlessFrameRate: USize,
    standardFontFamily: CefString,
    fixedFontFamily: CefString,
    serifFontFamily: CefString,
    sansSerifFontFamily: CefString,
    cursiveFontFamily: CefString,
    fantasyFontFamily: CefString,
    defaultFontSize: UInt32,
    defaultFixedFontSize: UInt32,
    minimumFontSize: UInt32,
    minimumLogicalFontSize: UInt32,
    defaultEncoding: CefString,
    remoteFonts: State,
    javascript: State,
    javascriptCloseWindows: State,
    javascriptAccessClipboard: State,
    javascriptDomPaste: State,
    imageLoading: State,
    imageShrinkStandaloneToFit: State,
    textAreaResize: State,
    tabToLinks: State,
    localStorage: State,
    databases: State,
    webgl: State,
    backgroundColor: UInt32,
    chromeStatusBubble: State,
    chromeZoomBubble: State)

  /** `cef_browser_settings_t`. */
  datatype RawBrowserSettings = RawBrowserSettings(
    size: USize,
    windowlessFrameRate: Int32,
    standardFontFamily: RawString,
    fixedFontFamily: RawString,
    serifFontFamily: RawString,
    sansSerifFontFamily: RawString,
    cursiveFontFamily: RawString,
    fantasyFontFamily: RawString,
    defaultFontSize: Int32,
    defaultFixedFontSize: Int32,
    minimumFontSize: Int32,
    minimumLogicalFontSize: Int32,
    defaultEncoding: RawString,
    remoteFonts: State,
    javascript: State,
    javascriptCloseWindows: State,
    javascriptAccessClipboard: State,
    javascriptDomPaste: State,
    imageLoading: State,
    imageShrinkStandaloneToFit: State,
    textAreaResize: State,
    tabToLinks: State,
    localStorage: State,
    databases: State,
    webgl: State,
    backgroundColor: UInt32,
    chromeStatusBubble: State,
    chromeZoomBubble: State)

  /** All fourteen `State` fields. */
  function States(b: BrowserSettings): (states: seq<State>)
    ensures |states| == 14
  {
    [b.remoteFonts, b.javascript, b.javascriptCloseWindows, b.javascriptAccessClipboard,
     b.javascriptDomPaste, b.imageLoading, b.imageShrinkStandaloneToFit, b.textAreaResize,
     b.tabToLinks, b.localStorage, b.databases, b.webgl, b.chromeStatusBubble, b.chromeZoomBubble]
  }

  /** `BrowserSettings::default()`: every `State` is `STATE_DEFAULT`, every number is 0 and
      every string is empty. */
  function DefaultBrowserSettings(): (b: BrowserSettings)
    ensures forall st | st in States(b) :: st == StateDefault
    ensures b.windowlessFrameRate == 0 && b.backgroundColor == 0
    ensures b.defaultFontSize == 0 && b.defaultFixedFontSize == 0
    ensures b.minimumFontSize == 0 && b.minimumLogicalFontSize == 0
    ensures b.standardFontFamily == [] && b.fixedFontFamily == [] && b.serifFontFamily == []
    ensures b.sansSerifFontFamily == [] && b.cursiveFontFamily == [] && b.fantasyFontFamily == []
    ensures b.defaultEncoding == []
  {
    BrowserSettings(
      0, [], [], [], [], [], [], 0, 0, 0, 0, [],
      StateDefault, StateDefault, StateDefault, StateDefault, StateDefault, StateDefault,
      StateDefault, StateDefault, StateDefault, StateDefault, StateDefault, StateDefault,
      0, StateDefault, StateDefault)
  }

  /** `BrowserSettings::into_raw` taking the settings by reference, so that they outlive the
      struct. `browserSettingsSize` is `size_of::<cef_browser_settings_t>()` on the target.
      The frame rate is truncated from `usize` to `c_int`, the font sizes reinterpreted from
      `u32`, strings become borrowed views, and the states and the color are copied. */
  function IntoRaw(browserSettingsSize: USize, b: BrowserSettings): (raw: RawBrowserSettings)
    ensures raw.size == browserSettingsSize
    ensures SameLow32(raw.windowlessFrameRate, b.windowlessFrameRate)
    ensures SameLow32(raw.defaultFontSize, b.defaultFontSize)
    ensures SameLow32(raw.defaultFixedFontSize, b.defaultFixedFontSize)
    ensures SameLow32(raw.minimumFontSize, b.minimumFontSize)
    ensures SameLow32(raw.minimumLogicalFontSize, b.minimumLogicalFontSize)
    ensures BorrowedView(raw.standardFontFamily, b.standardFontFamily)
    ensures BorrowedView(raw.fixedFontFamily, b.fixedFontFamily)
    ensures BorrowedView(raw.serifFontFamily, b.serifFontFamily)
    ensures BorrowedView(raw.sansSerifFontFamily, b.sansSerifFontFamily)
    ensures BorrowedView(raw.cursiveFontFamily, b.cursiveFontFamily)
    ensures BorrowedView(raw.fantasyFontFamily, b.fantasyFontFamily)
    ensures BorrowedView(raw.defaultEncoding, b.defaultEncoding)
    ensures raw.backgroundColor == b.backgroundColor
    ensures RawStates(raw) == States(b)
  {
    RawBrowserSettings(
      browserSettingsSize,
      UsizeAsCInt(b.windowlessFrameRate),
      Strings.GetRaw(b.standardFontFamily),
      Strings.GetRaw(b.fixedFontFamily),
      Strings.GetRaw(b.serifFontFamily),
      Strings.GetRaw(b.sansSerifFontFamily),
      Strings.GetRaw(b.cursiveFontFamily),
      Strings.GetRaw(b.fantasyFontFamily),
      U32AsCInt(b.defaultFontSize),
      U32AsCInt(b.defaultFixedFontSize),
      U32AsCInt(b.minimumFontSize),
      U32AsCInt(b.minimumLogicalFontSize),
      Strings.GetRaw(b.defaultEncoding),
      b.remoteFonts,
      b.javascript,
      b.javascriptCloseWindows,
      b.javascriptAccessClipboard,
      b.javascriptDomPaste,
      b.imageLoading,
      b.imageShrinkStandaloneToFit,
      b.textAreaResize,
      b.tabToLinks,
      b.localStorage,
      b.databases,
      b.webgl,
      b.backgroundColor,
      b.chromeStatusBubble,
      b.chromeZoomBubble)
  }

  /** `BrowserSettings::into_raw` as written: it takes the settings by value, lends out
      their strings through `get_raw`, and drops them when it returns. Every field is what
      the by-reference conversion gives, except that no string view can be read any more. */
  function IntoRawAsWritten(browserSettingsSize: USize, b: BrowserSettings): (raw: RawBrowserSettings)
    ensures !Readable(raw.standardFontFamily) && !Readable(raw.fixedFontFamily)
    ensures !Readable(raw.serifFontFamily) && !Readable(raw.sansSerifFontFamily)
    ensures !Readable(raw.cursiveFontFamily) && !Readable(raw.fantasyFontFamily)
    ensures !Readable(raw.defaultEncoding)
    ensures raw == IntoRaw(browserSettingsSize, b).(
      standardFontFamily := raw.standardFontFamily,
      fixedFontFamily := raw.fixedFontFamily,
      serifFontFamily := raw.serifFontFamily,
      sansSerifFontFamily := raw.sansSerifFontFamily,
      cursiveFontFamily := raw.cursiveFontFamily,
      fantasyFontFamily := raw.fantasyFontFamily,
      defaultEncoding := raw.defaultEncoding)
  {
    var lent := IntoRaw(browserSettingsSize, b);
    lent.(
      standardFontFamily := Release(lent.standardFontFamily),
      fixedFontFamily := Release(lent.fixedFontFamily),
      serifFontFamily := Release(lent.serifFontFamily),
      sansSerifFontFamily := Release(lent.sansSerifFontFamily),
      cursiveFontFamily := Release(lent.cursiveFontFamily),
      fantasyFontFamily := Release(lent.fantasyFontFamily),
      defaultEncoding := Release(lent.defaultEncoding))
  }

  /** All fourteen `State` fields of the raw struct. */
  function RawStates(raw: RawBrowserSettings): (states: seq<State>)
    ensures |states| == 14
  {
    [raw.remoteFonts, raw.javascript, raw.javascriptCloseWindows, raw.javascriptAccessClipboard,
     raw.javascriptDomPaste, raw.imageLoading, raw.imageShrinkStandaloneToFit, raw.textAreaResize,
     raw.tabToLinks, raw.localStorage, raw.databases, raw.webgl, raw.chromeStatusBubble,
     raw.chromeZoomBubble]
  }

  /** Every string field of a `cef_browser_settings_t` may be read for its length. */
  predicate ReadableStrings(raw: RawBrowserSettings) {
    && Readable(raw.standardFontFamily)
    && Readable(raw.fixedFontFamily)
    && Readable(raw.serifFontFamily)
    && Readable(raw.sansSerifFontFamily)
    && Readable(raw.cursiveFontFamily)
    && Readable(raw.fantasyFontFamily)
    && Readable(raw.defaultEncoding)
  }

  /** No string field of a `cef_browser_settings_t` holds a NUL before the last of its code units. */
  predicate ConvertibleStrings(raw: RawBrowserSettings)
    requires ReadableStrings(raw)
  {
    && Convertible(raw.standardFontFamily)
    && Convertible(raw.fixedFontFamily)
    && Convertible(raw.serifFontFamily)
    && Convertible(raw.sansSerifFontFamily)
    && Convertible(raw.cursiveFontFamily)
    && Convertible(raw.fantasyFontFamily)
    && Convertible(raw.defaultEncoding)
  }

  /** `From<&cef_browser_settings_t> for BrowserSettings`: it panics exactly when a string
      field does not convert. */
  function BrowserSettingsFrom(raw: RawBrowserSettings): (r: Panicking<BrowserSettings>)
    requires ReadableStrings(raw)
    ensures r.Returns? <==> ConvertibleStrings(raw)
  {
    var standardFontFamily :- Expect(TryFrom(raw.standardFontFamily), "Error converting standard_font_family string");
    var fixedFontFamily :- Expect(TryFrom(raw.fixedFontFamily), "Error converting fixed_font_family string");
    var serifFontFamily :- Expect(TryFrom(raw.serifFontFamily), "Error converting serif_font_family string");
    var sansSerifFontFamily :- Expect(TryFrom(raw.sansSerifFontFamily), "Error converting sans_serif_font_family string");
    var cursiveFontFamily :- Expect(TryFrom(raw.cursiveFontFamily), "Error converting cursive_font_family string");
    var fantasyFontFamily :- Expect(TryFrom(raw.fantasyFontFamily), "Error converting fantasy_font_family string");
    var defaultEncoding :- Expect(TryFrom(raw.defaultEncoding), "Error converting default_encoding string");
    Returns(BrowserSettings(
      CIntAsUsize(raw.windowlessFrameRate),
      standardFontFamily,
      fixedFontFamily,
      serifFontFamily,
      sansSerifFontFamily,
      cursiveFontFamily,
      fantasyFontFamily,
      CIntAsU32(raw.defaultFontSize),
      CIntAsU32(raw.defaultFixedFontSize),
      CIntAsU32(raw.minimumFontSize),
      CIntAsU32(raw.minimumLogicalFontSize),
      defaultEncoding,
      raw.remoteFonts,
      raw.javascript,
      raw.javascriptCloseWindows,
      raw.javascriptAccessClipboard,
      raw.javascriptDomPaste,
      raw.imageLoading,
      raw.imageShrinkStandaloneToFit,
      raw.textAreaResize,
      raw.tabToLinks,
      raw.localStorage,
      raw.databases,
      raw.webgl,
      raw.backgroundColor,
      raw.chromeStatusBubble,
      raw.chromeZoomBubble))
  }

  /** On a struct whose strings all convert, `from` sign-extends the frame rate,
      reinterprets the font sizes as `u32`, copies each string's content,
      and copies the states and the color. */
  lemma BrowserSettingsFromFields(raw: RawBrowserSettings)
    requires ReadableStrings(raw) && ConvertibleStrings(raw)
    ensures BrowserSettingsFrom(raw).Returns?
    ensures var b := BrowserSettingsFrom(raw).value;
      && (b.windowlessFrameRate - raw.windowlessFrameRate) % TWO_64 == 0
      && SameLow32(b.defaultFontSize, raw.defaultFontSize)
      && SameLow32(b.defaultFixedFontSize, raw.defaultFixedFontSize)
      && SameLow32(b.minimumFontSize, raw.minimumFontSize)
      && SameLow32(b.minimumLogicalFontSize, raw.minimumLogicalFontSize)
      && b.standardFontFamily == Content(raw.standardFontFamily)
      && b.fixedFontFamily == Content(raw.fixedFontFamily)
      && b.serifFontFamily == Content(raw.serifFontFamily)
      && b.sansSerifFontFamily == Content(raw.sansSerifFontFamily)
      && b.cursiveFontFamily == Content(raw.cursiveFontFamily)
      && b.fantasyFontFamily == Content(raw.fantasyFontFamily)
      && b.defaultEncoding == Content(raw.defaultEncoding)
      && States(b) == RawStates(raw)
      && b.backgroundColor == raw.backgroundColor
  {
  }

  /** `into_raw` by reference then `from` never panics, and gives back the same settings exactly when
      the frame rate survives the `usize` -> `c_int` -> `usize` casts: when, read as a
      signed 64-bit integer, it lies in the `i32` range. The four `u32` font sizes, the
      color, the strings and the states always survive. */
  lemma {:induction false} BrowserSettingsRoundTrip(browserSettingsSize: USize, b: BrowserSettings)
    ensures BrowserSettingsFrom(IntoRaw(browserSettingsSize, b)).Returns?
    ensures var back := BrowserSettingsFrom(IntoRaw(browserSettingsSize, b)).value;
      && back.windowlessFrameRate == CIntAsUsize(UsizeAsCInt(b.windowlessFrameRate))
      && back == b.(windowlessFrameRate := back.windowlessFrameRate)
    ensures BrowserSettingsFrom(IntoRaw(browserSettingsSize, b)) == Returns(b)
      <==> b.windowlessFrameRate < TWO_31 || b.windowlessFrameRate >= TWO_64 - TWO_31
  {
    U32CIntRoundTrip(b.defaultFontSize, 0);
    U32CIntRoundTrip(b.defaultFixedFontSize, 0);
    U32CIntRoundTrip(b.minimumFontSize, 0);
    U32CIntRoundTrip(b.minimumLogicalFontSize, 0);
    UsizeCIntRoundTrip(b.windowlessFrameRate);
  }

  /** The struct `into_raw` returns as written cannot be converted back at all, since `from`
      would read strings that have been freed; the by-reference conversion can. */
  lemma {:induction false} AsWrittenStringsDangle(browserSettingsSize: USize, b: BrowserSettings)
    ensures !ReadableStrings(IntoRawAsWritten(browserSettingsSize, b))
    ensures ReadableStrings(IntoRaw(browserSettingsSize, b))
  {
  }

  /** An opaque CEF object: `cef_browser_t`, `cef_browser_host_t`. */
  datatype Handle = Handle(address: nat)

  /** The common shape of `get_host` and `get_browser`: `slot` is the vtable entry (`None`
      when CEF left it empty), holding the pointer that calling it returns. The result is
      `None` when the slot is absent or returns null, and otherwise wraps the pointer. */
  function CallHandleSlot(slot: Option<Ptr<Handle>>): (r: Option<Handle>)
    ensures r.Some? <==> slot.Some? && slot.value.NonNull?
    ensures r.Some? ==> r.value == slot.value.target
  {
    match slot
    case None => None
    case Some(p) => if p.Null? then None else Some(p.target)
  }

  /** `Browser::get_host`. */
  function GetHost(getHostSlot: Option<Ptr<Handle>>): (host: Option<Handle>)
    ensures host.None? <==> getHostSlot.None? || getHostSlot.value.Null?
    ensures host.Some? ==> getHostSlot == Some(NonNull(host.value))
  {
    CallHandleSlot(getHostSlot)
  }

  /** `BrowserView::get_browser`. */
  function GetBrowser(getBrowserSlot: Option<Ptr<Handle>>): (browser: Option<Handle>)
    ensures browser.None? <==> getBrowserSlot.None? || getBrowserSlot.value.Null?
    ensures browser.Some? ==> getBrowserSlot == Some(NonNull(browser.value))
  {
    CallHandleSlot(getBrowserSlot)
  }

  /** `BrowserHost::get_windowless_frame_rate`: what the slot returns, or -1 when the slot
      is absent. */
  function GetWindowlessFrameRate(slot: Option<Int32>): (rate: Int32)
    ensures slot.None? ==> rate == -1
    ensures slot.Some? ==> rate == slot.value
  {
    match slot
    case None => -1
    case Some(v) => v
  }

  /** `BrowserHost::is_render_process_unresponsive`: true when the slot is absent, and
      otherwise whether it returns a positive value. */
  function IsRenderProcessUnresponsive(slot: Option<Int32>): (unresponsive: bool)
    ensures unresponsive <==> slot.None? || slot.value > 0
  {
    match slot
    case None => true
    case Some(v) => CIntToBool(v)
  }
}
