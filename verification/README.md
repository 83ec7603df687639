# cef-rs value marshalling, modelled in Dafny

cef-rs is a Rust binding over the C API of the Chromium Embedded Framework (CEF). Most of
it forwards calls to CEF. What this project models is the layer that moves values across
the boundary:

- **Record conversions.** Native records are converted to and from their C-layout
  counterparts: `Settings`, `BrowserSettings`, `WindowInfo`, `CefRect`, `CefPoint`,
  `CefRange`, `CefAcceleratedPaintInfo` and `CefScreenInfo`.
- **`CefString` acquisition.** A `CefString` is obtained from a `cef_string_utf16_t` (a
  borrowed string, a user-free string, or a Rust `&str`).
- **Exit codes.** An exit code is decoded into a `ResultCode`, and `initialize` turns the
  result of `cef_initialize` into a `Result`.
- **Trampolines.** The `extern "C"` callbacks of the app, render, load and window
  handlers turn the trait's answers into C return codes and writes through out-pointers.

## How C values are represented

- **Integers.** C integers are `int` restricted to their range (`Int32`, `UInt32`,
  `UInt64`, `USize`).
- **Casts.** Each Rust `as` cast is an explicit function in `CTypes`:
  - `u32` ↔ `c_int` reinterprets the same 32 bits;
  - `usize` → `c_int` truncates;
  - `c_int` → `usize` sign-extends;
  - `u64` → `c_ulong` truncates on targets where `c_ulong` is 32 bits wide.
- **Booleans.** They are encoded as 0 or 1 and decoded with `> 0`.
- **Strings.** A `cef_string_utf16_t` is a `RawString`: the code units its `str_`
  addresses, its `length` and its optional `dtor`. A `CefString` is a sequence of UTF-16
  code units with no NUL.
  - widestring 1.x, which the binding uses, takes a NUL in the last of the `length` code
    units for the string's terminator and drops it. Only a NUL before the last unit is an
    error.
  - A borrowed view whose lender has been dropped is `Dangling`: it keeps its `length` and
    `dtor`, but its code units may no longer be read.
- **Raw pointers.** They are `Ptr<T>`, either `Null` or `NonNull(target)`.
- **Panics.** `expect` and `panic!` produce a `Panicking<T>` value carrying the panic
  message.
- **Calls into CEF and the user's trait methods.** Their answers are parameters:
  - a value, when the result is fixed;
  - `Option`, for a vtable slot that may be absent;
  - a function, when the result depends on an argument.
- **Out-pointers.** The out-pointers the render trampolines write through are objects:
  `RenderHandlers.RectSlot` stands for `cef_rect_t`, `RenderHandlers.IntSlot` for
  `c_int`, and `RenderHandlers.ScreenInfoSlot` for `cef_screen_info_t`.
- **Freeing a user-free string.** `cef_string_userfree_utf16_free` is counted by
  `Strings.UserFreeString.frees`.

## Model

| member | source | states |
|---|---|---|
| Wrappers.Expect | src/string.rs:32 | `Result::expect`: returns exactly when the result is `Ok`, with its value; otherwise panics with the given message |
| CTypes.PointerOf | src/app.rs:86-88 | `map(into_raw).unwrap_or(null_mut())`: null exactly when the option is `None`, otherwise a pointer to the value |
| CTypes.BoolToCInt | src/settings.rs:51 | `bool as c_int` is 0 or 1, and 1 exactly for `true` |
| CTypes.CIntToBool | src/settings.rs:89 | `c_int > 0` as a `bool`: every positive value is true, and zero and negative values are false. A predicate, so it carries no ensures; its use is stated by `CTypes.BoolRoundTrip` |
| CTypes.BoolRoundTrip | src/settings.rs:89 | a flag encoded as 0/1 and decoded with `> 0` comes back unchanged; a `c_int` survives decode-then-encode exactly when it is 0 or 1 |
| CTypes.WrappingI32 | src/render_handler.rs:238 | `i32` arithmetic in a release build: the result has the same low 32 bits as the exact value, and equals it when it is in range |
| CTypes.U32AsCInt | src/settings.rs:74-75 | `u32 as c_int` keeps the low 32 bits and is non-negative exactly below 2^31 |
| CTypes.CIntAsU32 | src/settings.rs:112-113 | `c_int as u32` keeps the low 32 bits and is the identity on non-negative values |
| CTypes.UsizeAsCInt | src/browser.rs:86 | `usize as c_int` keeps the low 32 bits and is the identity below 2^31 |
| CTypes.CIntAsUsize | src/browser.rs:120 | `c_int as usize` is congruent modulo 2^64 and is the identity on non-negative values |
| CTypes.U32CIntRoundTrip | src/settings.rs:74-75 | every `u32` survives `as c_int as u32`, and every `c_int` survives `as u32 as c_int` |
| CTypes.UsizeCIntRoundTrip | src/browser.rs:86 | a `usize` survives `as c_int as usize` if and only if it is below 2^31 or at least 2^64 - 2^31 |
| CTypes.CULongLimit | src/window.rs:56 | `c_ulong` holds 2^32 values when 32 bits wide and 2^64 when 64 bits wide |
| CTypes.U64AsCULong | src/window.rs:56 | `u64 as c_ulong` is in range and congruent to its input modulo the width |
| CTypes.CULongRoundTrip | src/window.rs:70 | `as c_ulong as u64` is the identity on 64-bit `c_ulong`, and reduction modulo 2^32 on 32-bit `c_ulong` |
| Strings.FirstNul | src/string.rs:43 | the index of the first NUL code unit (or the length when there is none); every earlier unit is non-zero |
| Strings.WithoutTerminator | src/string.rs:43 | the units less a final NUL: a prefix at most one unit shorter, and shorter exactly when the last unit is NUL |
| Strings.FromVec | src/string.rs:43 | `U16CString::from_vec`: `Ok` exactly when no NUL comes before the last unit, and then the units without a final NUL terminator; otherwise the error gives the first NUL, which lies before the last unit |
| Strings.FromPtr | src/string.rs:43 | `U16CString::from_ptr`: with `len` 0 nothing is read and the string is empty; otherwise `from_vec` on the `len` units |
| Strings.FromRaw | src/string.rs:37-48 | a null pointer gives `Err(NullPointer)`; otherwise `Ok` exactly when no NUL comes before the last of the `length` units, with the units less a final terminator, and `Err(Conversion)` otherwise |
| Strings.FromUserfreeCef | src/string.rs:52-60 | the result is `from_raw`'s; the foreign string is freed exactly once on success and not at all on failure |
| Strings.UnconvertibleUserFreeStringLeaks | src/string.rs:55-57 | a user-free string with a NUL before its last unit gives `Err(Conversion)` and is freed zero times |
| Strings.FromUserfreeCefReleasing | src/string.rs:52-60 | corrected: the same result as `from_raw`, and a non-null user-free string is freed exactly once on success and on failure |
| Strings.UserFreeString.constructor | src/string.rs:52-54 | a user-free string starts out not freed |
| Strings.GetRaw | src/string.rs:64-70 | a borrowed view: length equal to the content's length, no destructor, the content followed by the terminator |
| Strings.Release | src/browser.rs:83-114 | dropping the lender leaves a view that can no longer be read, with its length and destructor unchanged |
| Strings.TryFrom | src/string.rs:88-90 | `Ok` exactly when no NUL comes before the last of the `length` units, with the units less a final terminator; otherwise the error points at a NUL before the last unit |
| Strings.BorrowedViewRoundTrip | src/string.rs:64-70 | any live borrowed view of `s` holds exactly `s` and converts back to `s` through both `try_from` and `from_raw` |
| Strings.GetRawRoundTrip | src/string.rs:88-90 | `try_from(get_raw(s)) == Ok(s)`, and the same for `from_raw` |
| Strings.Utf16Char | src/string.rs:32 | one character encodes to one or two UTF-16 code units |
| Strings.Utf16 | src/string.rs:32 | the UTF-16 encoding of a string has between `|s|` and `2|s|` code units |
| Strings.Utf16CharNul | src/string.rs:32 | only U+0000 encodes to a 0 code unit; surrogate halves are never 0 |
| Strings.Utf16Nul | src/string.rs:32 | the encoding holds a NUL unit exactly when the string holds the NUL character |
| Strings.Utf16Append | src/string.rs:32 | the encoding of a concatenation is the concatenation of the encodings |
| Strings.WithoutNulChar | src/string.rs:32 | the text without a final NUL character is a prefix of it, at most one character shorter |
| Strings.Utf16WithoutTerminator | src/string.rs:32 | dropping a final 0 unit from the encoding is the same as encoding the text without a final NUL character |
| Strings.New | src/string.rs:31-82 | `CefString::new` (lines 31-33) and `From<&str>` (lines 80-82): a final NUL character is taken for the terminator and dropped. The result is the UTF-16 encoding of the rest when that holds no NUL. Otherwise it panics with "Failed to create CefString from str."; a text without NUL always gives its own encoding |
| RenderUtils.NewRect | src/render_utils.rs:17-19 | `CefRect::new()` is the all-zero rectangle |
| RenderUtils.RectFrom | src/render_utils.rs:24-31 | `CefRect::from` copies x, y, width and height |
| RenderUtils.RectIntoRaw | src/render_utils.rs:33-40 | `CefRect::into_raw` copies x, y, width and height |
| RenderUtils.RectRoundTrip | src/render_utils.rs:24-40 | `from(into_raw(r)) == r` and `into_raw(from(raw)) == raw` |
| RenderUtils.RectsFromArray | src/render_utils.rs:42-45 | exactly `count` rectangles; the i-th is converted from `rects[i]`, in order |
| RenderUtils.NewPoint | src/render_utils.rs:56-58 | `CefPoint::new()` is the origin |
| RenderUtils.PointIntoRaw | src/render_utils.rs:60-65 | `CefPoint::into_raw` copies x and y |
| RenderUtils.NewRange | src/render_utils.rs:76-78 | `CefRange::new()` is the empty range 0..0 |
| RenderUtils.RangeFrom | src/render_utils.rs:84-89 | `CefRange::from` copies `from` and `to` |
| RenderUtils.RangeIntoRaw | src/render_utils.rs:91-96 | `CefRange::into_raw` copies `from` and `to` |
| RenderUtils.RangeRoundTrip | src/render_utils.rs:84-96 | a range survives `into_raw` then `from`, and a raw range survives `from` then `into_raw` |
| RenderUtils.AcceleratedPaintInfoFrom | src/render_utils.rs:112-119 | planes, plane count, modifier and format are copied |
| RenderUtils.AcceleratedPaintInfoIntoRaw | src/render_utils.rs:121-128 | planes, plane count, modifier and format are copied |
| RenderUtils.AcceleratedPaintInfoRoundTrip | src/render_utils.rs:112-128 | the conversions are inverse to each other in both directions |
| RenderUtils.ScreenInfoFrom | src/render_utils.rs:143-152 | `is_monochrome` is decoded as `> 0`; the scale factor, depths and rectangles are copied |
| RenderUtils.ScreenInfoIntoRaw | src/render_utils.rs:158-167 | `is_monochrome` is encoded as 0/1; the rest is copied |
| RenderUtils.ScreenInfoRoundTrip | src/render_utils.rs:143-167 | every screen info survives `into_raw` then `from`; a raw one survives `from` then `into_raw` exactly when its `is_monochrome` is 0 or 1 |
| AppSettings.GetRaw | src/settings.rs:48-83 | stamps `size` with the struct size; each flag is 1 if true and 0 if false; each string is a borrowed view; the `u32` numbers keep their low 32 bits; color, icon id and log enums are copied |
| AppSettings.ConvertField | src/settings.rs:90 | `try_into().expect(msg)` on one string: returns its content when no NUL comes before the last unit, and otherwise panics with `msg` |
| AppSettings.SettingsFrom | src/settings.rs:86-121 | `from` returns (does not panic) exactly when every one of the 15 string fields converts |
| AppSettings.SettingsFromFields | src/settings.rs:89-119 | on a convertible struct: every flag is `raw > 0`, every string is its content, the numbers keep their low 32 bits, and the rest is copied |
| AppSettings.GetRawStringsConvert | src/settings.rs:48-83 | every one of the 15 views `get_raw` lends out is readable, converts, and holds exactly its field |
| AppSettings.SettingsRoundTrip | src/settings.rs:48-121 | `from(get_raw(s))` returns `s` for every `Settings`, including every `u32` port and stack size |
| Browsers.States | src/browser.rs:98-111 | the fourteen `State` fields, in declaration order |
| Browsers.DefaultBrowserSettings | src/browser.rs:44-76 | every `State` is `STATE_DEFAULT`, every number is 0, and every string is empty |
| Browsers.IntoRaw | src/browser.rs:83-114 | corrected `into_raw`, taking the settings by reference: stamps `size`; the frame rate and font sizes keep their low 32 bits; the strings are live borrowed views; the states and the color are copied |
| Browsers.IntoRawAsWritten | src/browser.rs:83-114 | `into_raw(self)` as written: every field is what the by-reference conversion gives, except that all seven strings are dangling once it returns |
| Browsers.AsWrittenStringsDangle | src/browser.rs:83-97 | the struct `into_raw(self)` returns cannot be read back by `from`; the by-reference one can |
| Browsers.RawStates | src/browser.rs:132-145 | the fourteen raw `State` fields, in declaration order |
| Browsers.BrowserSettingsFrom | src/browser.rs:117-148 | `from` returns exactly when all 7 string fields convert |
| Browsers.BrowserSettingsFromFields | src/browser.rs:119-147 | the frame rate is sign-extended, the font sizes keep their low 32 bits, the strings are their content, and the states and the color are copied |
| Browsers.BrowserSettingsRoundTrip | src/browser.rs:83-148 | `from` after the by-reference `into_raw` never panics, and changes only the frame rate, to its `usize` → `c_int` → `usize` image; the result equals `b` if and only if the rate is below 2^31 or at least 2^64 - 2^31 |
| Browsers.CallHandleSlot | src/browser.rs:232-241 | `None` exactly when the slot is absent or returns null; otherwise the returned pointer is wrapped |
| Browsers.GetHost | src/browser.rs:232-241 | `get_host` is `None` exactly when the slot is absent or returns null, and otherwise wraps the returned pointer |
| Browsers.GetBrowser | src/browser.rs:278-287 | `get_browser` follows the same rule |
| Browsers.GetWindowlessFrameRate | src/browser.rs:187-192 | -1 when the slot is absent, and otherwise what the slot returns |
| Browsers.IsRenderProcessUnresponsive | src/browser.rs:194-199 | true exactly when the slot is absent or returns a positive value |
| Windows.DefaultWindowText | src/window.rs:27 | "UwU" holds no NUL and encodes to the units 0x55, 0x77, 0x55 |
| Windows.DefaultWindowInfo | src/window.rs:24-41 | the name is "UwU" in UTF-16, the bounds are (0, 0, 1280, 720), both handles are 0 and all three flags are false |
| Windows.NewWindowInfo | src/window.rs:44-46 | `WindowInfo::new()` equals the default |
| Windows.WindowInfoIntoRaw | src/window.rs:52-62 | corrected `into_raw`, taking the window info by reference: the name is a live borrowed view, the bounds are converted, the flags become 0/1, and the handles are reduced to the `c_ulong` width |
| Windows.WindowInfoIntoRawAsWritten | src/window.rs:52-62 | `into_raw(self)` as written: every field is what the by-reference conversion gives, except that the name is dangling once it returns |
| Windows.AsWrittenNameDangles | src/window.rs:52-54 | the name in the struct `into_raw(self)` returns cannot be read back by `from`; the by-reference one can |
| Windows.WindowInfoFrom | src/window.rs:65-76 | panics with "Issue converting window_name string" exactly when the name does not convert; otherwise the name is its content, the flags are `> 0`, and the handles and bounds are kept |
| Windows.WindowInfoRoundTrip | src/window.rs:52-76 | after the by-reference `into_raw`, name, bounds and flags always survive; on 64-bit `c_ulong` everything survives; on 32-bit `c_ulong` the handles come back modulo 2^32 |
| Windows.CanClose | src/window.rs:146-154 | the `can_close` trampoline returns 1 for true and 0 for false |
| Windows.DefaultCanClose | src/window.rs:99-101 | with the default `can_close` the trampoline returns 1 |
| ResultCodes.IntegerToErrorCode | src/utils.rs:3-33 | `Ok` exactly for the 26 values in `KNOWN_VALUES`; which code each gives is stated by `ResultCodes.DecodeEveryCode` and `ResultCodes.DecodeIsInverse` |
| ResultCodes.DecodeEveryCode | src/utils.rs:5-30 | each of the 26 codes decodes to itself: `integer_to_error_code(c as i32) == Ok(c)` |
| ResultCodes.DecodeIsInverse | src/utils.rs:3-33 | the decoder returns `Ok(c)` exactly for the value of `c`, and `Err(())` exactly for integers that are no code's value; `KNOWN_VALUES` holds exactly the codes' values |
| ResultCodes.ValueInjective | src/utils.rs:4-31 | no two codes share a value, so no arm is shadowed by an earlier one |
| Apps.DefaultGetRenderProcessHandler | src/app.rs:27-31 | the default provides no render-process handler |
| Apps.DefaultGetBrowserProcessHandler | src/app.rs:33-37 | the default provides no browser-process handler |
| Apps.GetRenderProcessHandler | src/app.rs:63-71 | null exactly when the trait answered `None`; otherwise the handler's pointer |
| Apps.GetBrowserProcessHandler | src/app.rs:73-81 | null exactly when the trait answered `None`; otherwise the handler's pointer |
| Apps.DefaultHandlersAreNull | src/app.rs:27-37 | with the trait defaults, both trampolines return null |
| Apps.ExecuteProcess | src/app.rs:84-91 | an absent app reaches `cef_execute_process` as null, a present one as its pointer; the foreign result is returned |
| Apps.Initialize | src/app.rs:94-113 | `Ok(())` exactly when `cef_initialize` returned 1, and any panic carries "Exit code is not a known result code"; the code a failure carries is stated by `Apps.InitializeOutcome` |
| Apps.InitializeOutcome | src/app.rs:94-113 | `Ok(())` if and only if `cef_initialize` returned exactly 1. Otherwise it returns `Err(c)` for the code `c` whose value is the exit code, or panics with "Exit code is not a known result code" when no code has that value |
| Apps.InitializeWithoutApp | src/app.rs:101-103 | without an app, success is decided by `cef_initialize` called with a null app |
| RenderHandlers.RectSlot.constructor | src/render_handler.rs:123 | a rectangle slot holds the given `cef_rect_t` |
| RenderHandlers.IntSlot.constructor | src/render_handler.rs:170-171 | an integer slot holds the given `c_int` |
| RenderHandlers.ScreenInfoSlot.constructor | src/render_handler.rs:195 | a screen-info slot holds the given `cef_screen_info_t` |
| RenderHandlers.DefaultGetRootScreenRect | src/render_handler.rs:16-18 | the default provides no root screen rectangle |
| RenderHandlers.DefaultGetScreenPoint | src/render_handler.rs:20-23 | the default maps no view point |
| RenderHandlers.DefaultGetScreenInfo | src/render_handler.rs:24-26 | the default does not provide screen info |
| RenderHandlers.UnitGetViewRect | src/render_handler.rs:108-110 | the `()` handler's view rectangle is all zero |
| RenderHandlers.DefaultCallback | src/render_handler.rs:28-75 | the default bodies panic with "explicit panic" on every notification except `on_paint`, `on_accelerated_paint` and `on_virtual_keyboard_requested`, which return |
| RenderHandlers.GetAccessibilityHandler | src/render_handler.rs:113-118 | always null |
| RenderHandlers.GetRootScreenRect | src/render_handler.rs:120-144 | returns 1 exactly on `Some`. On `Some` with a non-null rect, that rect now holds the answer; a null rect is skipped and 1 is still returned. On `None` the rect is untouched |
| RenderHandlers.GetViewRect | src/render_handler.rs:145-164 | a non-null rect now holds the handler's rectangle |
| RenderHandlers.GetScreenPoint | src/render_handler.rs:165-190 | returns 1 exactly on `Some(p)`, and then `*screen_y == p.y` and, unless the two pointers alias, `*screen_x == p.x`; on `None` it returns 0 and writes nothing |
| RenderHandlers.GetScreenInfo | src/render_handler.rs:192-200 | returns 1 when the handler answers true for a copy of the converted screen info, and 0 otherwise; CEF's struct is never written |
| RenderHandlers.GetScreenInfoFilling | src/render_handler.rs:192-200 | corrected: the handler fills in the screen info; on true CEF's struct holds what it filled in, and on false it is left as it was |
| RenderHandlers.FilledScreenInfoIsLost | src/render_handler.rs:199 | a handler that reports depth 24 on a depth-0 screen: as written CEF is told 1 but still reads depth 0; with the write-back it reads 24 |
| RenderHandlers.DefaultScreenInfoNotProvided | src/render_handler.rs:24-26 | with the default handler the trampoline returns 0 |
| RenderHandlers.OnPopupShow | src/render_handler.rs:202-210 | the handler receives `show > 0` |
| RenderHandlers.OnPopupShowRoundTrip | src/render_handler.rs:209 | a 0/1-encoded flag reaches the handler unchanged |
| RenderHandlers.OnPopupSize | src/render_handler.rs:212-221 | the handler receives the converted rectangle |
| RenderHandlers.PaintByteCountAsWritten | src/render_handler.rs:238 | the length `(width * height * 4) as usize` as written; it is exact while the product stays below 2^31 |
| RenderHandlers.PaintByteCountOverflow | src/render_handler.rs:238 | a 32768 x 16384 frame (2^31 bytes) gets length 2^64 - 2^31, and a 65536 x 16384 frame gets length 0 |
| RenderHandlers.PaintByteCount | src/render_handler.rs:238 | the intended length, 4 bytes per pixel for `width * height` pixels, always fits a 64-bit `usize` |
| RenderHandlers.PaintByteCountAgreement | src/render_handler.rs:238 | the written and intended lengths agree if and only if the frame has fewer than 2^31 bytes |
| RenderHandlers.OnPaint | src/render_handler.rs:223-243 | `dirty_rects_count` rectangles converted in order; a pixel slice of `4 * width * height` bytes from the start of the buffer; type, width and height forwarded |
| RenderHandlers.OnAcceleratedPaint | src/render_handler.rs:245-263 | the dirty rectangles are converted in order and the paint info is copied |
| RenderHandlers.StartDragging | src/render_handler.rs:265-275 | always returns 0 |
| RenderHandlers.OnScrollOffsetChanged | src/render_handler.rs:289-299 | both offsets are forwarded unchanged |
| RenderHandlers.OnImeCompositionRangeChanged | src/render_handler.rs:301-316 | the range is converted and the character bounds are converted in order |
| RenderHandlers.OnTextSelectionChanged | src/render_handler.rs:318-333 | panics with "Error executing CefString::from_raw" exactly when the text is null or does not convert; otherwise the handler receives its content and the converted range |
| LoadHandlers.OnLoadingStateChange | src/load_handler.rs:111-126 | each flag reaches the handler as `> 0`, so 0 and negative values are false |
| LoadHandlers.LoadingStateRoundTrip | src/load_handler.rs:120-125 | flags encoded as 0/1 reach the handler unchanged |
| LoadHandlers.OnLoadStart | src/load_handler.rs:128-140 | the transition type is forwarded as given |
| LoadHandlers.OnLoadEnd | src/load_handler.rs:142-154 | the HTTP status code is forwarded as given |
| LoadHandlers.FromRawOr | src/load_handler.rs:171 | `from_raw(p).unwrap_or(new(fallback))`: the string behind `p` when it converts, and the fallback's encoding otherwise |
| LoadHandlers.ErrorTextOrFallback | src/load_handler.rs:171 | a convertible error text passes as its content; a null or unconvertible one becomes "unknown error" |
| LoadHandlers.FailedUrlOrFallback | src/load_handler.rs:172-174 | a convertible URL passes as its content; a null or unconvertible one becomes "url conversion failed" |
| LoadHandlers.FallbacksHaveNoNul | src/load_handler.rs:171-174 | neither fallback text holds a NUL, so building it cannot panic |
| LoadHandlers.OnLoadError | src/load_handler.rs:156-176 | the error code is forwarded as given; the text and the URL are each passed through or replaced by their fallback |
| LoadHandlers.OnLoadErrorRoundTrip | src/load_handler.rs:167-175 | strings lent out by `get_raw` reach the handler unchanged |
| LoadHandlers.NullAndNulLookAlike | src/load_handler.rs:171-174 | a null pointer and a string with a NUL before its last unit give the handler the same fallback |
| LoadHandlers.TerminatorIsNotAnError | src/load_handler.rs:171 | a one-unit string holding only NUL is its own terminator and reaches the handler as the empty string, not as the fallback |

## Left out

- **Reference counting and vtables.** `RcImpl`, `RefGuard` and `RcImpl::get` live in
  `src/rc.rs`, which is not part of this model. The vtable construction in every
  `get_raw`/`into_raw` on the handler traits is pure C layout and is also left out. A
  trampoline's `this` is therefore represented only by the answers of the trait it leads
  to.
- **Thin CEF wrappers.** Command line, process messages, values, frames, V8, DOM, task
  runners and threads are foreign behaviour. So are `CefStringList`/`CefStringMap`, the
  message-loop functions, `shutdown`, `create_browser*` and `create_browser_view`.
- **Other handler files.** The pure-forwarding handlers (client, life span, render
  process, browser process) are left out. Their None → null and bool → 0/1 rules are the
  ones modelled in `Apps` and `Windows`.
- **Sizes and numbers from CEF's headers.**
  - `size_of::<cef_settings_t>()` and `size_of::<cef_browser_settings_t>()` are
    parameters, because the C layout is not part of this model.
  - The numbers of `cef_resultcode_t` are taken from CEF's `cef_types.h`.
- **Floats.** They are opaque bit patterns that are only copied. `device_scale_factor` is
  an `f32`, held as 32 bits; the scroll offsets are `f64`, held as 64 bits.
- **Logging.** `println!` has no modelled effect.
- **`on_before_command_line_processing`.** This app trampoline, and the window delegate's
  `on_window_created`/`on_window_closing`/`on_window_destroyed`, are left out. The app
  trampoline only forwards `from_raw(...).ok()`. The three window defaults have empty
  bodies.
- **Other render trampolines.**
  - `update_drag_cursor` and `on_virtual_keyboard_requested` convert through
    `DragOperationsMask::from` and `TextInputMode`, which are not part of this model.
  - Only their default bodies are modelled, in `RenderHandlers.DefaultCallback`.
- **`to_string` of a selected text.** The lossy UTF-16 → UTF-8 conversion in
  `on_text_selection_changed` is not modelled. The handler receives the UTF-16 code units.
- **`set_focus` and `invalidate`.** These `BrowserHost` methods only forward to CEF.
- **Length limits.**
  - `Strings.RawString` does not bound `length` by `usize`.
  - `RawString` has no null `str_`. widestring's `from_ptr` panics on a null `str_` with a
    non-zero `length`, and that panic is not modelled.
- **Lifetimes.** A live borrowed view is a value, and nothing bounds how long it stays
  readable. The model records only the one end of a lender it needs: `Strings.Release`,
  when `into_raw(self)` drops its settings.
- **The `()` handlers' empty callbacks.** `impl LoadHandler for ()` and the window
  delegate defaults have empty bodies and change nothing.
- **32-bit targets.**
  - CTypes.USize: fixed at 64 bits. On a 32-bit target `usize` is 32 bits wide.
  - CTypes.UsizeCIntRoundTrip: its condition (below 2^31 or at least 2^64 - 2^31) holds
    for a 64-bit `usize` only. With a 32-bit `usize` every value survives.
  - Browsers.BrowserSettingsRoundTrip: the frame-rate condition is the 64-bit one above.
  - RenderHandlers.PaintByteCountAgreement: the written length's 2^64 - 2^31 is the
    64-bit sign extension.
- **Which field panicked.**
  - AppSettings.SettingsFrom: it states when it panics, but not which field's message the
    panic carries. The body produces the message of the first field that holds a NUL, in
    declaration order.
  - Browsers.BrowserSettingsFrom: likewise.
- **`expect` messages.** `expect` appends the `Debug` form of the error to the message. The
  model keeps only the message text.
- RenderHandlers.OnPaint: uses the intended byte count, not the one written (see
  Findings). It requires `width` and `height` to be non-negative, as CEF provides them.
  Its buffer is the bytes the pointer addresses, and the precondition says there are
  enough of them.
- RenderHandlers.PaintByteCountAsWritten: models a release build, where `i32`
  multiplication wraps. A debug build panics on the overflow instead.
- RenderHandlers.GetScreenPoint: requires non-null out-pointers. The source writes
  through them without a check.
- Apps.Initialize: the foreign `cef_initialize` and `cef_get_exit_code` are parameters.
  The arguments (`Args::to_raw`) are not part of this model. Its own ensures leave out
  which code a failure carries; `Apps.InitializeOutcome` states it.
- ResultCodes.IntegerToErrorCode: its own ensures give only the set of values it accepts.
  `ResultCodes.DecodeEveryCode` and `ResultCodes.DecodeIsInverse` state which code each
  value gives.

## Findings

| source | as written | input that shows it | evidently intended | confidence | as-written member | corrected member |
|---|---|---|---|---|---|---|
| src/render_handler.rs:238 | the pixel slice length is `(width * height * 4) as usize`: the product is computed in `i32` (it wraps in release builds and panics in debug builds), then sign-extended to `usize` | width 32768, height 16384: the frame has 2^31 bytes, but the slice claims 2^64 - 2^31 bytes; width 65536, height 16384 gives an empty slice | the product computed in `usize`, so the slice has exactly 4 bytes per pixel; the two agree if and only if the frame has fewer than 2^31 bytes | not executed | RenderHandlers.PaintByteCountAsWritten | RenderHandlers.PaintByteCount |
| src/browser.rs:83 | `into_raw(self)` takes the settings by value and lends out their seven strings through `get_raw`, so the strings are freed when it returns | any `BrowserSettings`, e.g. the default: every `str_` of the returned struct addresses freed memory, and that struct is what reaches CEF | take the settings by reference, so that they outlive the struct | not executed | Browsers.IntoRawAsWritten | Browsers.IntoRaw |
| src/window.rs:52 | `into_raw(self)` takes the window info by value and lends out its name through `get_raw`, so the name is freed when it returns | `WindowInfo::default()`: the `window_name` of the returned struct addresses freed memory | take the window info by reference | not executed | Windows.WindowInfoIntoRawAsWritten | Windows.WindowInfoIntoRaw |
| src/string.rs:55 | `from_userfree_cef` returns the conversion error with `?` before `cef_string_userfree_utf16_free` | a user-free string holding a NUL before its last unit is never freed | free the string whatever the conversion gives | not executed | Strings.UnconvertibleUserFreeStringLeaks | Strings.FromUserfreeCefReleasing |
| src/render_handler.rs:199 | the trampoline gives the handler a copy made by `from_mut_ptr`, and nothing is written back | a handler that fills in depth 24 and answers true: CEF is told the info was filled, but its struct still says depth 0 | write the handler's screen info back to CEF's struct when it answers true | not executed | RenderHandlers.FilledScreenInfoIsLost | RenderHandlers.GetScreenInfoFilling |
