/** The `cef_load_handler_t` trampolines: how C arguments become the arguments of a
    `LoadHandler`'s callbacks. */
module LoadHandlers {
  import opened Wrappers
  import opened CTypes
  import opened Strings

  /** The four load notifications, with the arguments the trait receives. The `browser` and
      `frame` wrappers are passed through unchanged and are not modelled. */
  datatype LoadEvent =
    | LoadingStateChange(isLoading: bool, canGoBack: bool, canGoForward: bool)
    | LoadStart(transitionType: Int32)
    | LoadEnd(httpStatusCode: Int32)
    | LoadError(errorCode: Int32, errorText: CefString, failedUrl: CefString)

  /** `on_loading_state_change`: each C flag is read as `> 0`, so 0 and negative values are
      false. */
  function OnLoadingStateChange(isLoading: Int32, canGoBack: Int32, canGoForward: Int32): (e: LoadEvent)
    ensures e.LoadingStateChange?
    ensures e.isLoading <==> isLoading > 0
    ensures e.canGoBack <==> canGoBack > 0
    ensures e.canGoForward <==> canGoForward > 0
  {
    LoadingStateChange(isLoading > 0, canGoBack > 0, canGoForward > 0)
  }

  /** Flags CEF encodes as 0/1 reach the handler unchanged. */
  lemma {:induction false} LoadingStateRoundTrip(isLoading: bool, canGoBack: bool, canGoForward: bool)
    ensures OnLoadingStateChange(BoolToCInt(isLoading), BoolToCInt(canGoBack), BoolToCInt(canGoForward))
      == LoadingStateChange(isLoading, canGoBack, canGoForward)
  {
    BoolRoundTrip(isLoading, BoolToCInt(isLoading));
    BoolRoundTrip(canGoBack, BoolToCInt(canGoBack));
    BoolRoundTrip(canGoForward, BoolToCInt(canGoForward));
  }

  /** `on_load_start`: the transition type is forwarded as given. */
  function OnLoadStart(transitionType: Int32): (e: LoadEvent)
    ensures e.LoadStart? && e.transitionType == transitionType
  {
    LoadStart(transitionType)
  }

  /** `on_load_end`: the HTTP status code is forwarded as given. */
  function OnLoadEnd(httpStatusCode: Int32): (e: LoadEvent)
    ensures e.LoadEnd? && e.httpStatusCode == httpStatusCode
  {
    LoadEnd(httpStatusCode)
  }

  const UNKNOWN_ERROR := "unknown error"
  const URL_CONVERSION_FAILED := "url conversion failed"

  /** `CefString::from_raw(p).unwrap_or(CefString::new(fallback))` for a fallback without NUL:
      the string behind `p` when it converts, the fallback otherwise. */
  function FromRawOr(p: Ptr<RawString>, fallback: string): (s: CefString)
    requires p.NonNull? ==> Readable(p.target)
    requires '\0' !in fallback
    ensures p.NonNull? && Convertible(p.target) ==> s == Content(p.target)
    ensures !(p.NonNull? && Convertible(p.target)) ==> s == Utf16(fallback)
  {
    var f := New(fallback);
    match FromRaw(p)
    case Ok(v) => v
    case Err(_) => f.value
  }

  /** The `error_text` argument of `on_load_error`: the text behind the pointer, or
      "unknown error" when it is null or holds a NUL before its last code unit. */
  function ErrorTextOrFallback(errorText: Ptr<RawString>): (s: CefString)
    requires errorText.NonNull? ==> Readable(errorText.target)
    ensures errorText.NonNull? && Convertible(errorText.target) ==>
      s == Content(errorText.target)
    ensures !(errorText.NonNull? && Convertible(errorText.target)) ==> s == Utf16(UNKNOWN_ERROR)
  {
    FallbacksHaveNoNul();
    FromRawOr(errorText, UNKNOWN_ERROR)
  }

  /** The `failed_url` argument of `on_load_error`: the URL behind the pointer, or
      "url conversion failed" when it is null or holds a NUL before its last code unit. */
  function FailedUrlOrFallback(failedUrl: Ptr<RawString>): (s: CefString)
    requires failedUrl.NonNull? ==> Readable(failedUrl.target)
    ensures failedUrl.NonNull? && Convertible(failedUrl.target) ==>
      s == Content(failedUrl.target)
    ensures !(failedUrl.NonNull? && Convertible(failedUrl.target)) ==> s == Utf16(URL_CONVERSION_FAILED)
  {
    FallbacksHaveNoNul();
    FromRawOr(failedUrl, URL_CONVERSION_FAILED)
  }

  /** Neither fallback text contains a NUL, so `CefString::new` on them cannot panic. */
  lemma FallbacksHaveNoNul()
    ensures '\0' !in UNKNOWN_ERROR && '\0' !in URL_CONVERSION_FAILED
  {
  }

  /** `on_load_error`: the error code is forwarded as given; an error text or URL that is
      null or does not convert is replaced by its fixed fallback text, so the handler always
      receives two strings. */
  function OnLoadError(errorCode: Int32, errorText: Ptr<RawString>, failedUrl: Ptr<RawString>): (e: LoadEvent)
    requires errorText.NonNull? ==> Readable(errorText.target)
    requires failedUrl.NonNull? ==> Readable(failedUrl.target)
    ensures e.LoadError? && e.errorCode == errorCode
    ensures e.errorText == ErrorTextOrFallback(errorText)
    ensures e.failedUrl == FailedUrlOrFallback(failedUrl)
  {
    LoadError(errorCode, ErrorTextOrFallback(errorText), FailedUrlOrFallback(failedUrl))
  }

  /** A string that `get_raw` lends out reaches the handler unchanged. */
  lemma {:induction false} OnLoadErrorRoundTrip(errorCode: Int32, errorText: CefString, failedUrl: CefString)
    ensures OnLoadError(errorCode, NonNull(Strings.GetRaw(errorText)), NonNull(Strings.GetRaw(failedUrl)))
      == LoadError(errorCode, errorText, failedUrl)
  {
    GetRawRoundTrip(errorText);
    GetRawRoundTrip(failedUrl);
  }

  /** A null pointer and a string holding a NUL before its last code unit are
      indistinguishable to the handler: both arrive as the fallback text. */
  lemma {:induction false} NullAndNulLookAlike()
    ensures ErrorTextOrFallback(Null) == ErrorTextOrFallback(NonNull(RawString([0, 0x41], 2, None)))
    ensures FailedUrlOrFallback(Null) == FailedUrlOrFallback(NonNull(RawString([0, 0x41], 2, None)))
  {
    var nul := RawString([0, 0x41], 2, None);
    assert Content(nul)[0] == 0;
  }

  /** A NUL in the last position is the terminator, not an error: a one-unit string
      holding only NUL reaches the handler as the empty string. */
  lemma {:induction false} TerminatorIsNotAnError()
    ensures ErrorTextOrFallback(NonNull(RawString([0], 1, None))) == []
  {
    var nul := RawString([0], 1, None);
    assert Units(nul) == [0];
  }
}
