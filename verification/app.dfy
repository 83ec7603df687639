/** The application entry points: passing an optional `App` to the C API, turning the result of
    `cef_initialize` into a `Result`, and the handler-getter trampolines of `cef_app_t`. */
module Apps {
  import opened Wrappers
  import opened CTypes
  import opened ResultCodes
  import AppSettings

  /** A handler object that an `App` implementation owns; `get_raw` on it yields its C pointer. */
  datatype HandlerRef = HandlerRef(address: nat)

  /** `App::get_render_process_handler` and `App::get_browser_process_handler`, when the
      implementation keeps the trait's defaults: neither handler is provided. */
  function DefaultGetRenderProcessHandler(): (h: Option<HandlerRef>)
    ensures h.None?
  {
    None
  }

  function DefaultGetBrowserProcessHandler(): (h: Option<HandlerRef>)
    ensures h.None?
  {
    None
  }

  /** The `get_render_process_handler` trampoline: a provided handler becomes its raw pointer,
      an absent one the null pointer. */
  function GetRenderProcessHandler(res: Option<HandlerRef>): (p: Ptr<HandlerRef>)
    ensures p.Null? <==> res.None?
    ensures p.NonNull? ==> p.target == res.value
  {
    PointerOf(res)
  }

  /** The `get_browser_process_handler` trampoline, with the same rule. */
  function GetBrowserProcessHandler(res: Option<HandlerRef>): (p: Ptr<HandlerRef>)
    ensures p.Null? <==> res.None?
    ensures p.NonNull? ==> p.target == res.value
  {
    PointerOf(res)
  }

  /** An `App` that keeps the trait defaults hands CEF two null handler pointers. */
  lemma DefaultHandlersAreNull()
    ensures GetRenderProcessHandler(DefaultGetRenderProcessHandler()) == Null
    ensures GetBrowserProcessHandler(DefaultGetBrowserProcessHandler()) == Null
  {
  }

  /** `execute_process`: the optional app is passed to `cef_execute_process` as its pointer, or
      as null when absent; the foreign result is returned as is. */
  function ExecuteProcess<A>(app: Option<A>, cefExecuteProcess: Ptr<A> -> Int32): (r: Int32)
    ensures app.None? ==> r == cefExecuteProcess(Null)
    ensures app.Some? ==> r == cefExecuteProcess(NonNull(app.value))
  {
    cefExecuteProcess(PointerOf(app))
  }

  const UNKNOWN_EXIT_CODE_MESSAGE := "Exit code is not a known result code"

  /** `initialize`: `cef_initialize` receives the raw settings and the app pointer (null when
      absent). Exactly the return value 1 means success; anything else is a failure whose
      reason is `cef_get_exit_code()` decoded, and the call panics when that code is unknown. */
  function Initialize<A>(
    settingsSize: USize,
    settings: AppSettings.Settings,
    app: Option<A>,
    cefInitialize: (AppSettings.RawSettings, Ptr<A>) -> Int32,
    exitCode: Int32
  ): (r: Panicking<Result<(), ResultCode>>)
    ensures r == Returns(Ok(())) <==> cefInitialize(AppSettings.GetRaw(settingsSize, settings), PointerOf(app)) == 1
    ensures r.Panics? ==> r.message == UNKNOWN_EXIT_CODE_MESSAGE
  {
    if cefInitialize(AppSettings.GetRaw(settingsSize, settings), PointerOf(app)) == 1 then
      Returns(Ok(()))
    else
      var code :- Expect(IntegerToErrorCode(exitCode), UNKNOWN_EXIT_CODE_MESSAGE);
      Returns(Err(code))
  }

  /** What `initialize` reports, in terms of the value `cef_initialize` returned. */
  lemma {:induction false} InitializeOutcome<A>(
    settingsSize: USize,
    settings: AppSettings.Settings,
    app: Option<A>,
    cefInitialize: (AppSettings.RawSettings, Ptr<A>) -> Int32,
    exitCode: Int32
  )
    ensures var initResult := cefInitialize(AppSettings.GetRaw(settingsSize, settings), PointerOf(app));
      var r := Initialize(settingsSize, settings, app, cefInitialize, exitCode);
      && (r == Returns(Ok(())) <==> initResult == 1)
      && (initResult != 1 ==>
            && (r.Returns? <==> exists c: ResultCode :: Value(c) == exitCode)
            && (forall c: ResultCode :: Value(c) == exitCode ==> r == Returns(Err(c)))
            && (r.Panics? ==> r.message == UNKNOWN_EXIT_CODE_MESSAGE))
  {
    DecodeIsInverse(exitCode);
  }

  /** An absent app reaches `cef_initialize` as the null pointer. */
  lemma {:induction false} InitializeWithoutApp<A>(
    settingsSize: USize,
    settings: AppSettings.Settings,
    cefInitialize: (AppSettings.RawSettings, Ptr<A>) -> Int32,
    exitCode: Int32
  )
    ensures Initialize(settingsSize, settings, None, cefInitialize, exitCode).Returns?
      && Initialize(settingsSize, settings, None, cefInitialize, exitCode).value.Ok?
      <==> cefInitialize(AppSettings.GetRaw(settingsSize, settings), Null) == 1
  {
    InitializeOutcome(settingsSize, settings, None, cefInitialize, exitCode);
  }
}
