/** `Settings` and its conversions from and to `cef_settings_t`. */
module AppSettings {
  import opened Wrappers
  import opened CTypes
  import opened Strings

  /** `cef_log_severity_t` and `cef_log_items_t`: enumerations copied by value. */
  type LogSeverity = Int32
  type LogItems = Int32

  datatype Settings = Settings(
    noSandbox: bool,
    browserSubprocessPath: CefString,
    frameworkDirPath: CefString,
    mainBundlePath: CefString,
    chromeRuntime: bool,
    multiThreadedMessageLoop: bool,
    externalMessagePump: bool,
    windowlessRenderingEnabled: bool,
    commandLineArgsDisabled: bool,
    cachePath: CefString,
    rootCachePath: CefString,
    persistSessionCookies: bool,
    persistUserPreferences: bool,
    userAgent: CefString,
    userAgentProduct: CefString,
    locale: CefString,
    logFile: CefString,
    logSeverity: LogSeverity,
    logItems: LogItems,
    javascriptFlags: CefString,
    resourcesDirPath: CefString,
    localesDirPath: CefString,
    packLoadingDisabled: bool,
    remoteDebuggingPort: UInt32,
    uncaughtExceptionStackSize: UInt32,
    backgroundColor: UInt32,
    acceptLanguageList: CefString,
    cookieableSchemesList: CefString,
    cookieableSchemesExcludeDefaults: bool,
    chromePolicyId: CefString,
    chromeAppIconId: Int32)

  /** `cef_settings_t`. */
  datatype RawSettings = RawSettings(
    size: USize,
    noSandbox: Int32,
    browserSubprocessPath: RawString,
    frameworkDirPath: RawString,
    mainBundlePath: RawString,
    chromeRuntime: Int32,
    multiThreadedMessageLoop: Int32,
    externalMessagePump: Int32,
    windowlessRenderingEnabled: Int32,
    commandLineArgsDisabled: Int32,
    cachePath: RawString,
    rootCachePath: RawString,
    persistSessionCookies: Int32,
    persistUserPreferences: Int32,
    userAgent: RawString,
    userAgentProduct: RawString,
    locale: RawString,
    logFile: RawString,
    logSeverity: LogSeverity,
    logItems: LogItems,
    javascriptFlags: RawString,
    resourcesDirPath: RawString,
    localesDirPath: RawString,
    packLoadingDisabled: Int32,
    remoteDebuggingPort: Int32,
    uncaughtExceptionStackSize: Int32,
    backgroundColor: UInt32,
    acceptLanguageList: RawString,
    cookieableSchemesList: RawString,
    cookieableSchemesExcludeDefaults: Int32,
    chromePolicyId: RawString,
    chromeAppIconId: Int32)

  /** Every string field of a `cef_settings_t` may be read for its length. */
  predicate ReadableStrings(raw: RawSettings) {
    Readable(raw.browserSubprocessPath)
    && Readable(raw.frameworkDirPath)
    && Readable(raw.mainBundlePath)
    && Readable(raw.cachePath)
    && Readable(raw.rootCachePath)
    && Readable(raw.userAgent)
    && Readable(raw.userAgentProduct)
    && Readable(raw.locale)
    && Readable(raw.logFile)
    && Readable(raw.javascriptFlags)
    && Readable(raw.resourcesDirPath)
    && Readable(raw.localesDirPath)
    && Readable(raw.acceptLanguageList)
    && Readable(raw.cookieableSchemesList)
    && Readable(raw.chromePolicyId)
  }

  /** No string field of a `cef_settings_t` holds a NUL before the last of its code units. */
  predicate ConvertibleStrings(raw: RawSettings)
    requires ReadableStrings(raw)
  {
    Convertible(raw.browserSubprocessPath)
    && Convertible(raw.frameworkDirPath)
    && Convertible(raw.mainBundlePath)
    && Convertible(raw.cachePath)
    && Convertible(raw.rootCachePath)
    && Convertible(raw.userAgent)
    && Convertible(raw.userAgentProduct)
    && Convertible(raw.locale)
    && Convertible(raw.logFile)
    && Convertible(raw.javascriptFlags)
    && Convertible(raw.resourcesDirPath)
    && Convertible(raw.localesDirPath)
    && Convertible(raw.acceptLanguageList)
    && Convertible(raw.cookieableSchemesList)
    && Convertible(raw.chromePolicyId)
  }

  /** `Settings::get_raw`. `settingsSize` is `size_of::<cef_settings_t>()` on the target:
      every raw struct is stamped with it. Booleans become 0 or 1, strings become borrowed
      views, the `u32` fields are reinterpreted as `c_int`, and the enumerations, the color
      and the icon id are copied. */
  function GetRaw(settingsSize: USize, s: Settings): (raw: RawSettings)
    ensures raw.size == settingsSize
    ensures (raw.noSandbox == 1 <==> s.noSandbox) && (raw.noSandbox == 0 <==> !s.noSandbox)
    ensures (raw.chromeRuntime == 1 <==> s.chromeRuntime) && (raw.chromeRuntime == 0 <==> !s.chromeRuntime)
    ensures (raw.multiThreadedMessageLoop == 1 <==> s.multiThreadedMessageLoop)
      && (raw.multiThreadedMessageLoop == 0 <==> !s.multiThreadedMessageLoop)
    ensures (raw.externalMessagePump == 1 <==> s.externalMessagePump)
      && (raw.externalMessagePump == 0 <==> !s.externalMessagePump)
    ensures (raw.windowlessRenderingEnabled == 1 <==> s.windowlessRenderingEnabled)
      && (raw.windowlessRenderingEnabled == 0 <==> !s.windowlessRenderingEnabled)
    ensures (raw.commandLineArgsDisabled == 1 <==> s.commandLineArgsDisabled)
      && (raw.commandLineArgsDisabled == 0 <==> !s.commandLineArgsDisabled)
    ensures (raw.persistSessionCookies == 1 <==> s.persistSessionCookies)
      && (raw.persistSessionCookies == 0 <==> !s.persistSessionCookies)
    ensures (raw.persistUserPreferences == 1 <==> s.persistUserPreferences)
      && (raw.persistUserPreferences == 0 <==> !s.persistUserPreferences)
    ensures (raw.packLoadingDisabled == 1 <==> s.packLoadingDisabled)
      && (raw.packLoadingDisabled == 0 <==> !s.packLoadingDisabled)
    ensures (raw.cookieableSchemesExcludeDefaults == 1 <==> s.cookieableSchemesExcludeDefaults)
      && (raw.cookieableSchemesExcludeDefaults == 0 <==> !s.cookieableSchemesExcludeDefaults)
    ensures BorrowedView(raw.browserSubprocessPath, s.browserSubprocessPath)
    ensures BorrowedView(raw.frameworkDirPath, s.frameworkDirPath)
    ensures BorrowedView(raw.mainBundlePath, s.mainBundlePath)
    ensures BorrowedView(raw.cachePath, s.cachePath)
    ensures BorrowedView(raw.rootCachePath, s.rootCachePath)
    ensures BorrowedView(raw.userAgent, s.userAgent)
    ensures BorrowedView(raw.userAgentProduct, s.userAgentProduct)
    ensures BorrowedView(raw.locale, s.locale)
    ensures BorrowedView(raw.logFile, s.logFile)
    ensures BorrowedView(raw.javascriptFlags, s.javascriptFlags)
    ensures BorrowedView(raw.resourcesDirPath, s.resourcesDirPath)
    ensures BorrowedView(raw.localesDirPath, s.localesDirPath)
    ensures BorrowedView(raw.acceptLanguageList, s.acceptLanguageList)
    ensures BorrowedView(raw.cookieableSchemesList, s.cookieableSchemesList)
    ensures BorrowedView(raw.chromePolicyId, s.chromePolicyId)
    ensures SameLow32(raw.remoteDebuggingPort, s.remoteDebuggingPort)
    ensures SameLow32(raw.uncaughtExceptionStackSize, s.uncaughtExceptionStackSize)
    ensures raw.backgroundColor == s.backgroundColor && raw.chromeAppIconId == s.chromeAppIconId
    ensures raw.logSeverity == s.logSeverity && raw.logItems == s.logItems
    ensures ReadableStrings(raw)
  {
    RawSettings(
      settingsSize,
      BoolToCInt(s.noSandbox),
      Strings.GetRaw(s.browserSubprocessPath),
      Strings.GetRaw(s.frameworkDirPath),
      Strings.GetRaw(s.mainBundlePath),
      BoolToCInt(s.chromeRuntime),
      BoolToCInt(s.multiThreadedMessageLoop),
      BoolToCInt(s.externalMessagePump),
      BoolToCInt(s.windowlessRenderingEnabled),
      BoolToCInt(s.commandLineArgsDisabled),
      Strings.GetRaw(s.cachePath),
      Strings.GetRaw(s.rootCachePath),
      BoolToCInt(s.persistSessionCookies),
      BoolToCInt(s.persistUserPreferences),
      Strings.GetRaw(s.userAgent),
      Strings.GetRaw(s.userAgentProduct),
      Strings.GetRaw(s.locale),
      Strings.GetRaw(s.logFile),
      s.logSeverity,
      s.logItems,
      Strings.GetRaw(s.javascriptFlags),
      Strings.GetRaw(s.resourcesDirPath),
      Strings.GetRaw(s.localesDirPath),
      BoolToCInt(s.packLoadingDisabled),
      U32AsCInt(s.remoteDebuggingPort),
      U32AsCInt(s.uncaughtExceptionStackSize),
      s.backgroundColor,
      Strings.GetRaw(s.acceptLanguageList),
      Strings.GetRaw(s.cookieableSchemesList),
      BoolToCInt(s.cookieableSchemesExcludeDefaults),
      Strings.GetRaw(s.chromePolicyId),
      s.chromeAppIconId)
  }

  /** `try_into().expect(message)` on one string field. */
  function ConvertField(raw: RawString, message: string): (r: Panicking<CefString>)
    requires Readable(raw)
    ensures r.Returns? <==> Convertible(raw)
    ensures r.Returns? ==> r.value == Content(raw)
    ensures r.Panics? ==> r.message == message
  {
    Expect(TryFrom(raw), message)
  }

  /** `From<&cef_settings_t> for Settings`: every `c_int` flag is decoded as `> 0`, the
      strings are copied, the `c_int` numbers are reinterpreted as `u32`, and the rest is
      copied. A string field that does not convert makes it panic (the first such field, in
      declaration order, names itself in the message). */
  function SettingsFrom(raw: RawSettings): (r: Panicking<Settings>)
    requires ReadableStrings(raw)
    ensures r.Returns? <==> ConvertibleStrings(raw)
  {
    var browserSubprocessPath :- ConvertField(raw.browserSubprocessPath, "Error converting browser_subprocess_path string");
    var frameworkDirPath :- ConvertField(raw.frameworkDirPath, "Error converting framework_dir_path string");
    var mainBundlePath :- ConvertField(raw.mainBundlePath, "Error converting main_bundle_path string");
    var cachePath :- ConvertField(raw.cachePath, "Error converting cache_path string");
    var rootCachePath :- ConvertField(raw.rootCachePath, "Error converting root_cache_path string");
    var userAgent :- ConvertField(raw.userAgent, "Error converting user_agent string");
    var userAgentProduct :- ConvertField(raw.userAgentProduct, "Error converting user_agent_product string");
    var locale :- ConvertField(raw.locale, "Error converting locale string");
    var logFile :- ConvertField(raw.logFile, "Error converting log_file string");
    var javascriptFlags :- ConvertField(raw.javascriptFlags, "Error converting javascript_flags string");
    var resourcesDirPath :- ConvertField(raw.resourcesDirPath, "Error converting resources_dir_path string");
    var localesDirPath :- ConvertField(raw.localesDirPath, "Error converting locales_dir_path string");
    var acceptLanguageList :- ConvertField(raw.acceptLanguageList, "Error converting accept_language_list string");
    var cookieableSchemesList :- ConvertField(raw.cookieableSchemesList, "Error converting cookieable_schemes_list string");
    var chromePolicyId :- ConvertField(raw.chromePolicyId, "Error converting chrome_policy_id string");
    Returns(Settings(
      CIntToBool(raw.noSandbox),
      browserSubprocessPath,
      frameworkDirPath,
      mainBundlePath,
      CIntToBool(raw.chromeRuntime),
      CIntToBool(raw.multiThreadedMessageLoop),
      CIntToBool(raw.externalMessagePump),
      CIntToBool(raw.windowlessRenderingEnabled),
      CIntToBool(raw.commandLineArgsDisabled),
      cachePath,
      rootCachePath,
      CIntToBool(raw.persistSessionCookies),
      CIntToBool(raw.persistUserPreferences),
      userAgent,
      userAgentProduct,
      locale,
      logFile,
      raw.logSeverity,
      raw.logItems,
      javascriptFlags,
      resourcesDirPath,
      localesDirPath,
      CIntToBool(raw.packLoadingDisabled),
      CIntAsU32(raw.remoteDebuggingPort),
      CIntAsU32(raw.uncaughtExceptionStackSize),
      raw.backgroundColor,
      acceptLanguageList,
      cookieableSchemesList,
      CIntToBool(raw.cookieableSchemesExcludeDefaults),
      chromePolicyId,
      raw.chromeAppIconId))
  }

  /** On a struct whose strings all convert, `from` decodes every flag as `> 0` (any
      positive value is true, zero and negative values are false), copies each string's
      content, reinterprets the `c_int` numbers as `u32` and copies the
      rest. */
  lemma SettingsFromFields(raw: RawSettings)
    requires ReadableStrings(raw) && ConvertibleStrings(raw)
    ensures SettingsFrom(raw).Returns?
    ensures var s := SettingsFrom(raw).value;
      && (s.noSandbox <==> raw.noSandbox > 0)
      && (s.chromeRuntime <==> raw.chromeRuntime > 0)
      && (s.multiThreadedMessageLoop <==> raw.multiThreadedMessageLoop > 0)
      && (s.externalMessagePump <==> raw.externalMessagePump > 0)
      && (s.windowlessRenderingEnabled <==> raw.windowlessRenderingEnabled > 0)
      && (s.commandLineArgsDisabled <==> raw.commandLineArgsDisabled > 0)
      && (s.persistSessionCookies <==> raw.persistSessionCookies > 0)
      && (s.persistUserPreferences <==> raw.persistUserPreferences > 0)
      && (s.packLoadingDisabled <==> raw.packLoadingDisabled > 0)
      && (s.cookieableSchemesExcludeDefaults <==> raw.cookieableSchemesExcludeDefaults > 0)
      && s.browserSubprocessPath == Content(raw.browserSubprocessPath)
      && s.frameworkDirPath == Content(raw.frameworkDirPath)
      && s.mainBundlePath == Content(raw.mainBundlePath)
      && s.cachePath == Content(raw.cachePath)
      && s.rootCachePath == Content(raw.rootCachePath)
      && s.userAgent == Content(raw.userAgent)
      && s.userAgentProduct == Content(raw.userAgentProduct)
      && s.locale == Content(raw.locale)
      && s.logFile == Content(raw.logFile)
      && s.javascriptFlags == Content(raw.javascriptFlags)
      && s.resourcesDirPath == Content(raw.resourcesDirPath)
      && s.localesDirPath == Content(raw.localesDirPath)
      && s.acceptLanguageList == Content(raw.acceptLanguageList)
      && s.cookieableSchemesList == Content(raw.cookieableSchemesList)
      && s.chromePolicyId == Content(raw.chromePolicyId)
      && SameLow32(s.remoteDebuggingPort, raw.remoteDebuggingPort)
      && SameLow32(s.uncaughtExceptionStackSize, raw.uncaughtExceptionStackSize)
      && s.backgroundColor == raw.backgroundColor && s.chromeAppIconId == raw.chromeAppIconId
      && s.logSeverity == raw.logSeverity && s.logItems == raw.logItems
  {
  }

  /** The fifteen views `get_raw` lends out all convert, each to the string it shows. */
  lemma {:induction false} GetRawStringsConvert(settingsSize: USize, s: Settings)
    ensures ReadableStrings(GetRaw(settingsSize, s))
    ensures ConvertibleStrings(GetRaw(settingsSize, s))
    ensures var raw := GetRaw(settingsSize, s);
      && Content(raw.browserSubprocessPath) == s.browserSubprocessPath
      && Content(raw.frameworkDirPath) == s.frameworkDirPath
      && Content(raw.mainBundlePath) == s.mainBundlePath
      && Content(raw.cachePath) == s.cachePath
      && Content(raw.rootCachePath) == s.rootCachePath
      && Content(raw.userAgent) == s.userAgent
      && Content(raw.userAgentProduct) == s.userAgentProduct
      && Content(raw.locale) == s.locale
      && Content(raw.logFile) == s.logFile
      && Content(raw.javascriptFlags) == s.javascriptFlags
      && Content(raw.resourcesDirPath) == s.resourcesDirPath
      && Content(raw.localesDirPath) == s.localesDirPath
      && Content(raw.acceptLanguageList) == s.acceptLanguageList
      && Content(raw.cookieableSchemesList) == s.cookieableSchemesList
      && Content(raw.chromePolicyId) == s.chromePolicyId
  {
    var raw := GetRaw(settingsSize, s);
    BorrowedViewRoundTrip(raw.browserSubprocessPath, s.browserSubprocessPath);
    BorrowedViewRoundTrip(raw.frameworkDirPath, s.frameworkDirPath);
    BorrowedViewRoundTrip(raw.mainBundlePath, s.mainBundlePath);
    BorrowedViewRoundTrip(raw.cachePath, s.cachePath);
    BorrowedViewRoundTrip(raw.rootCachePath, s.rootCachePath);
    BorrowedViewRoundTrip(raw.userAgent, s.userAgent);
    BorrowedViewRoundTrip(raw.userAgentProduct, s.userAgentProduct);
    BorrowedViewRoundTrip(raw.locale, s.locale);
    BorrowedViewRoundTrip(raw.logFile, s.logFile);
    BorrowedViewRoundTrip(raw.javascriptFlags, s.javascriptFlags);
    BorrowedViewRoundTrip(raw.resourcesDirPath, s.resourcesDirPath);
    BorrowedViewRoundTrip(raw.localesDirPath, s.localesDirPath);
    BorrowedViewRoundTrip(raw.acceptLanguageList, s.acceptLanguageList);
    BorrowedViewRoundTrip(raw.cookieableSchemesList, s.cookieableSchemesList);
    BorrowedViewRoundTrip(raw.chromePolicyId, s.chromePolicyId);
  }

  /** Every `Settings` value survives `get_raw` then `from` unchanged: booleans through
      0/1 and `> 0`, strings through the borrowed view, the `u32` numbers through `c_int`
      (lossless for every `u32`), and the copied fields trivially. */
  lemma {:induction false} SettingsRoundTrip(settingsSize: USize, s: Settings)
    ensures SettingsFrom(GetRaw(settingsSize, s)) == Returns(s)
  {
    var raw := GetRaw(settingsSize, s);
    GetRawStringsConvert(settingsSize, s);
    SettingsFromFields(raw);
    U32CIntRoundTrip(s.remoteDebuggingPort, 0);
    U32CIntRoundTrip(s.uncaughtExceptionStackSize, 0);
  }
}
