/**
  The session bootstrap of the test core: the configuration records, the
  capability map built from them for the Appium session, and the Appium
  server URL.
 */
module Core {
  import opened Wrappers

  /** The ENVIRONMENT section. `debug` is kept as the raw text the loader reads. */
  datatype EnvConfig = EnvConfig(url: string, debug: string)

  /** The APPIUM section. */
  datatype AppiumConfig = AppiumConfig(
    host: string,
    port: string,
    noReset: bool,
    fullReset: bool,
    remoteAppsCacheLimit: int,
    newCommandTimeout: int,
    uiautomator2ServerInstallTimeout: int,
    adbExecTimeout: int)

  /** The ANDROID and APP sections. */
  datatype AndroidConfig = AndroidConfig(
    connectedDevice: string,
    apk: string,
    package: string,
    idPhysical: string,
    idWifi: string,
    idVirtual: string)

  datatype AppConfig = AppConfig(env: EnvConfig, appium: AppiumConfig, android: AndroidConfig)

  /** A capability value: the map holds strings, booleans and integers. */
  datatype Value = Str(s: string) | Bool(b: bool) | Int(i: int)

  /**
    `os.path.join(cwd, path)` for two POSIX components: an absolute `path`
    replaces `cwd`, otherwise the two are joined with one slash.
   */
  function Join(cwd: string, path: string): (r: string)
    ensures |path| > 0 && path[0] == '/' ==> r == path
    ensures |r| >= |path| && r[|r| - |path|..] == path
    // a relative path is placed under `cwd`, with exactly one slash between them
    ensures !(|path| > 0 && path[0] == '/') ==> |r| >= |cwd| && r[..|cwd|] == cwd
    ensures !(|path| > 0 && path[0] == '/') && (cwd == [] || cwd[|cwd| - 1] == '/') ==> r == cwd + path
    ensures !(|path| > 0 && path[0] == '/') && cwd != [] && cwd[|cwd| - 1] != '/' ==> r == cwd + "/" + path
  {
    if |path| > 0 && path[0] == '/' then path
    else if cwd == [] || cwd[|cwd| - 1] == '/' then cwd + path
    else cwd + "/" + path
  }

  /** The capabilities set before the device branch, keyed as `create_options` writes them. */
  const BaseKeys: set<string> := {
    "platformName", "automationName", "noReset", "fullReset", "platformVersion",
    "appPackage", "appActivity", "autoGrantPermissions", "ignoreUnimportantViews",
    "ensureWebviewsHavePages", "remoteAppsCacheLimit", "newCommandTimeout",
    "uiautomator2ServerInstallTimeout", "adbExecTimeout"
  }

  /** The dictionary `create_options` starts from: fixed values and the APPIUM section's. */
  function BaseOptions(appium: AppiumConfig): map<string, Value> {
    map[
      "platformName" := Str("Android"),
      "automationName" := Str("UIAutomator2"),
      "noReset" := Bool(appium.noReset),
      "fullReset" := Bool(appium.fullReset),
      "platformVersion" := Str("13"),
      "appPackage" := Str("cat.naval.florae"),
      "appActivity" := Str(".MainActivity"),
      "autoGrantPermissions" := Bool(true),
      "ignoreUnimportantViews" := Bool(false),
      "ensureWebviewsHavePages" := Bool(true),
      "remoteAppsCacheLimit" := Int(appium.remoteAppsCacheLimit),
      "newCommandTimeout" := Int(appium.newCommandTimeout),
      "uiautomator2ServerInstallTimeout" := Int(appium.uiautomator2ServerInstallTimeout),
      "adbExecTimeout" := Int(appium.adbExecTimeout)
    ]
  }

  /** The keys present whatever the device. */
  const CommonKeys: set<string> := BaseKeys + {"deviceName", "app"}

  /** The keys the device branch and the APK path add are not among the starting ones. */
  lemma AddedKeysAreNew()
    ensures "udid" !in BaseKeys && "avd" !in BaseKeys && "deviceName" !in BaseKeys && "app" !in BaseKeys
  {
  }

  lemma BaseOptionsKeys(appium: AppiumConfig)
    ensures BaseOptions(appium).Keys == BaseKeys
  {
  }

  lemma BaseOptionsFixed(appium: AppiumConfig)
    ensures var m := BaseOptions(appium);
      && m["platformName"] == Str("Android")
      && m["automationName"] == Str("UIAutomator2")
      && m["platformVersion"] == Str("13")
      && m["appPackage"] == Str("cat.naval.florae")
      && m["appActivity"] == Str(".MainActivity")
      && m["autoGrantPermissions"] == Bool(true)
      && m["ignoreUnimportantViews"] == Bool(false)
      && m["ensureWebviewsHavePages"] == Bool(true)
  {
  }

  lemma BaseOptionsCopied(appium: AppiumConfig)
    ensures var m := BaseOptions(appium);
      && m["noReset"] == Bool(appium.noReset)
      && m["fullReset"] == Bool(appium.fullReset)
      && m["remoteAppsCacheLimit"] == Int(appium.remoteAppsCacheLimit)
      && m["newCommandTimeout"] == Int(appium.newCommandTimeout)
      && m["uiautomator2ServerInstallTimeout"] == Int(appium.uiautomator2ServerInstallTimeout)
      && m["adbExecTimeout"] == Int(appium.adbExecTimeout)
  {
  }

  /**
    `DeviceOptionsFactory.create_options`: the fixed capabilities, the APPIUM
    values, the device keys chosen by `connected_device` (any value other than
    "PHYSICAL" or "WIFI" falls back to a virtual device), and the APK path
    joined to the working directory `cwd`.
   */
  method CreateOptions(config: AppConfig, cwd: string) returns (options: map<string, Value>)
    // constant capabilities
    ensures "platformName" in options && options["platformName"] == Str("Android")
    ensures "automationName" in options && options["automationName"] == Str("UIAutomator2")
    ensures "platformVersion" in options && options["platformVersion"] == Str("13")
    ensures "appPackage" in options && options["appPackage"] == Str("cat.naval.florae")
    ensures "appActivity" in options && options["appActivity"] == Str(".MainActivity")
    ensures "autoGrantPermissions" in options && options["autoGrantPermissions"] == Bool(true)
    ensures "ignoreUnimportantViews" in options && options["ignoreUnimportantViews"] == Bool(false)
    ensures "ensureWebviewsHavePages" in options && options["ensureWebviewsHavePages"] == Bool(true)
    // values copied from the APPIUM section
    ensures "noReset" in options && options["noReset"] == Bool(config.appium.noReset)
    ensures "fullReset" in options && options["fullReset"] == Bool(config.appium.fullReset)
    ensures "remoteAppsCacheLimit" in options && options["remoteAppsCacheLimit"] == Int(config.appium.remoteAppsCacheLimit)
    ensures "newCommandTimeout" in options && options["newCommandTimeout"] == Int(config.appium.newCommandTimeout)
    ensures "uiautomator2ServerInstallTimeout" in options
      && options["uiautomator2ServerInstallTimeout"] == Int(config.appium.uiautomator2ServerInstallTimeout)
    ensures "adbExecTimeout" in options && options["adbExecTimeout"] == Int(config.appium.adbExecTimeout)
    // the device branch
    ensures config.android.connectedDevice == "PHYSICAL" ==>
      && options.Keys == CommonKeys + {"udid"}
      && options["udid"] == Str(config.android.idPhysical)
      && options["deviceName"] == Str(config.android.idPhysical)
    ensures config.android.connectedDevice == "WIFI" ==>
      && options.Keys == CommonKeys
      && options["deviceName"] == Str(config.android.idWifi)
    ensures config.android.connectedDevice !in {"PHYSICAL", "WIFI"} ==>
      && options.Keys == CommonKeys + {"avd"}
      && options["avd"] == Str(config.android.idVirtual)
      && options["deviceName"] == Str(config.android.idVirtual)
    // the application path
    ensures "app" in options && options["app"] == Str(Join(cwd, config.android.apk))
  {
    options := BaseOptions(config.appium);
    BaseOptionsFixed(config.appium);
    BaseOptionsCopied(config.appium);
    BaseOptionsKeys(config.appium);
    AddedKeysAreNew();
    ghost var base := options;

    if config.android.connectedDevice == "PHYSICAL" {
      options := options["udid" := Str(config.android.idPhysical)];
      options := options["deviceName" := Str(config.android.idPhysical)];
      assert options.Keys == BaseKeys + {"udid", "deviceName"};
    } else if config.android.connectedDevice == "WIFI" {
      options := options["deviceName" := Str(config.android.idWifi)];
      assert options.Keys == BaseKeys + {"deviceName"};
    } else {
      options := options["avd" := Str(config.android.idVirtual)];
      options := options["deviceName" := Str(config.android.idVirtual)];
      assert options.Keys == BaseKeys + {"avd", "deviceName"};
    }
    assert forall k | k in BaseKeys :: k in options && options[k] == base[k];

    options := options["app" := Str(Join(cwd, config.android.apk))];
  }

  /** `TestCore.scheme`. */
  const Scheme: string := "http://"

  /** `TestCore.appium_url`: the scheme, the host, a colon and the port. */
  function AppiumUrl(appium: AppiumConfig): (url: string)
    ensures |url| == |Scheme| + |appium.host| + 1 + |appium.port|
    ensures url[..|Scheme|] == Scheme
    ensures url[|Scheme|..|Scheme| + |appium.host|] == appium.host
    ensures url[|Scheme| + |appium.host|] == ':'
    ensures url[|Scheme| + |appium.host| + 1..] == appium.port
  {
    Scheme + appium.host + ":" + appium.port
  }

  /** Splits `s` at its first occurrence of `c`. */
  function SplitAtFirst(s: string, c: char): Option<(string, string)> {
    if s == [] then None
    else if s[0] == c then Some(([], s[1..]))
    else match SplitAtFirst(s[1..], c)
      case None => None
      case Some(parts) => Some(([s[0]] + parts.0, parts.1))
  }

  /** Reads the host and port back from an http URL, splitting at the first colon after the scheme. */
  function HostAndPort(url: string): Option<(string, string)> {
    if |url| >= |Scheme| && url[..|Scheme|] == Scheme then SplitAtFirst(url[|Scheme|..], ':')
    else None
  }

  lemma {:induction false} SplitAtFirstJoined(a: string, c: char, b: string)
    requires c !in a
    ensures SplitAtFirst(a + [c] + b, c) == Some((a, b))
  {
    var s := a + [c] + b;
    if a == [] {
      assert s[0] == c && s[1..] == b;
    } else {
      assert s[0] == a[0] && s[1..] == a[1..] + [c] + b;
      SplitAtFirstJoined(a[1..], c, b);
      assert [a[0]] + a[1..] == a;
    }
  }

  /** The URL determines the host and the port, provided the host holds no colon. */
  lemma AppiumUrlRoundTrip(appium: AppiumConfig)
    requires ':' !in appium.host
    ensures HostAndPort(AppiumUrl(appium)) == Some((appium.host, appium.port))
  {
    var url := AppiumUrl(appium);
    assert url[|Scheme|..] == appium.host + [':'] + appium.port;
    SplitAtFirstJoined(appium.host, ':', appium.port);
  }
}
