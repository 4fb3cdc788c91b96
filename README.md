# Florae UI test suite: verified model of its self-contained logic

The suite drives the Florae plant-tracking Android app through an Appium
session. Almost all of it is a thin layer over the Appium/Selenium client. A
few pieces hold logic of their own, and this project models and proves those:

- **Key-code encoder** (`helpers.dfy`, module `Helpers`). A string over the
  digits and `/` becomes the Android key codes that type it on the numeric
  keypad. Digit *d* becomes 7 + *d* and `/` becomes 76. The first character
  outside the table raises a `ValueError` whose text names the whole string
  and that character. `EncodeChars` is the reference definition. `Encode` is
  what the helper returns. `ConvertStringToNativeKey` is the helper's own loop,
  proved equal to `Encode`.
- **Action helper** (`action.dfy`, module `Action`). `CalculateElementPoints`
  gives the nine anchor points of an element's bounding box, halving with
  Python's floor division. The remote driver is a class `Driver`. It holds the
  bounds of the element each locator finds, plus two append-only logs: the key
  codes pressed and the points tapped. The `Action` class sends key codes one
  press per code, sends enter (66) and back (4), and taps an element at its
  `mid` anchor. Each method's contract states the whole new log.
- **Session bootstrap** (`core.dfy`, module `Core`). The configuration
  dataclasses become datatypes. `CreateOptions` builds the capability map
  (`map<string, Value>`, where `Value` is a string, a boolean or an integer)
  the way `DeviceOptionsFactory.create_options` does. It starts from the
  fixed and APPIUM-section entries, then takes a three-way branch on
  `connected_device`, then adds `app`. `AppiumUrl` is `TestCore.appium_url`.
- `wrappers.dfy` holds the `Option`, `Result` and `Outcome` types. The errors
  the modelled code raises itself (the unmappable character, no such element)
  are returned as their failure cases; the other driver calls are assumed to
  succeed (see "Left out").

Data model (types and constants, which carry no contract of their own):

| declaration | source |
|---|---|
| `Helpers.NativeKeyCodes` | src/utils/helpers.py:12-24, the eleven-entry key-code table |
| `Helpers.KeyMapError` | src/utils/helpers.py:33-35, the `ValueError` with the input and the character |
| `Core.EnvConfig` | src/tests/core.py:30-41 |
| `Core.AppiumConfig` | src/tests/core.py:44-67 |
| `Core.AndroidConfig` | src/tests/core.py:70-89 |
| `Core.AppConfig` | src/tests/core.py:92-104 |
| `Core.Value` | src/tests/core.py:175, the `Any` values of the capability dictionary |
| `Action.Bounds`, `Action.Point`, `Action.ElementPoints` | src/utils/action.py:44-57 |
| `Action.Driver` | src/utils/action.py:120, 83, 89-95, the driver calls the actions make |
| `Action.Locator` | src/utils/action.py:60, 73, the `(by, value)` pair passed to `find_element`; the selector is a string only |
| `Action.EnterKeycode`, `Action.BackKeycode` | src/utils/action.py:139, 144, the literals 66 and 4 |
| `Core.Scheme` | src/tests/core.py:211-219, the constant "http://" of `TestCore.scheme` |

Modelling decisions:

- `EnvConfig.debug` is a `string`. The dataclass annotates it as `bool`, but
  the loader stores the raw text it reads and never converts it
  (src/tests/core.py:128). The model follows the code.
- The working directory (`os.getcwd()`) is a parameter of `CreateOptions`.
  `os.path.join` is `Core.Join`, which follows POSIX joining for two
  components. The properties of the `app` capability hold for any `Join`.
- The dictionary returned by `_calculate_element_points` has nine fixed keys.
  It is modelled as a record with one field per key.
- `find_element` raising "no such element" is `Driver.FindElement` returning
  `None`. `ClickElementCentre` then reports the locator as its failure.

## Model

| member | source | states |
|---|---|---|
| Helpers.EncodeChars | src/utils/helpers.py:26-35 | on success, one code per character, in order, each the table entry of its character; on failure, the error is the first character of the string outside the table |
| Helpers.Encode | src/utils/helpers.py:12-39 | succeeds exactly when every character is in the table; the codes then have the input's length and `codes[i]` is the entry for `value[i]`; a failure carries the whole input and its first unmapped character; the empty string gives the empty list |
| Helpers.ConvertStringToNativeKey | src/utils/helpers.py:26-39 | the per-character append loop with its early raise returns exactly `Encode(value)` |
| Helpers.DigitKeyCode | src/utils/helpers.py:13-22 | each digit d encodes as the single code 7 + d |
| Helpers.SlashKeyCode | src/utils/helpers.py:23 | "/" encodes as the single code 76 |
| Helpers.MappableCharacters | src/utils/helpers.py:12-24 | the accepted characters are exactly `0`-`9` and `/` |
| Helpers.EncodedCodesInRange | src/utils/helpers.py:12-24 | every produced code lies in 7..16 or is 76 |
| Helpers.EncodeCharsConcat | src/utils/helpers.py:29-35 | encoding `a + b` yields the first error of `a`, else the first error of `b`, else the codes of `a` followed by those of `b` |
| Helpers.EncodeConcat | src/utils/helpers.py:29-31 | `a + b` encodes exactly when `a` and `b` both do, and then to the concatenation of their encodings |
| Helpers.KeyMapError.Message | src/utils/helpers.py:33-35 | the error text starts with "Failed to map string (", then holds the whole input string, and ends with the unmapped character in parentheses followed by "." |
| Helpers.EncodeOfDate | src/utils/helpers.py:12-31 | the sample date "06/01/2024" encodes to 7 13 76 7 8 76 9 7 9 11 |
| Action.CalculateElementPoints | src/utils/action.py:44-57 | the four corners are (x,y), (x+w,y), (x,y+h), (x+w,y+h); top points share y, bottom points y+h, left points x, right points x+w; the middle column shares x + w//2, the middle row y + h//2, both floor halves; with w, h >= 0 all nine points lie in the box |
| Action.NegativeWidthRoundsDown | src/utils/action.py:52 | for a width of -3 the centre lies at x - 2, as Python's `//` rounds down |
| Action.Driver.PressKeycode | src/utils/action.py:120 | one press appends its code to the key log and leaves the tap log alone |
| Action.Driver.Tap | src/utils/action.py:89-95 | a touch at a point appends that point to the tap log and leaves the key log alone |
| Action.Driver.FindElement | src/utils/action.py:83 | returns the bounds of the element the locator finds, and none exactly when no element matches |
| Action.Action.SendKeycode | src/utils/action.py:112-121 | the key log grows by exactly the given code |
| Action.Action.SendKeycodes | src/utils/action.py:123-135 | on a convertible string the key log grows by exactly its encoding, in order; otherwise the conversion error is raised and nothing is pressed |
| Action.Action.SendEnterKey | src/utils/action.py:137-140 | the key log grows by exactly 66 |
| Action.Action.SendBackKey | src/utils/action.py:142-145 | the key log grows by exactly 4 |
| Action.Action.ClickElementCentre | src/utils/action.py:83-95 | taps once, at the `mid` anchor of the located element's bounds, and presses no key; with no matching element nothing is tapped |
| Action.EnterDate | src/pages/plant/page.py:62-63 | the date's codes and then 66 are pressed; an unencodable date raises before any key is pressed; nothing is tapped |
| Action.EnterSampleDate | src/pages/plant/page.py:62-63 | entering the sample date "06/01/2024" presses 7 13 76 7 8 76 9 7 9 11 and then 66, and taps nothing |
| Core.Join | src/tests/core.py:201 | an absolute APK path is kept as is; a relative one is placed after the working directory, with one slash between them unless the directory is empty or already ends in a slash; the result always ends with the APK path |
| Core.CreateOptions | src/tests/core.py:175-203 | the eight fixed capabilities hold their constants; the six APPIUM values are copied; PHYSICAL gives `udid` and `deviceName` from `id_physical` and no `avd`; WIFI gives `deviceName` from `id_wifi` and neither `udid` nor `avd`; any other value gives `avd` and `deviceName` from `id_virtual` and no `udid`; `app` is `Join(cwd, apk)`; no other key exists |
| Core.AppiumUrl | src/tests/core.py:211-229 | the URL is "http://", then the host, then ":", then the port, each at its position |
| Core.AppiumUrlRoundTrip | src/tests/core.py:221-229 | for a host without a colon, splitting the URL after the scheme at its first colon gives back the host and the port |

## Left out

- `ConfigLoader.load_config` (src/tests/core.py:107-155): it reads the file
  with `configparser` and converts values with `ast.literal_eval` and `int`.
  Both are library behaviour, so the configuration record is an input here.
  Because `debug` stays raw text, any non-empty value, "False" included, is
  truthy where `Platform.remove_output_folder` tests it. Platform is not part
  of this model.
- The `DeviceType` enum (src/tests/core.py:20-27) is never used. The branch in
  `create_options` compares raw strings, and so does the model. Its docstring
  mentions a `device_type` argument that does not exist.
- Session setup and teardown (src/tests/core.py:231-257): the remote session
  lifecycle and the swipe-library wiring.
- `Action.click`, `send_keys`, `dismiss_keyboard` and `get_element_text`: each
  is one remote call with no logic of its own. Logging is not modelled.
- Action.Action.ClickElementCentre: the pointer-down, one-second pause and
  release are modelled as one tap at the `mid` point. Timing is not modelled.
- Remote-call failures: every driver call except `find_element` is assumed to
  succeed. In the source, `press_keycode` (src/utils/action.py:120) can raise
  partway through `send_keycodes`, after some codes were already pressed, and
  `perform` (src/utils/action.py:95) can raise as well; the model's `Driver`
  never fails, so such partial key logs are not modelled.
- The page objects, except the keypad step of `PlantPage.set_day_planted`
  (src/pages/plant/page.py:62-63), which `EnterDate` models; its clicks, swipe
  and waits (src/pages/plant/page.py:56-61 and 64-66) are not modelled.
- The wait helper, device helper, platform helper, locators, exception
  classes and the end-to-end test: they are remote calls, timing, the
  filesystem or static constants. `src/tests/test_basic.py` also imports a
  `TestFailure` that `src/utils/exception.py` does not define.
