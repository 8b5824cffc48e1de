# External scanner detection, modelled in Dafny

The library lets a React Native app tell fast keystroke bursts from an
external HID scanner (a barcode or RFID reader acting as a keyboard) apart
from human typing. It also keeps track of which external input devices are
attached. This project models:

- the platform-independent scan engine and device registry (`HybridExternalScanner`);
- its iOS subclass;
- its Android subclass and the Android entry points from Kotlin;
- the Kotlin utility that classifies Android input devices, lists and
  serialises them, and decides which key events it intercepts.

Module layout:

| file | module | what it holds |
|---|---|---|
| `common.dfy` | `Common` | device records, scan results, the notifications the callbacks receive |
| `keycodes.dfy` | `KeyCodes` | `isEnterKey` and the `keyCodeToChar` fallback |
| `registry.dfy` | `DeviceRegistry` | connect and disconnect on the device list, as functions |
| `scan_logic.dfy` | `ScanLogic` | the engine as a value: `processBuffer`, `onKeyEvent`, and what a stream of keys does |
| `scanner.dfy` | `Scanner` | the class `HybridExternalScanner`, its fields updated in place, each method proved to follow `ScanLogic`/`DeviceRegistry` |
| `ios_adapter.dfy` | `IosScanner` | the iOS overrides, `handleKeyInput`, `updateDevices` |
| `classifier.dfy` | `DeviceClassifier` | `isExternalScannerDevice` |
| `scanner_util.dfy` | `ScannerUtil` | the Kotlin listing, its JSON text, the interception flag, `processKeyEvent` |
| `android_adapter.dfy` | `AndroidScanner` | the Android overrides, `setDevicesFromJava`, the JNI entry points, Java strings as modified UTF-8 |

How the platform pieces are modelled:

- **Callbacks.** Each installed callback is an `Option<ListenerId>`. Every
  invocation is appended, with its arguments, to the scanner's
  `notifications` field. So "the listener hears X" is part of a method's
  postcondition.
- **Clocks.** The two clocks are parameters. `now` is the monotonic time in
  milliseconds. `wallClock` is the time since the epoch that stamps a
  completed scan.
- **Subclasses.** The platform subclasses are methods over the base object.
  Their overrides call the base methods, as the C++ does.
- **Byte strings.** The engine's `std::string` buffer is a sequence of bytes.
  Kotlin strings are sequences of UTF-16 code units. On Android, the bytes
  the engine receives are the modified UTF-8 that `GetStringUTFChars`
  writes.

Facts the proofs bring out:

- Key code 40 is `0x28`, the USB HID Return the iOS path reports. It is also
  Android's `KEYCODE_L`. The engine always treats 40 as Enter, so on that
  path an `l` key ends the scan and its character never reaches the buffer.
  `KeyCodes.Code40IsBothLAndEnter` states this.
- `onDeviceConnected` tells the listener `true` whether or not the device was
  new. After a connect, the registry holds the id, so `true` is also "the
  registry is non-empty".
- The listener is called on every connect and disconnect, not only when the
  registry changes between empty and non-empty. The model follows the code.
  Only the iOS `updateDevices` calls the listener after a bulk replace; the
  Android `setDevicesFromJava` calls nothing.
- The JSON text Kotlin writes does not escape names. One device whose name
  contains a quote, a brace and a comma prints exactly like two devices.

## Model

| member | source | states |
|---|---|---|
| KeyCodes.IsEnterKey | cpp/HybridExternalScanner.cpp:148-152 | a key code ends a scan exactly when it is one of Android Enter 66, numpad Enter 160, HID Return 0x28 (40) |
| KeyCodes.KeyCodeToChar | cpp/HybridExternalScanner.cpp:154-168 | 7..16 give "0".."9"; 29..54 give "a".."z", upper case with shift; any other code gives ""; at most one byte |
| KeyCodes.KeyCodeRoundTrip | cpp/HybridExternalScanner.cpp:157-165 | every digit and letter key yields one character, and that character leads back to the key |
| KeyCodes.CharRoundTrip | cpp/HybridExternalScanner.cpp:157-165 | every ASCII digit and lower-case letter comes from exactly the key KeyCodeFor names |
| KeyCodes.ShiftUppercases | cpp/HybridExternalScanner.cpp:160-165 | shift changes no length and no digit: each character becomes its upper case |
| KeyCodes.Code40IsBothLAndEnter | cpp/HybridExternalScanner.cpp:148-165 | code 40 is a terminator, yet the fallback maps it to "l" / "L" |
| DeviceRegistry.Connect | cpp/HybridExternalScanner.cpp:96-106 | the id is present afterwards; the old list is a prefix; the list grows by the device exactly when its id was absent; unique ids stay unique |
| DeviceRegistry.Disconnect | cpp/HybridExternalScanner.cpp:113-121 | no entry with the id is left; the list shrinks exactly when the id was present |
| DeviceRegistry.DisconnectMembers | cpp/HybridExternalScanner.cpp:116-120 | an entry survives a disconnect exactly when it was there and has another id |
| DeviceRegistry.DisconnectConcat | cpp/HybridExternalScanner.cpp:116-120 | removal works piecewise over a concatenation, so the survivors keep their order |
| DeviceRegistry.DisconnectAbsent | cpp/HybridExternalScanner.cpp:113-121 | disconnecting an id that is not there changes nothing |
| DeviceRegistry.DisconnectCons | cpp/HybridExternalScanner.cpp:116-120 | the head entry is dropped when it has the id and kept in front otherwise |
| DeviceRegistry.DisconnectUndoesConnect | cpp/HybridExternalScanner.cpp:96-121 | connecting a new id and then disconnecting it gives the original list back |
| DeviceRegistry.ConnectIdempotent | cpp/HybridExternalScanner.cpp:99-105 | a second connect with the same id, whatever its other fields, changes nothing (first writer wins) |
| DeviceRegistry.DisconnectKeepsUniqueIds | cpp/HybridExternalScanner.cpp:113-121 | disconnect keeps ids unique |
| DeviceRegistry.ConnectAllKeepsUniqueIds | cpp/HybridExternalScanner.cpp:96-106 | any run of connects keeps unique ids unique and leaves every connected id present |
| DeviceRegistry.ConnectAllKeepsIds | cpp/HybridExternalScanner.cpp:96-106 | connects never lose an id already present |
| ScanLogic.ProcessBuffer | cpp/HybridExternalScanner.cpp:129-142 | exactly one scan carrying the buffer is reported iff the buffer has at least the minimum length and a scan callback is installed; the buffer is empty afterwards |
| ScanLogic.OnKeyEvent | cpp/HybridExternalScanner.cpp:57-94 | no effect unless scanning and key-down; the last-key time becomes `now`; Enter empties the buffer and reaches no char listener; another key appends its bytes to what the gap left; the char listener hears non-empty characters once; the scans are those of the gap and then of Enter |
| ScanLogic.FeedConcat | cpp/HybridExternalScanner.cpp:57-94 | feeding two key streams in turn is feeding their concatenation |
| ScanLogic.StoppedEngineIgnoresAll | cpp/HybridExternalScanner.cpp:58-60 | a stopped engine ignores every stream of key events and notifies nobody |
| ScanLogic.BurstAccumulates | cpp/HybridExternalScanner.cpp:73-93 | non-Enter key-downs within the timeout, including ones with no characters, append all their bytes in order, move the last-key time to the last key, and report no scan |
| ScanLogic.BurstThenEnter | cpp/HybridExternalScanner.cpp:73-93 | a burst closed by Enter reports exactly its bytes once, when long enough and a scan callback is installed, and leaves the buffer empty |
| ScanLogic.ShiftInsideBurst | cpp/HybridExternalScanner.cpp:73-93 | a Shift key-down with no characters inside a burst does not break it: Shift, 'A', Enter reports "A" |
| ScanLogic.GapSplitsScans | cpp/HybridExternalScanner.cpp:73-77 | a key after a gap longer than the timeout reports or drops the old buffer and starts a new one with its own bytes |
| ScanLogic.EnterAfterGapWithZeroMinimum | cpp/HybridExternalScanner.cpp:73-83 | with a minimum of 0, Enter after a gap reports the old buffer and then an empty scan |
| Scanner.HybridExternalScanner.constructor | cpp/HybridExternalScanner.hpp:36-52 | a new scanner is not scanning, its buffer and registry are empty, the timeout is 50 ms, the minimum is 3, no callback is installed |
| Scanner.HybridExternalScanner.HasExternalScanner | cpp/HybridExternalScanner.cpp:14-17 | true exactly when the registry is non-empty |
| Scanner.HybridExternalScanner.GetConnectedDevices | cpp/HybridExternalScanner.cpp:19-22 | the registry as it is |
| Scanner.HybridExternalScanner.OnScannerConnectionChanged | cpp/HybridExternalScanner.cpp:24-26 | the connection listener is replaced |
| Scanner.HybridExternalScanner.StartScanning | cpp/HybridExternalScanner.cpp:28-36 | both callbacks installed, scanning on, buffer empty, nothing else changed |
| Scanner.HybridExternalScanner.StopScanning | cpp/HybridExternalScanner.cpp:38-43 | scanning off, both callbacks dropped, buffer empty, nothing else changed |
| Scanner.HybridExternalScanner.IsScanning | cpp/HybridExternalScanner.cpp:45-47 | the scanning flag |
| Scanner.HybridExternalScanner.SetScanTimeout | cpp/HybridExternalScanner.cpp:49-51 | the timeout is set |
| Scanner.HybridExternalScanner.SetMinScanLength | cpp/HybridExternalScanner.cpp:53-55 | the minimum is set |
| Scanner.HybridExternalScanner.OnKeyEvent | cpp/HybridExternalScanner.cpp:57-94 | the fields change exactly as ScanLogic.OnKeyEvent says, and its notifications are appended |
| Scanner.HybridExternalScanner.OnDeviceConnected | cpp/HybridExternalScanner.cpp:96-111 | the registry becomes Connect of the old one; the listener, if any, hears `true` |
| Scanner.HybridExternalScanner.OnDeviceDisconnected | cpp/HybridExternalScanner.cpp:113-127 | the registry becomes Disconnect of the old one; the listener, if any, hears whether a device is left |
| Scanner.HybridExternalScanner.ProcessBuffer | cpp/HybridExternalScanner.cpp:129-142 | the fields change exactly as ScanLogic.ProcessBuffer says, and its notification is appended |
| Scanner.HybridExternalScanner.ClearBuffer | cpp/HybridExternalScanner.cpp:144-146 | the buffer is empty |
| Scanner.FreshScannerIgnoresKeys | cpp/HybridExternalScanner.hpp:36-44 | a new scanner ignores any key event until startScanning |
| Scanner.DefaultsReportThreeDigits | cpp/HybridExternalScanner.hpp:40-41 | under the defaults, "123" typed 10 ms apart then Enter reports "123" once |
| Scanner.DefaultsDropTwoDigits | cpp/HybridExternalScanner.hpp:40-41 | under the defaults, "12" then Enter is below the minimum length and reports nothing |
| IosScanner.HasExternalScanner | cpp/HybridExternalScanner_ios.cpp:24-27 | the base answer: the registry is non-empty |
| IosScanner.GetConnectedDevices | cpp/HybridExternalScanner_ios.cpp:29-31 | the base answer: the registry |
| IosScanner.StartScanning | cpp/HybridExternalScanner_ios.cpp:33-39 | exactly the base start |
| IosScanner.StopScanning | cpp/HybridExternalScanner_ios.cpp:41-44 | exactly the base stop |
| IosScanner.HandleKeyInput | cpp/HybridExternalScanner_ios.cpp:46-49 | a key-up changes nothing; a key-down is the engine's key event with action 0 and device id 0 |
| IosScanner.UpdateDevices | cpp/HybridExternalScanner_ios.cpp:51-60 | the registry becomes exactly the given list, duplicates included; the listener, if any, hears whether it is non-empty |
| DeviceClassifier.LowerChar | android/src/main/java/com/margelo/nitro/externalscanner/ExternalScannerUtil.kt:216 | an ASCII capital moves to its lower case; every other character stays |
| DeviceClassifier.Lower | android/src/main/java/com/margelo/nitro/externalscanner/ExternalScannerUtil.kt:216 | same length, each character lower-cased |
| DeviceClassifier.IsExternalScannerDevice | android/src/main/java/com/margelo/nitro/externalscanner/ExternalScannerUtil.kt:212-276 | virtual devices, built-in names and devices without the full keyboard source bits are refused; otherwise accepted iff the name has a scanner keyword or both USB ids are positive |
| DeviceClassifier.LowerIdempotent | android/src/main/java/com/margelo/nitro/externalscanner/ExternalScannerUtil.kt:216 | lower-casing twice is lower-casing once |
| DeviceClassifier.CaseInsensitive | android/src/main/java/com/margelo/nitro/externalscanner/ExternalScannerUtil.kt:216 | the decision does not depend on the case of the name's letters |
| DeviceClassifier.GpioPrefixRuleSubsumed | android/src/main/java/com/margelo/nitro/externalscanner/ExternalScannerUtil.kt:226-235 | the "gpio-" prefix rule never decides anything the "gpio" fragment has not |
| DeviceClassifier.RfidIsNotInternal | android/src/main/java/com/margelo/nitro/externalscanner/ExternalScannerUtil.kt:219-238 | no deny rule refuses the name "rfid" |
| DeviceClassifier.KeywordAcceptsWithoutUsbIds | android/src/main/java/com/margelo/nitro/externalscanner/ExternalScannerUtil.kt:251-268 | a keyboard named "RFID" is accepted without USB ids |
| DeviceClassifier.PlainKeyboardNeedsUsbIds | android/src/main/java/com/margelo/nitro/externalscanner/ExternalScannerUtil.kt:244-275 | a plain keyboard name is refused without USB ids, accepted with them, and refused without the keyboard bits |
| DeviceClassifier.BuiltInNameRefused | android/src/main/java/com/margelo/nitro/externalscanner/ExternalScannerUtil.kt:235-242 | "gpio-keys" is refused even with USB ids |
| ScannerUtil.IsExternalScanner | android/src/main/java/com/margelo/nitro/externalscanner/ExternalScannerUtil.kt:203-206 | an id with no device behind it is not a scanner; otherwise the classifier decides |
| ScannerUtil.HasExternalScanner | android/src/main/java/com/margelo/nitro/externalscanner/ExternalScannerUtil.kt:51-56 | some listed id belongs to a scanner |
| ScannerUtil.CollectReportsExternalScanners | android/src/main/java/com/margelo/nitro/externalscanner/ExternalScannerUtil.kt:106-126 | every listed device is external and is the record of a scanner behind a listed id |
| ScannerUtil.CollectEmptyIffNoScanner | android/src/main/java/com/margelo/nitro/externalscanner/ExternalScannerUtil.kt:106-126 | the listing is non-empty exactly when some listed id belongs to a scanner |
| ScannerUtil.HasScannerIffListed | android/src/main/java/com/margelo/nitro/externalscanner/ExternalScannerUtil.kt:51-56 | hasExternalScanner is true exactly when getConnectedDevices is non-empty |
| ScannerUtil.GetConnectedDevices | android/src/main/java/com/margelo/nitro/externalscanner/ExternalScannerUtil.kt:106-126 | the scanners behind the listed ids, in id order, each external |
| ScannerUtil.NatTextRoundTrip | android/src/main/java/com/margelo/nitro/externalscanner/ExternalScannerUtil.kt:91 | the decimal digits written for a number denote that number |
| ScannerUtil.ObjectJson | android/src/main/java/com/margelo/nitro/externalscanner/ExternalScannerUtil.kt:90-96 | the pieces appended one by one give the object text: the id, the quoted name, the vendor id, the product id and the external flag, in that order, in braces |
| ScannerUtil.GetConnectedDevicesJson | android/src/main/java/com/margelo/nitro/externalscanner/ExternalScannerUtil.kt:85-100 | the text built piece by piece is "[", the device objects comma-separated in listing order, and "]" |
| ScannerUtil.JsonOfShortLists | android/src/main/java/com/margelo/nitro/externalscanner/ExternalScannerUtil.kt:85-100 | an empty listing gives "[]"; one device gives its object in brackets |
| ScannerUtil.JsonAppend | android/src/main/java/com/margelo/nitro/externalscanner/ExternalScannerUtil.kt:88-98 | a further device adds a comma and its object before the closing bracket |
| ScannerUtil.JsonOfPairs | android/src/main/java/com/margelo/nitro/externalscanner/ExternalScannerUtil.kt:88-98 | two devices give their two objects, comma-separated, in brackets |
| ScannerUtil.DeviceJsonAroundName | android/src/main/java/com/margelo/nitro/externalscanner/ExternalScannerUtil.kt:90-96 | the name sits verbatim between the id field and the rest of the object |
| ScannerUtil.SplicedObject | android/src/main/java/com/margelo/nitro/externalscanner/ExternalScannerUtil.kt:92 | a device with a spliced name prints as two objects joined by a comma |
| ScannerUtil.JsonNotInjective | android/src/main/java/com/margelo/nitro/externalscanner/ExternalScannerUtil.kt:92 | for any two devices, a one-device listing prints exactly like the two-device listing |
| ScannerUtil.CharactersOf | android/src/main/java/com/margelo/nitro/externalscanner/ExternalScannerUtil.kt:178-183 | no characters for 0 and for bare COMBINING_ACCENT; otherwise the one code unit of the value's low 16 bits |
| ScannerUtil.CharactersOfFlaggedAndWide | android/src/main/java/com/margelo/nitro/externalscanner/ExternalScannerUtil.kt:178-183 | a flagged dead key gives its accent; a code point above 0xFFFF loses its high bits |
| ScannerUtil.ExternalScannerUtil.constructor | android/src/main/java/com/margelo/nitro/externalscanner/ExternalScannerUtil.kt:17 | interception starts off |
| ScannerUtil.ExternalScannerUtil.StartIntercepting | android/src/main/java/com/margelo/nitro/externalscanner/ExternalScannerUtil.kt:132-136 | interception on; the listing synced is getConnectedDevices |
| ScannerUtil.ExternalScannerUtil.StopIntercepting | android/src/main/java/com/margelo/nitro/externalscanner/ExternalScannerUtil.kt:142-145 | interception off |
| ScannerUtil.ExternalScannerUtil.IsIntercepting | android/src/main/java/com/margelo/nitro/externalscanner/ExternalScannerUtil.kt:151 | the flag |
| ScannerUtil.ExternalScannerUtil.Cleanup | android/src/main/java/com/margelo/nitro/externalscanner/ExternalScannerUtil.kt:329-333 | interception off |
| ScannerUtil.ExternalScannerUtil.ProcessKeyEvent | android/src/main/java/com/margelo/nitro/externalscanner/ExternalScannerUtil.kt:159-196 | consumed iff the id is non-negative, the device is a scanner and interception is on; exactly then one event is forwarded, with the key's characters |
| AndroidScanner.UnitBytes | android/src/main/cpp/HybridExternalScanner_android.cpp:140 | one to three bytes per code unit, never a zero byte |
| AndroidScanner.UnitBytesRoundTrip | android/src/main/cpp/HybridExternalScanner_android.cpp:140 | the bytes of every code unit read back as that unit |
| AndroidScanner.Utf8Chars | android/src/main/cpp/HybridExternalScanner_android.cpp:140 | between one and three bytes per unit, no zero byte |
| AndroidScanner.CString | android/src/main/cpp/HybridExternalScanner_android.cpp:141 | the `std::string` is a prefix of the bytes, and all of them when none is zero |
| AndroidScanner.AsciiCrossesUnchanged | android/src/main/cpp/HybridExternalScanner_android.cpp:140-144 | seven-bit characters reach the engine as the same bytes |
| AndroidScanner.NonNull | android/src/main/cpp/HybridExternalScanner_android.cpp:238-266 | at most one record per array element |
| AndroidScanner.NonNullConcat | android/src/main/cpp/HybridExternalScanner_android.cpp:238-266 | filtering works piecewise, so array order is kept |
| AndroidScanner.NonNullOfNulls | android/src/main/cpp/HybridExternalScanner_android.cpp:239-242 | an array of nulls adds nothing |
| AndroidScanner.JavaArray | android/src/main/java/com/margelo/nitro/externalscanner/ExternalScannerJNI.kt:42-44 | the array has one non-null element per listed device, in order |
| AndroidScanner.NonNullOfJavaArray | android/src/main/cpp/HybridExternalScanner_android.cpp:238-266 | a Kotlin listing sent as an array arrives as the same list |
| AndroidScanner.DuplicatesKept | android/src/main/cpp/HybridExternalScanner_android.cpp:263-266 | the same device twice is kept twice, breaking unique ids, where two connects keep it once |
| AndroidScanner.SetDevicesFromJava | android/src/main/cpp/HybridExternalScanner_android.cpp:167-273 | the registry is emptied; a null array or a failed lookup leaves it empty; otherwise it is the non-null elements in order; no listener is called |
| AndroidScanner.HasExternalScanner | android/src/main/cpp/HybridExternalScanner_android.cpp:89-98 | with JNI, whether the Kotlin listing is non-empty; without, whether the registry is |
| AndroidScanner.GetConnectedDevices | android/src/main/cpp/HybridExternalScanner_android.cpp:100-103 | the cached registry |
| AndroidScanner.StartScanning | android/src/main/cpp/HybridExternalScanner_android.cpp:105-123 | the base start; with JNI, interception on, and the registry left as it was when the Kotlin sync throws, emptied when a DeviceInfoJava lookup fails, and otherwise replaced by the Kotlin listing |
| AndroidScanner.StopScanning | android/src/main/cpp/HybridExternalScanner_android.cpp:125-134 | the base stop; with JNI, interception off |
| AndroidScanner.OnKeyEventFromJava | android/src/main/cpp/HybridExternalScanner_android.cpp:137-146 | the engine's key event on the converted characters; nothing at all while not scanning |
| AndroidScanner.OnDeviceConnectedFromJava | android/src/main/cpp/HybridExternalScanner_android.cpp:148-158 | the base connect of the record built from the Java values |
| AndroidScanner.OnDeviceDisconnectedFromJava | android/src/main/cpp/HybridExternalScanner_android.cpp:160-165 | the base disconnect |

## Left out

- Concurrency is not modelled. The model is single-threaded: it leaves out `_bufferMutex`, `_devicesMutex`, the atomic `_isScanning`, the locking in `getInstance`, and the disconnect callback that runs while the devices lock is held.
- `getInstance` always creates the instance, so its null checks in the Java entry points never fail. The scanner object is passed in instead.
- The clocks `steady_clock::now()` and `system_clock::now()` are parameters. One `wallClock` reading stamps every scan a single key event completes; the source reads the clock once per report.
- The timeout, the minimum length and the ids are doubles in the source. Here they are integers, and the minimum is a natural number because its `size_t` cast is undefined for negative values.
- The JNI plumbing is left out: `getJNIEnv`, `initJNI`, `JNI_OnLoad`, local and global references, and the `extern "C"` exports. Whether the JVM and the utility's methods can be reached is the flag `jniReady`. Whether the DeviceInfoJava class and its fields resolve is the flag `lookupsSucceed`.
- Kotlin's `syncDevices` swallows an exception from the listing or from the native call. The flag `syncThrows` of `AndroidScanner.StartScanning` stands for that case: interception is already on, and the registry is left as the base start left it. Which exception is raised, and when, is not modelled.
- Device names are carried as text on both sides of JNI. The model does not convert them to modified UTF-8. Only the key characters are converted, which is what the engine's buffer stores.
- The Android framework is left out: `InputManager`, the device listener and its registration (`setupDeviceListener`, `onInputDeviceAdded/Removed/Changed`), `init`, `logAllDevices` and every `Log` call. The input system is a value: the ids it lists and the device behind each id.
- The destructors' call to `stopScanning` is left out, because object lifetime is not modelled.
- DeviceClassifier.LowerChar: maps only the ASCII capitals. Kotlin's `lowercase()` also maps every other Unicode capital.
- DeviceClassifier.Lower: lower-cases character by character and keeps the length. Kotlin's `lowercase()` can change the length: 'İ' (U+0130) becomes "i" followed by a combining dot, two characters. The model does not capture that.
- The wrappers in src/hooks.ts, src/index.ts and src/specs are left out, as are the package registration, cpp-adapter.cpp and the Objective-C observer. They hold no logic of the core.
- The header-only files cpp/HybridExternalScanner_ios.hpp and android/src/main/cpp/HybridExternalScanner_android.hpp are left out; they only declare.
- Callback bodies are not modelled. A callback is the identity of its listener, and each invocation is a recorded notification.
- ScannerUtil.ExternalScannerUtil.Cleanup: unregistering the device listener is not modelled; only the flag is.
