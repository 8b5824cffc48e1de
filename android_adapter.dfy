/**
 * The Android subclass of the scanner and its entry points from Kotlin: key
 * events, single connects and disconnects, and the bulk replacement of the
 * registry with a Java array of devices. Whether the JVM, the Kotlin utility
 * class and its methods can be reached is the flag `jniReady`; whether the
 * DeviceInfoJava class and its five fields resolve is the flag
 * `lookupsSucceed`.
 */
module AndroidScanner {
  import opened Common
  import ScanLogic
  import Scanner
  import DeviceRegistry
  import ScannerUtil

  // ----- strings across JNI -----

  /**
   * The modified UTF-8 bytes of one UTF-16 code unit, as GetStringUTFChars
   * writes them: one byte for 0x01..0x7F, two for 0 and 0x80..0x7FF, three
   * for the rest, surrogates included one by one.
   */
  function UnitBytes(u: ScannerUtil.CodeUnit): (r: Bytes)
    ensures 1 <= |r| <= 3
    ensures 0 !in r
  {
    if 1 <= u < 0x80 then [u]
    else if u < 0x800 then [0xC0 + u / 0x40, 0x80 + u % 0x40]
    else [0xE0 + u / 0x1000, 0x80 + (u / 0x40) % 0x40, 0x80 + u % 0x40]
  }

  /** The code unit whose modified UTF-8 form starts a byte string. */
  function FirstUnit(b: Bytes): (r: Option<ScannerUtil.CodeUnit>)
    ensures r.Some? ==> b != []
  {
    if b == [] then None
    else if 1 <= b[0] < 0x80 then Some(b[0])
    else if 0xC0 <= b[0] < 0xE0 && |b| >= 2 && 0x80 <= b[1] < 0xC0 then Some((b[0] as int - 0xC0) * 0x40 + (b[1] as int - 0x80))
    else if 0xE0 <= b[0] < 0xF0 && |b| >= 3 && 0x80 <= b[1] < 0xC0 && 0x80 <= b[2] < 0xC0 then
      Some((b[0] as int - 0xE0) * 0x1000 + (b[1] as int - 0x80) * 0x40 + (b[2] as int - 0x80))
    else None
  }

  /** Each unit's bytes read back as that unit. */
  lemma UnitBytesRoundTrip(u: ScannerUtil.CodeUnit)
    ensures FirstUnit(UnitBytes(u)) == Some(u)
  {
    if u >= 0x800 {
      ThreeBytesRoundTrip(u);
    } else if u == 0 || u >= 0x80 {
      assert (u / 0x40) * 0x40 + u % 0x40 == u;
    }
  }

  lemma ThreeBytesRoundTrip(u: ScannerUtil.CodeUnit)
    requires u >= 0x800
    ensures FirstUnit(UnitBytes(u)) == Some(u)
  {
    var b := UnitBytes(u);
    var hi, mid, lo := u / 0x1000, (u / 0x40) % 0x40, u % 0x40;
    var q := u / 0x40;
    assert u == q * 0x40 + lo;
    assert q == hi * 0x40 + mid by {
      assert q / 0x40 == hi;
    }
    assert b == [0xE0 + hi, 0x80 + mid, 0x80 + lo];
    assert hi * 0x1000 + mid * 0x40 + lo == u;
  }

  /** The bytes of a Java string, unit by unit. */
  function Utf8Chars(units: seq<ScannerUtil.CodeUnit>): (r: Bytes)
    ensures |units| <= |r| <= 3 * |units|
    ensures 0 !in r
  {
    if units == [] then [] else UnitBytes(units[0]) + Utf8Chars(units[1..])
  }

  /**
   * The `std::string` built from the bytes stops at the first zero byte; no
   * modified UTF-8 string holds one, so it keeps every byte.
   */
  function CString(b: Bytes): (r: Bytes)
    ensures |r| <= |b| && r == b[..|r|]
    ensures 0 !in b ==> r == b
    decreases |b|
  {
    if b == [] || b[0] == 0 then []
    else [b[0]] + CString(b[1..])
  }

  /** A seven-bit character crosses as its own byte, so a scanned digit or letter arrives unchanged. */
  lemma AsciiCrossesUnchanged(units: seq<ScannerUtil.CodeUnit>)
    requires forall i :: 0 <= i < |units| ==> 1 <= units[i] < 0x80
    ensures CString(Utf8Chars(units)) == units
  {
    if units != [] {
      AsciiCrossesUnchanged(units[1..]);
    }
  }

  // ----- the bulk device update -----

  /** A DeviceInfoJava object as setDevicesFromJava reads it; its name field may hold null. */
  datatype JavaDevice = JavaDevice(id: int, name: Option<string>, vendorId: int, productId: int, isExternal: bool)

  /** The native record of a Java device: a null name becomes the empty name. */
  function ToDeviceInfo(j: JavaDevice): DeviceInfo
  {
    DeviceInfo(j.id, if j.name.Some? then j.name.value else "", j.vendorId, j.productId, j.isExternal)
  }

  /** The records of the non-null elements of an array, in array order. */
  function NonNull(arr: seq<Option<JavaDevice>>): (r: seq<DeviceInfo>)
    ensures |r| <= |arr|
    decreases |arr|
  {
    if arr == [] then []
    else
      var last := arr[|arr| - 1];
      NonNull(arr[..|arr| - 1]) + (if last.Some? then [ToDeviceInfo(last.value)] else [])
  }

  /** Filtering respects concatenation: the order of the array is kept. */
  lemma {:induction false} NonNullConcat(a: seq<Option<JavaDevice>>, b: seq<Option<JavaDevice>>)
    ensures NonNull(a + b) == NonNull(a) + NonNull(b)
    decreases |b|
  {
    if b == [] {
      assert a + b == a;
    } else {
      var front := b[..|b| - 1];
      assert (a + b)[..|a + b| - 1] == a + front;
      assert (a + b)[|a + b| - 1] == b[|b| - 1];
      NonNullConcat(a, front);
    }
  }

  /** An array of nulls leaves nothing. */
  lemma {:induction false} NonNullOfNulls(arr: seq<Option<JavaDevice>>)
    requires forall i :: 0 <= i < |arr| ==> arr[i].None?
    ensures NonNull(arr) == []
    decreases |arr|
  {
    if arr != [] {
      NonNullOfNulls(arr[..|arr| - 1]);
    }
  }

  /** The Java object Kotlin makes of a listed device: the name is never null. */
  function ToJava(d: DeviceInfo): JavaDevice
  {
    JavaDevice(d.id, Some(d.name), d.vendorId, d.productId, d.isExternal)
  }

  /** The array `toTypedArray` makes of a Kotlin list of devices. */
  function JavaArray(devices: seq<DeviceInfo>): (r: seq<Option<JavaDevice>>)
    ensures |r| == |devices|
    ensures forall i :: 0 <= i < |devices| ==> r[i] == Some(ToJava(devices[i]))
    decreases |devices|
  {
    if devices == [] then [] else JavaArray(devices[..|devices| - 1]) + [Some(ToJava(devices[|devices| - 1]))]
  }

  /** A list sent across as an array arrives as the same list. */
  lemma {:induction false} NonNullOfJavaArray(devices: seq<DeviceInfo>)
    ensures NonNull(JavaArray(devices)) == devices
    decreases |devices|
  {
    if devices != [] {
      var front := devices[..|devices| - 1];
      NonNullOfJavaArray(front);
      var arr := JavaArray(devices);
      assert arr[..|arr| - 1] == JavaArray(front);
      assert devices == front + [devices[|devices| - 1]];
    }
  }

  /**
   * No de-duplication: the same device twice is kept twice, where two
   * connect notifications keep it once.
   */
  lemma DuplicatesKept(j: JavaDevice)
    ensures NonNull([Some(j), Some(j)]) == [ToDeviceInfo(j), ToDeviceInfo(j)]
    ensures !DeviceRegistry.UniqueIds(NonNull([Some(j), Some(j)]))
    ensures DeviceRegistry.Connect(DeviceRegistry.Connect([], ToDeviceInfo(j)), ToDeviceInfo(j)) == [ToDeviceInfo(j)]
  {
    var d := ToDeviceInfo(j);
    assert [Some(j), Some(j)][..1] == [Some(j)];
    assert [Some(j)][..0] == [];
    assert NonNull([Some(j)]) == [d];
    var r := NonNull([Some(j), Some(j)]);
    assert r == [d] + [d];
    assert r[0].id == r[1].id;
    assert DeviceRegistry.HasId([d], d.id) by {
      assert [d][0].id == d.id;
    }
  }

  /**
   * setDevicesFromJava: the registry is emptied first; a null array, an empty
   * array or a failed class or field lookup leaves it empty; otherwise every
   * non-null element is appended in array order. No listener is called.
   */
  method SetDevicesFromJava(s: Scanner.HybridExternalScanner, devices: Option<seq<Option<JavaDevice>>>, lookupsSucceed: bool)
    modifies s`connectedDevices
    ensures s.connectedDevices == if devices.None? || !lookupsSucceed then [] else NonNull(devices.value)
  {
    s.connectedDevices := [];
    if devices.None? {
      return;
    }
    var arr := devices.value;
    var length := |arr|;
    if length == 0 {
      return;
    }
    if !lookupsSucceed {
      return;
    }
    var i := 0;
    while i < length
      invariant 0 <= i <= length
      invariant s.connectedDevices == NonNull(arr[..i])
    {
      assert arr[..i + 1][..i] == arr[..i];
      var deviceObj := arr[i];
      if deviceObj.Some? {
        var j := deviceObj.value;
        var nameStr := "";
        if j.name.Some? {
          nameStr := j.name.value;
        }
        s.connectedDevices := s.connectedDevices + [DeviceInfo(j.id, nameStr, j.vendorId, j.productId, j.isExternal)];
      }
      i := i + 1;
    }
    assert arr[..i] == arr;
  }

  // ----- the overrides -----

  /** hasExternalScanner: the Kotlin answer when JNI is ready, otherwise whether the registry is non-empty. */
  method HasExternalScanner(s: Scanner.HybridExternalScanner, jniReady: bool, sys: ScannerUtil.InputSystem) returns (r: bool)
    ensures jniReady ==> (r <==> ScannerUtil.Collect(sys.devices, sys.deviceIds) != [])
    ensures !jniReady ==> (r <==> s.connectedDevices != [])
  {
    if !jniReady {
      r := s.HasExternalScanner();
      return;
    }
    r := ScannerUtil.HasExternalScanner(sys);
    ScannerUtil.HasScannerIffListed(sys);
  }

  /** getConnectedDevices: the cached registry. */
  method GetConnectedDevices(s: Scanner.HybridExternalScanner) returns (r: seq<DeviceInfo>)
    ensures r == s.connectedDevices
  {
    r := s.GetConnectedDevices();
  }

  /**
   * startScanning: the base behaviour; then, when JNI is ready, Kotlin turns
   * interception on and syncs its listing back. Kotlin swallows an exception
   * from that sync (`syncThrows`), which leaves the registry as it was; a
   * failed DeviceInfoJava lookup empties the registry; otherwise it becomes
   * exactly the scanners the input system lists.
   */
  method StartScanning(s: Scanner.HybridExternalScanner, util: ScannerUtil.ExternalScannerUtil, jniReady: bool,
                       syncThrows: bool, lookupsSucceed: bool,
                       sys: ScannerUtil.InputSystem, onScan: Option<ListenerId>, onChar: Option<ListenerId>)
    modifies s, util
    ensures s.EngineState() == old(s.EngineState()).(scanning := true, buffer := [], onScan := onScan, onChar := onChar)
    ensures s.connectedDevices ==
      if !jniReady || syncThrows then old(s.connectedDevices)
      else if lookupsSucceed then ScannerUtil.Collect(sys.devices, sys.deviceIds)
      else []
    ensures util.isIntercepting == (jniReady || old(util.isIntercepting))
    ensures s.notifications == old(s.notifications) && s.connectionCallback == old(s.connectionCallback)
  {
    s.StartScanning(onScan, onChar);
    if jniReady {
      var synced := util.StartIntercepting(sys);
      if !syncThrows {
        NonNullOfJavaArray(synced);
        SetDevicesFromJava(s, Some(JavaArray(synced)), lookupsSucceed);
      }
    }
  }

  /** stopScanning: the base behaviour; then, when JNI is ready, Kotlin turns interception off. */
  method StopScanning(s: Scanner.HybridExternalScanner, util: ScannerUtil.ExternalScannerUtil, jniReady: bool)
    modifies s, util
    ensures s.EngineState() == old(s.EngineState()).(scanning := false, buffer := [], onScan := None, onChar := None)
    ensures util.isIntercepting == (!jniReady && old(util.isIntercepting))
    ensures s.connectedDevices == old(s.connectedDevices) && s.notifications == old(s.notifications)
    ensures s.connectionCallback == old(s.connectionCallback)
  {
    s.StopScanning();
    if jniReady {
      util.StopIntercepting();
    }
  }

  // ----- entry points from Kotlin -----

  /**
   * onKeyEventFromJava: only while scanning, the characters are converted to
   * bytes and the event goes to the engine. The engine ignores events while
   * not scanning anyway, so the effect is that of ScanLogic.OnKeyEvent on the
   * converted characters.
   */
  method OnKeyEventFromJava(s: Scanner.HybridExternalScanner, keyCode: int, action: int, characters: seq<ScannerUtil.CodeUnit>,
                            deviceId: int, now: int, wallClock: int)
    modifies s
    ensures
      var step := ScanLogic.OnKeyEvent(old(s.EngineState()), keyCode, action, Utf8Chars(characters), deviceId, now, wallClock);
      s.EngineState() == step.engine && s.notifications == old(s.notifications) + step.out
    ensures !old(s.scanning) ==> s.EngineState() == old(s.EngineState()) && s.notifications == old(s.notifications)
    ensures s.connectedDevices == old(s.connectedDevices) && s.connectionCallback == old(s.connectionCallback)
  {
    if s.scanning {
      var charStr := CString(Utf8Chars(characters));
      s.OnKeyEvent(keyCode, action, charStr, deviceId, now, wallClock);
    }
  }

  /** onDeviceConnectedFromJava: the Java values as a native record, then the base connect. */
  method OnDeviceConnectedFromJava(s: Scanner.HybridExternalScanner, id: int, name: string, vendorId: int, productId: int, isExternal: bool)
    modifies s`connectedDevices, s`notifications
    ensures s.connectedDevices == DeviceRegistry.Connect(old(s.connectedDevices), DeviceInfo(id, name, vendorId, productId, isExternal))
    ensures s.notifications == old(s.notifications) +
      (if s.connectionCallback.Some? then [ConnectionDelivered(s.connectionCallback.value, true)] else [])
  {
    s.OnDeviceConnected(DeviceInfo(id, name, vendorId, productId, isExternal));
  }

  /** onDeviceDisconnectedFromJava: the base disconnect. */
  method OnDeviceDisconnectedFromJava(s: Scanner.HybridExternalScanner, deviceId: int)
    modifies s`connectedDevices, s`notifications
    ensures s.connectedDevices == DeviceRegistry.Disconnect(old(s.connectedDevices), deviceId)
    ensures s.notifications == old(s.notifications) +
      (if s.connectionCallback.Some? then [ConnectionDelivered(s.connectionCallback.value, s.connectedDevices != [])] else [])
  {
    s.OnDeviceDisconnected(deviceId);
  }
}
