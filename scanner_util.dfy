/**
 * The Kotlin side on Android: the device listing built from the input
 * system, its JSON text, the interception flag and the decision whether a key
 * event is consumed and forwarded to native code. The input system (the ids
 * InputManager reports and what InputDevice.getDevice returns for each) is a
 * value passed in.
 */
module ScannerUtil {
  import opened Common
  import opened DeviceClassifier

  /** The ids the input manager lists and the device record behind each id it can resolve. */
  datatype InputSystem = InputSystem(deviceIds: seq<Int32>, devices: map<int, InputDevice>)

  /** The record the listing reports for a device: external means not virtual. */
  function Info(d: InputDevice): DeviceInfo
  {
    DeviceInfo(d.id, d.name, d.vendorId, d.productId, !d.isVirtual)
  }

  /** What the listing contributes for one id: the device, if it resolves and is a scanner. */
  function Entry(table: map<int, InputDevice>, id: int): seq<DeviceInfo>
  {
    if id in table && IsExternalScannerDevice(table[id]) then [Info(table[id])] else []
  }

  /** The listing of the scanners behind `ids`, in the order of the ids. */
  function Collect(table: map<int, InputDevice>, ids: seq<Int32>): seq<DeviceInfo>
    decreases |ids|
  {
    if ids == [] then [] else Collect(table, ids[..|ids| - 1]) + Entry(table, ids[|ids| - 1])
  }

  /** Collect over one more id: what that id contributes goes at the end. */
  lemma CollectStep(table: map<int, InputDevice>, ids: seq<Int32>, i: nat)
    requires i < |ids|
    ensures Collect(table, ids[..i + 1]) == Collect(table, ids[..i]) + Entry(table, ids[i])
  {
    assert ids[..i + 1][..i] == ids[..i];
  }

  /** Whether the device behind an id is a scanner; an id that does not resolve is not. */
  predicate IsExternalScanner(sys: InputSystem, deviceId: int)
  {
    deviceId in sys.devices && IsExternalScannerDevice(sys.devices[deviceId])
  }

  /** Whether any listed id belongs to a scanner. */
  predicate HasExternalScanner(sys: InputSystem)
  {
    exists i | 0 <= i < |sys.deviceIds| :: IsExternalScanner(sys, sys.deviceIds[i])
  }

  /** `d` is the record of the scanner behind one of the ids. */
  predicate ReportedFrom(table: map<int, InputDevice>, ids: seq<Int32>, d: DeviceInfo)
  {
    exists i | 0 <= i < |ids| :: ids[i] in table && IsExternalScannerDevice(table[ids[i]]) && d == Info(table[ids[i]])
  }

  /** Every reported device is external and comes from a listed id whose device is a scanner. */
  lemma {:induction false} CollectReportsExternalScanners(table: map<int, InputDevice>, ids: seq<Int32>)
    ensures forall j :: 0 <= j < |Collect(table, ids)| ==> Collect(table, ids)[j].isExternal
    ensures forall j :: 0 <= j < |Collect(table, ids)| ==> ReportedFrom(table, ids, Collect(table, ids)[j])
    decreases |ids|
  {
    if ids != [] {
      var front := ids[..|ids| - 1];
      CollectReportsExternalScanners(table, front);
      var r := Collect(table, ids);
      var rf := Collect(table, front);
      forall j | 0 <= j < |r|
        ensures r[j].isExternal && ReportedFrom(table, ids, r[j])
      {
        if j < |rf| {
          assert r[j] == rf[j];
          assert ReportedFrom(table, front, rf[j]);
          var i :| 0 <= i < |front| && front[i] in table && IsExternalScannerDevice(table[front[i]]) && rf[j] == Info(table[front[i]]);
          assert ids[i] == front[i];
        } else {
          var i := |ids| - 1;
          assert r[j] == Info(table[ids[i]]);
          assert !table[ids[i]].isVirtual;
        }
      }
    }
  }

  /** The listing is empty exactly when no listed id belongs to a scanner. */
  lemma {:induction false} CollectEmptyIffNoScanner(sys: InputSystem, ids: seq<Int32>)
    ensures Collect(sys.devices, ids) != [] <==> exists i | 0 <= i < |ids| :: IsExternalScanner(sys, ids[i])
    decreases |ids|
  {
    if ids != [] {
      var front, last := ids[..|ids| - 1], ids[|ids| - 1];
      CollectEmptyIffNoScanner(sys, front);
      assert Collect(sys.devices, ids) == Collect(sys.devices, front) + Entry(sys.devices, last);
      assert Entry(sys.devices, last) != [] <==> IsExternalScanner(sys, last);
      if exists i | 0 <= i < |front| :: IsExternalScanner(sys, front[i]) {
        var i :| 0 <= i < |front| && IsExternalScanner(sys, front[i]);
        assert ids[i] == front[i];
      }
      if exists i | 0 <= i < |ids| :: IsExternalScanner(sys, ids[i]) {
        var i :| 0 <= i < |ids| && IsExternalScanner(sys, ids[i]);
        if i < |front| {
          assert front[i] == ids[i];
        }
      }
    }
  }

  /** hasExternalScanner and the device listing agree: true exactly when the listing is non-empty. */
  lemma HasScannerIffListed(sys: InputSystem)
    ensures HasExternalScanner(sys) <==> Collect(sys.devices, sys.deviceIds) != []
  {
    CollectEmptyIffNoScanner(sys, sys.deviceIds);
  }

  /** The external scanners among the listed ids, in the order of the ids, each reported as external. */
  method GetConnectedDevices(sys: InputSystem) returns (devices: seq<DeviceInfo>)
    ensures devices == Collect(sys.devices, sys.deviceIds)
    ensures forall j :: 0 <= j < |devices| ==> devices[j].isExternal
  {
    devices := [];
    var i := 0;
    while i < |sys.deviceIds|
      invariant 0 <= i <= |sys.deviceIds|
      invariant devices == Collect(sys.devices, sys.deviceIds[..i])
    {
      var deviceId := sys.deviceIds[i];
      CollectStep(sys.devices, sys.deviceIds, i);
      if deviceId in sys.devices {
        var device := sys.devices[deviceId];
        if IsExternalScannerDevice(device) {
          devices := devices + [DeviceInfo(device.id, device.name, device.vendorId, device.productId, !device.isVirtual)];
        }
      }
      i := i + 1;
    }
    assert sys.deviceIds[..i] == sys.deviceIds;
    CollectReportsExternalScanners(sys.devices, sys.deviceIds);
  }

  // ----- JSON text of the listing -----

  function DigitChar(d: nat): char
    requires d < 10
  {
    ['0', '1', '2', '3', '4', '5', '6', '7', '8', '9'][d]
  }

  /** Decimal digits of a natural number, most significant first, no leading zeros. */
  function NatText(n: nat): (r: string)
    ensures |r| >= 1
  {
    if n < 10 then [DigitChar(n)] else NatText(n / 10) + [DigitChar(n % 10)]
  }

  /** Kotlin's text of an `Int`: a minus sign for negative values, then the digits. */
  function IntText(x: int): string
  {
    if x < 0 then "-" + NatText(-x) else NatText(x)
  }

  /** The number a string of decimal digits denotes. */
  function DigitsValue(s: string): int
    decreases |s|
  {
    if s == [] then 0 else 10 * DigitsValue(s[..|s| - 1]) + (s[|s| - 1] as int - '0' as int)
  }

  /** The digits NatText writes denote the number they were written from. */
  lemma {:induction false} NatTextRoundTrip(n: nat)
    ensures DigitsValue(NatText(n)) == n
  {
    if n >= 10 {
      NatTextRoundTrip(n / 10);
      var r := NatText(n);
      assert r[..|r| - 1] == NatText(n / 10);
    }
  }

  function BoolText(b: bool): string
  {
    if b then "true" else "false"
  }

  function IdField(d: DeviceInfo): string
  {
    "\"id\":" + IntText(d.id) + ","
  }

  /** The name goes in between quotes exactly as it is, unescaped. */
  function NameField(d: DeviceInfo): string
  {
    "\"name\":\"" + d.name + "\","
  }

  function VendorField(d: DeviceInfo): string
  {
    "\"vendorId\":" + IntText(d.vendorId) + ","
  }

  function ProductField(d: DeviceInfo): string
  {
    "\"productId\":" + IntText(d.productId) + ","
  }

  function ExternalField(d: DeviceInfo): string
  {
    "\"isExternal\":" + BoolText(d.isExternal)
  }

  /** One device as a JSON object, its fields in the order id, name, vendorId, productId, isExternal. */
  function DeviceJson(d: DeviceInfo): string
  {
    "{" + IdField(d) + NameField(d) + VendorField(d) + ProductField(d) + ExternalField(d) + "}"
  }

  /** The text written before the closing bracket: "[" and the objects, comma-separated, in order. */
  function Opened(devices: seq<DeviceInfo>): string
    decreases |devices|
  {
    if devices == [] then "["
    else
      var front := devices[..|devices| - 1];
      if front == [] then Opened(front) + DeviceJson(devices[|devices| - 1])
      else Opened(front) + "," + DeviceJson(devices[|devices| - 1])
  }

  /** Opened over one more device of a list: a comma unless it is the first, then its object. */
  lemma OpenedStep(devices: seq<DeviceInfo>, i: nat)
    requires i < |devices|
    ensures i == 0 ==> Opened(devices[..i + 1]) == Opened(devices[..i]) + DeviceJson(devices[i])
    ensures i > 0 ==> Opened(devices[..i + 1]) == Opened(devices[..i]) + "," + DeviceJson(devices[i])
  {
    assert devices[..i + 1][..i] == devices[..i];
  }

  /** The JSON array of a device list. */
  function DevicesJson(devices: seq<DeviceInfo>): string
  {
    Opened(devices) + "]"
  }

  /** One object, appended field by field in the order the builder receives its pieces. */
  method ObjectJson(device: DeviceInfo) returns (obj: string)
    ensures obj == DeviceJson(device)
  {
    obj := "{";
    obj := obj + IdField(device);
    obj := obj + NameField(device);
    obj := obj + VendorField(device);
    obj := obj + ProductField(device);
    obj := obj + ExternalField(device);
    obj := obj + "}";
  }

  /** The listing as JSON text, written piece by piece as getConnectedDevicesJson does. */
  method GetConnectedDevicesJson(sys: InputSystem) returns (json: string)
    ensures json == DevicesJson(Collect(sys.devices, sys.deviceIds))
  {
    var devices := GetConnectedDevices(sys);
    var sb := "[";
    var index := 0;
    while index < |devices|
      invariant 0 <= index <= |devices|
      invariant sb == Opened(devices[..index])
    {
      OpenedStep(devices, index);
      if index > 0 {
        sb := sb + ",";
      }
      var obj := ObjectJson(devices[index]);
      sb := sb + obj;
      index := index + 1;
    }
    sb := sb + "]";
    assert devices[..index] == devices;
    json := sb;
  }

  /** An empty listing is "[]"; a listing of one device is that object in brackets. */
  lemma JsonOfShortLists(d: DeviceInfo)
    ensures DevicesJson([]) == "[]"
    ensures DevicesJson([d]) == "[" + DeviceJson(d) + "]"
  {
    assert [d][..0] == [];
  }

  /** A device added at the end of a non-empty listing adds a comma and its object before the closing bracket. */
  lemma JsonAppend(devices: seq<DeviceInfo>, d: DeviceInfo)
    requires devices != []
    ensures DevicesJson(devices + [d]) == Opened(devices) + "," + DeviceJson(d) + "]"
  {
    assert (devices + [d])[..|devices|] == devices;
  }

  /** The object text after the name field. */
  function AfterName(d: DeviceInfo): string
  {
    VendorField(d) + ProductField(d) + ExternalField(d) + "}"
  }

  lemma DeviceJsonAroundName(d: DeviceInfo)
    ensures DeviceJson(d) == "{" + IdField(d) + NameField(d) + AfterName(d)
  {
    var x := "{" + IdField(d) + NameField(d);
    assert DeviceJson(d) == x + VendorField(d) + ProductField(d) + ExternalField(d) + "}";
  }

  /**
   * A name that closes its own field, writes the rest of the object of `d1`,
   * a comma, and opens an object like `d2`'s up to its name.
   */
  function SplicedName(d1: DeviceInfo, d2: DeviceInfo): string
  {
    d1.name + "\"," + AfterName(d1) + ",{" + IdField(d2) + "\"name\":\"" + d2.name
  }

  /** The one device that stands for `d1` followed by `d2`: the id of `d1`, the spliced name, the rest from `d2`. */
  function Spliced(d1: DeviceInfo, d2: DeviceInfo): DeviceInfo
  {
    DeviceInfo(d1.id, SplicedName(d1, d2), d2.vendorId, d2.productId, d2.isExternal)
  }

  /** The spliced device's object is the two objects separated by a comma. */
  lemma SplicedObject(d1: DeviceInfo, d2: DeviceInfo)
    ensures DeviceJson(Spliced(d1, d2)) == DeviceJson(d1) + "," + DeviceJson(d2)
  {
    var e := Spliced(d1, d2);
    DeviceJsonAroundName(e);
    DeviceJsonAroundName(d1);
    DeviceJsonAroundName(d2);
    var i1, a1, i2, a2 := IdField(d1), AfterName(d1), IdField(d2), AfterName(d2);
    var q, c := "\"name\":\"", "\",";
    assert IdField(e) == i1 && AfterName(e) == a2;
    assert NameField(e) == q + (d1.name + c + a1 + ",{" + i2 + q + d2.name) + c;
    SpliceRegroups(i1, d1.name, a1, i2, d2.name, a2, q, c);
  }

  /**
   * Because names are not escaped, the text does not determine the listing:
   * one device with a spliced name prints exactly like two devices.
   */
  lemma JsonNotInjective(d1: DeviceInfo, d2: DeviceInfo)
    ensures [Spliced(d1, d2)] != [d1, d2] && DevicesJson([Spliced(d1, d2)]) == DevicesJson([d1, d2])
  {
    SplicedObject(d1, d2);
    JsonOfShortLists(Spliced(d1, d2));
    JsonOfPairs(d1, d2);
    Regroup("[", DeviceJson(d1), ",", DeviceJson(d2), "]");
  }

  /** A listing of two devices is their objects, comma-separated, in brackets. */
  lemma JsonOfPairs(d1: DeviceInfo, d2: DeviceInfo)
    ensures DevicesJson([d1, d2]) == "[" + DeviceJson(d1) + "," + DeviceJson(d2) + "]"
  {
    assert [d1, d2] == [d1] + [d2];
    assert [d1][..0] == [];
    JsonAppend([d1], d2);
  }

  lemma Regroup(a: string, x: string, y: string, z: string, b: string)
    ensures a + (x + y + z) + b == a + x + y + z + b
  {
  }

  /** The regrouping behind JsonNotInjective, on the pieces of the two objects. */
  lemma SpliceRegroups(i1: string, n1: string, a1: string, i2: string, n2: string, a2: string, q: string, c: string)
    ensures "{" + i1 + (q + (n1 + c + a1 + ",{" + i2 + q + n2) + c) + a2
         == ("{" + i1 + (q + n1 + c) + a1) + "," + ("{" + i2 + (q + n2 + c) + a2)
  {
    assert ",{" == "," + "{";
  }

  // ----- key interception -----

  /** A UTF-16 code unit, as one Kotlin `Char`. */
  type CodeUnit = u: int | 0 <= u < 0x1_0000

  /** KeyCharacterMap.COMBINING_ACCENT, the flag bit 0x80000000 of a dead key, as a Kotlin `Int`. */
  const CombiningAccent: Int32 := -0x8000_0000

  /** What processKeyEvent reads of an Android `KeyEvent`. */
  datatype KeyEvent = KeyEvent(keyCode: Int32, action: Int32, deviceId: Int32, unicodeChar: Int32)

  /** A key event as it is handed to native code. */
  datatype ForwardedKey = ForwardedKey(keyCode: int, action: int, characters: seq<CodeUnit>, deviceId: int)

  /**
   * The characters sent with a key: none for 0 and for the bare accent flag,
   * otherwise the one `Char` that `toChar()` makes of the value, its low 16 bits.
   */
  function CharactersOf(unicodeChar: Int32): (r: seq<CodeUnit>)
    ensures r == [] <==> unicodeChar == 0 || unicodeChar == CombiningAccent
    ensures r != [] ==> |r| == 1 && r[0] == unicodeChar % 0x1_0000
    ensures 0 < unicodeChar < 0x1_0000 ==> r == [unicodeChar]
  {
    if unicodeChar != 0 && unicodeChar != CombiningAccent then [unicodeChar % 0x1_0000] else []
  }

  /**
   * A dead key carries its accent with the flag bit set; it is forwarded as
   * the accent's code unit, and a code point above the 16-bit range loses its
   * high bits.
   */
  lemma CharactersOfFlaggedAndWide()
    ensures CharactersOf(CombiningAccent + 0x0301) == [0x0301]
    ensures CharactersOf(0x1_F600) == [0xF600]
  {
  }

  /** The Kotlin utility object's mutable interception flag. */
  class ExternalScannerUtil {
    var isIntercepting: bool

    constructor ()
      ensures !isIntercepting
    {
      isIntercepting := false;
    }

    /** Turns interception on and returns the listing it synchronises to native code. */
    method StartIntercepting(sys: InputSystem) returns (synced: seq<DeviceInfo>)
      modifies this`isIntercepting
      ensures isIntercepting
      ensures synced == Collect(sys.devices, sys.deviceIds)
    {
      isIntercepting := true;
      synced := GetConnectedDevices(sys);
    }

    method StopIntercepting()
      modifies this`isIntercepting
      ensures !isIntercepting
    {
      isIntercepting := false;
    }

    method IsIntercepting() returns (r: bool)
      ensures r == isIntercepting
    {
      r := isIntercepting;
    }

    /** Unregisters the device listener (outside this model) and turns interception off. */
    method Cleanup()
      modifies this`isIntercepting
      ensures !isIntercepting
    {
      isIntercepting := false;
    }

    /**
     * A key event from the activity: consumed, and forwarded once, exactly
     * when its device id is valid, the device is a scanner and interception is
     * on; otherwise it is left to the app and nothing is forwarded.
     */
    method ProcessKeyEvent(event: KeyEvent, sys: InputSystem) returns (consumed: bool, forwarded: Option<ForwardedKey>)
      ensures consumed <==> event.deviceId >= 0 && IsExternalScanner(sys, event.deviceId) && isIntercepting
      ensures forwarded.Some? <==> consumed
      ensures consumed ==>
        forwarded.value == ForwardedKey(event.keyCode, event.action, CharactersOf(event.unicodeChar), event.deviceId)
    {
      var deviceId := event.deviceId;
      if deviceId < 0 {
        return false, None;
      }
      if !IsExternalScanner(sys, deviceId) {
        return false, None;
      }
      if !isIntercepting {
        return false, None;
      }
      var characters := CharactersOf(event.unicodeChar);
      forwarded := Some(ForwardedKey(event.keyCode, event.action, characters, deviceId));
      consumed := true;
    }
  }
}
