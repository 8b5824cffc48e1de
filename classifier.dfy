/**
 * The Android decision whether an input device is an external scanner: a
 * fixed sequence of tests on the device's virtual flag, its lower-cased name,
 * its source bits and its USB ids.
 */
module DeviceClassifier {

  /** An Android 32-bit `Int`. */
  type Int32 = x: int | -0x8000_0000 <= x < 0x8000_0000

  /** What the classifier reads of an Android `InputDevice`. */
  datatype InputDevice = InputDevice(id: Int32, name: string, isVirtual: bool, sources: bv32, vendorId: Int32, productId: Int32)

  /** InputDevice.SOURCE_KEYBOARD: SOURCE_CLASS_BUTTON (0x1) with the keyboard bit 0x100. */
  const SourceKeyboard: bv32 := 0x101

  /** Lower case of one character; only the ASCII letters change. */
  function LowerChar(c: char): (r: char)
    ensures 'A' <= c <= 'Z' ==> r as int == c as int + 32
    ensures !('A' <= c <= 'Z') ==> r == c
  {
    if 'A' <= c <= 'Z' then (c as int + 32) as char else c
  }

  /** The lower-cased name, character by character. */
  function Lower(s: string): (r: string)
    ensures |r| == |s|
    ensures forall i :: 0 <= i < |s| ==> r[i] == LowerChar(s[i])
  {
    if s == [] then [] else [LowerChar(s[0])] + Lower(s[1..])
  }

  predicate StartsWith(s: string, t: string)
  {
    |t| <= |s| && s[..|t|] == t
  }

  predicate EndsWith(s: string, t: string)
  {
    |t| <= |s| && s[|s| - |t|..] == t
  }

  /** `t` occurs somewhere in `s`. */
  predicate Contains(s: string, t: string)
    decreases |s|
  {
    StartsWith(s, t) || (s != [] && Contains(s[1..], t))
  }

  /** Some word of the list occurs in `s`. */
  predicate ContainsAny(s: string, words: seq<string>)
  {
    exists k | 0 <= k < |words| :: Contains(s, words[k])
  }

  /** Name fragments of built-in devices: SoC keys, touch screens, audio jacks, buttons, sensors, styluses. */
  const InternalFragments: seq<string> := [
    "mtk-", "pmic", "_ts", "touchscreen", "touch screen", "headset", "headphone",
    "gpio", "power", "volume", "fingerprint", "accelerometer", "gyroscope",
    "compass", "proximity", "light sensor", ",pen"]

  /** Name words of scanner and RFID reader makes and kinds. */
  const ScannerKeywords: seq<string> := [
    "scanner", "barcode", "reader", "rfid", "symbol", "honeywell", "zebra",
    "datalogic", "newland", "opticon", "motorola", "intermec", "denso", "keyence"]

  /** A lower-cased name that marks a built-in device. */
  predicate IsInternalName(nameLower: string)
  {
    || ContainsAny(nameLower, InternalFragments)
    || StartsWith(nameLower, "gpio-")
    || StartsWith(nameLower, "kpd")
    || EndsWith(nameLower, "-kpd")
  }

  /** The source bits include every bit of SOURCE_KEYBOARD. */
  predicate HasKeyboard(sources: bv32)
  {
    sources & SourceKeyboard == SourceKeyboard
  }

  /**
   * Whether a device is taken for an external scanner: virtual devices, then
   * built-in names, then devices without keyboard input are refused; a name
   * with a scanner keyword is accepted; any other keyboard needs both USB ids.
   */
  function IsExternalScannerDevice(device: InputDevice): (r: bool)
    ensures device.isVirtual ==> !r
    ensures IsInternalName(Lower(device.name)) ==> !r
    ensures !HasKeyboard(device.sources) ==> !r
    ensures !device.isVirtual && !IsInternalName(Lower(device.name)) && HasKeyboard(device.sources) ==>
      (r <==> ContainsAny(Lower(device.name), ScannerKeywords) || (device.vendorId > 0 && device.productId > 0))
  {
    if device.isVirtual then false
    else
      var nameLower := Lower(device.name);
      if IsInternalName(nameLower) then false
      else if !HasKeyboard(device.sources) then false
      else if ContainsAny(nameLower, ScannerKeywords) then true
      else device.vendorId > 0 && device.productId > 0
  }

  /** Lower-casing twice is lower-casing once. */
  lemma LowerIdempotent(s: string)
    ensures Lower(Lower(s)) == Lower(s)
  {
  }

  /**
   * The decision ignores the case of ASCII letters in the name: a device and
   * the same device under its lower-cased name are classified alike.
   */
  lemma CaseInsensitive(device: InputDevice)
    ensures IsExternalScannerDevice(device) == IsExternalScannerDevice(device.(name := Lower(device.name)))
  {
    LowerIdempotent(device.name);
  }

  /** The prefix rule "gpio-" never decides anything: the fragment "gpio" already refuses such names. */
  lemma GpioPrefixRuleSubsumed(nameLower: string)
    requires StartsWith(nameLower, "gpio-")
    ensures ContainsAny(nameLower, InternalFragments)
  {
    assert nameLower[..4] == nameLower[..5][..4];
    assert Contains(nameLower, InternalFragments[7]);
  }

  /** A word longer than the name, or whose first character the name lacks, does not occur in it. */
  lemma {:induction false} AbsentWord(s: string, t: string)
    requires |t| > |s| || (t != [] && t[0] !in s)
    ensures !Contains(s, t)
    decreases |s|
  {
    if s != [] {
      assert t != [] && t[0] !in s ==> t[0] !in s[1..];
      AbsentWord(s[1..], t);
    }
  }

  /** No word of the list occurs in the name, by AbsentWord on each. */
  lemma NoneOf(s: string, words: seq<string>)
    requires forall k | 0 <= k < |words| :: |words[k]| > |s| || (words[k] != [] && words[k][0] !in s)
    ensures !ContainsAny(s, words)
  {
    forall k | 0 <= k < |words| ensures !Contains(s, words[k]) {
      AbsentWord(s, words[k]);
    }
  }

  /** No built-in fragment or prefix or suffix rule refuses "rfid". */
  lemma RfidIsNotInternal()
    ensures !IsInternalName("rfid")
  {
    NoneOf("rfid", InternalFragments);
    assert "rfid"[..3][0] != "kpd"[0];
    assert "rfid"[0] != "-kpd"[0];
  }

  /** A scanner keyword accepts a non-virtual keyboard without USB ids. */
  lemma KeywordAcceptsWithoutUsbIds()
    ensures IsExternalScannerDevice(InputDevice(5, "RFID", false, 0x101, 0, 0))
  {
    assert Lower("RFID") == "rfid";
    RfidIsNotInternal();
    assert StartsWith("rfid", ScannerKeywords[3]);
    assert Contains("rfid", ScannerKeywords[3]);
  }

  /** Any other keyboard name needs both USB ids and the keyboard source bits. */
  lemma PlainKeyboardNeedsUsbIds()
    ensures !IsExternalScannerDevice(InputDevice(5, "KB", false, 0x101, 0, 0))
    ensures IsExternalScannerDevice(InputDevice(5, "KB", false, 0x101, 0x1234, 0x1))
    ensures !IsExternalScannerDevice(InputDevice(5, "KB", false, 0x1, 0x1234, 0x1))
  {
    var kb := Lower("KB");
    assert kb == "kb";
    assert !IsInternalName(kb) by {
      NoneOf(kb, InternalFragments);
    }
    NoneOf(kb, ScannerKeywords);
  }

  /** A built-in name is refused even with USB ids. */
  lemma BuiltInNameRefused()
    ensures !IsExternalScannerDevice(InputDevice(5, "gpio-keys", false, 0x101, 0x1234, 0x1))
  {
    var n := Lower("gpio-keys");
    assert n[..5] == "gpio-";
    assert IsInternalName(n);
  }
}
