/**
 * The two key-code helpers of the engine: recognising a scan terminator and
 * the fallback from an Android key code to its character.
 */
module KeyCodes {
  import opened Common

  /** Android KEYCODE_ENTER. */
  const AndroidEnter := 66
  /** Android KEYCODE_NUMPAD_ENTER. */
  const AndroidNumpadEnter := 160
  /**
   * Usage 0x28 "Keyboard Return (ENTER)" of the Keyboard/Keypad page (0x07) in
   * the USB HID Usage Tables, which is what iOS reports for Return.
   */
  const HidReturn := 0x28

  /** The key codes that end a scan, across the Android and USB HID numberings. */
  const EnterKeyCodes: set<int> := {AndroidEnter, AndroidNumpadEnter, HidReturn}

  /** Whether a key code ends a scan: exactly the codes of the terminator table. */
  function IsEnterKey(keyCode: int): (r: bool)
    ensures r <==> keyCode in EnterKeyCodes
  {
    keyCode == 66 || keyCode == 160 || keyCode == 40 || keyCode == 0x28
  }

  const AsciiZero: Byte := 0x30
  const AsciiLowerA: Byte := 0x61

  /** ASCII upper-casing of one byte, as `std::toupper` in the "C" locale. */
  function ToUpper(c: Byte): (r: Byte)
    ensures 0x61 <= c <= 0x7A ==> r == c - 0x20
    ensures !(0x61 <= c <= 0x7A) ==> r == c
  {
    if 0x61 <= c <= 0x7A then c - 0x20 else c
  }

  /** Whether a key code is one of the Android digit keys KEYCODE_0..KEYCODE_9. */
  predicate IsDigitKey(keyCode: int) { 7 <= keyCode <= 16 }

  /** Whether a key code is one of the Android letter keys KEYCODE_A..KEYCODE_Z. */
  predicate IsLetterKey(keyCode: int) { 29 <= keyCode <= 54 }

  /**
   * The fallback character of an Android key code: the digit keys give
   * "0".."9", the letter keys "a".."z" (upper case with shift), and every other
   * key the empty string.
   */
  function KeyCodeToChar(keyCode: int, shiftPressed: bool): (r: Bytes)
    ensures |r| <= 1
    ensures r != [] <==> IsDigitKey(keyCode) || IsLetterKey(keyCode)
    ensures IsDigitKey(keyCode) ==> r == [AsciiZero + (keyCode - 7)]
    ensures IsLetterKey(keyCode) && !shiftPressed ==> r == [AsciiLowerA + (keyCode - 29)]
    ensures IsLetterKey(keyCode) && shiftPressed ==> r == [0x41 + (keyCode - 29)]
  {
    if 7 <= keyCode <= 16 then
      [AsciiZero + (keyCode - 7)]
    else if 29 <= keyCode <= 54 then
      var c: Byte := AsciiLowerA + (keyCode - 29);
      [if shiftPressed then ToUpper(c) else c]
    else
      []
  }

  /**
   * The Android key code that produces an ASCII digit or lower-case letter:
   * the inverse of KeyCodeToChar on the unshifted keys.
   */
  function KeyCodeFor(c: Byte): (r: Option<int>)
    ensures r.Some? <==> (0x30 <= c <= 0x39 || 0x61 <= c <= 0x7A)
  {
    if 0x30 <= c <= 0x39 then Some(c - 0x30 + 7)
    else if 0x61 <= c <= 0x7A then Some(c - 0x61 + 29)
    else None
  }

  /** KeyCodeFor undoes KeyCodeToChar on every digit and letter key. */
  lemma KeyCodeRoundTrip(keyCode: int)
    requires IsDigitKey(keyCode) || IsLetterKey(keyCode)
    ensures |KeyCodeToChar(keyCode, false)| == 1
    ensures KeyCodeFor(KeyCodeToChar(keyCode, false)[0]) == Some(keyCode)
  {
  }

  /** KeyCodeToChar undoes KeyCodeFor on every ASCII digit and lower-case letter. */
  lemma CharRoundTrip(c: Byte)
    requires 0x30 <= c <= 0x39 || 0x61 <= c <= 0x7A
    ensures KeyCodeToChar(KeyCodeFor(c).value, false) == [c]
  {
  }

  /** Shift changes only letters, and changes them to their upper case. */
  lemma ShiftUppercases(keyCode: int)
    ensures |KeyCodeToChar(keyCode, true)| == |KeyCodeToChar(keyCode, false)|
    ensures forall i :: 0 <= i < |KeyCodeToChar(keyCode, true)| ==>
      KeyCodeToChar(keyCode, true)[i] == ToUpper(KeyCodeToChar(keyCode, false)[i])
  {
  }

  /**
   * Key code 40 is also the Android code for the letter L: the fallback maps
   * it to "l", yet it is always taken as a scan terminator.
   */
  lemma Code40IsBothLAndEnter()
    ensures IsEnterKey(40)
    ensures KeyCodeToChar(40, false) == [0x6C]
    ensures KeyCodeToChar(40, true) == [0x4C]
  {
  }
}
