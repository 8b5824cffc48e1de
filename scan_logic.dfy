/**
 * The scan engine as a value and its transitions: the finalisation of the
 * buffer and the handling of one key event. The class in module Scanner keeps
 * the same state in fields and is proved to follow these functions; the
 * lemmas at the end state what a whole stream of key events does.
 */
module ScanLogic {
  import opened Common
  import opened KeyCodes

  /** Milliseconds allowed between two keys of one scan, by default. */
  const DefaultScanTimeout := 50
  /** Fewest bytes a finalised buffer needs to be reported, by default. */
  const DefaultMinScanLength := 3

  /**
   * The part of the engine that key events read and change: the scanning
   * flag, the buffer, the monotonic time of the last key-down, the two
   * configuration values and the two callbacks installed by startScanning.
   */
  datatype Engine = Engine(
    scanning: bool,
    buffer: Bytes,
    lastKeyTime: int,
    scanTimeout: int,
    minScanLength: nat,
    onScan: Option<ListenerId>,
    onChar: Option<ListenerId>)

  /** An engine state and the notifications a transition delivered, in order. */
  datatype Step = Step(engine: Engine, out: seq<Notification>)

  /** The scan a finalisation of `buffer` reports: one result, or none. */
  function ScanOf(e: Engine, buffer: Bytes, wallClock: int): seq<ScanResult>
  {
    if |buffer| >= e.minScanLength && e.onScan.Some? then [ScanResult(buffer, wallClock)] else []
  }

  /**
   * Finalisation of the buffer: the buffer is reported when it is long
   * enough and a scan callback is installed, and it is emptied in every case.
   */
  function ProcessBuffer(e: Engine, wallClock: int): (r: Step)
    ensures r.engine == e.(buffer := [])
    ensures |r.out| <= 1
    ensures r.out != [] <==> |e.buffer| >= e.minScanLength && e.onScan.Some?
    ensures r.out != [] ==> r.out[0] == ScanDelivered(e.onScan.value, ScanResult(e.buffer, wallClock))
    ensures Scans(r.out) == ScanOf(e, e.buffer, wallClock)
    ensures CharCount(r.out) == 0
  {
    var out := if |e.buffer| >= e.minScanLength && e.onScan.Some? then
      [ScanDelivered(e.onScan.value, ScanResult(e.buffer, wallClock))]
    else [];
    assert Scans(out) == ScanOf(e, e.buffer, wallClock) by {
      if out != [] { assert out[1..] == []; }
    }
    Step(e.(buffer := []), out)
  }

  /** A key-down arriving at `now` ends the scan in progress because of the gap. */
  predicate TimedOut(e: Engine, now: int)
  {
    now - e.lastKeyTime > e.scanTimeout && e.buffer != []
  }

  /** The key event is looked at at all: the engine scans and the key went down. */
  predicate Accepted(e: Engine, action: int)
  {
    e.scanning && action == 0
  }

  /**
   * One key event (`action` 0 is key-down, anything else key-up), arriving at
   * monotonic time `now`; `wallClock` stamps any scan it completes. The device
   * id takes no part.
   */
  function OnKeyEvent(e: Engine, keyCode: int, action: int, characters: Bytes, deviceId: int, now: int, wallClock: int): (r: Step)
    // ignored events leave everything as it was, the last-key time included
    ensures !Accepted(e, action) ==> r == Step(e, [])
    // configuration, callbacks and the scanning flag are never changed here
    ensures r.engine.scanning == e.scanning && r.engine.scanTimeout == e.scanTimeout
    ensures r.engine.minScanLength == e.minScanLength
    ensures r.engine.onScan == e.onScan && r.engine.onChar == e.onChar
    ensures Accepted(e, action) ==> r.engine.lastKeyTime == now
    // an Enter key empties the buffer and never reaches the character listener
    ensures Accepted(e, action) && IsEnterKey(keyCode) ==> r.engine.buffer == [] && CharCount(r.out) == 0
    // any other key appends its bytes to what the gap left of the buffer
    ensures Accepted(e, action) && !IsEnterKey(keyCode) ==>
      r.engine.buffer == (if TimedOut(e, now) then [] else e.buffer) + characters
    // the character listener hears each appended non-empty string once
    ensures Accepted(e, action) && !IsEnterKey(keyCode) ==>
      CharCount(r.out) == (if characters != [] && e.onChar.Some? then 1 else 0)
    ensures Accepted(e, action) && !IsEnterKey(keyCode) && characters != [] && e.onChar.Some? ==>
      r.out[|r.out| - 1] == CharDelivered(e.onChar.value, characters, keyCode)
    // the scans reported: the buffer ended by the gap, then the buffer ended by Enter
    ensures Accepted(e, action) ==>
      Scans(r.out) ==
        (if TimedOut(e, now) then ScanOf(e, e.buffer, wallClock) else []) +
        (if IsEnterKey(keyCode) then ScanOf(e, if TimedOut(e, now) then [] else e.buffer, wallClock) else [])
  {
    if !e.scanning || action != 0 then Step(e, [])
    else
      var first := if TimedOut(e, now) then ProcessBuffer(e, wallClock) else Step(e, []);
      var e1 := first.engine.(lastKeyTime := now);
      if IsEnterKey(keyCode) then
        var last := ProcessBuffer(e1, wallClock);
        ScansAppend(first.out, last.out);
        Step(last.engine, first.out + last.out)
      else if characters != [] then
        var e2 := e1.(buffer := e1.buffer + characters);
        if e.onChar.Some? then
          var ch := [CharDelivered(e.onChar.value, characters, keyCode)];
          ScansAppend(first.out, ch);
          assert Scans(ch) == [] && CharCount(ch) == 1 by { assert ch[1..] == []; }
          Step(e2, first.out + ch)
        else
          Step(e2, first.out)
      else
        Step(e1, first.out)
  }

  /** A key event as the platform delivers it, with the two clock readings. */
  datatype KeyInput = KeyInput(keyCode: int, action: int, characters: Bytes, deviceId: int, now: int, wallClock: int)

  function Apply(e: Engine, k: KeyInput): Step
  {
    OnKeyEvent(e, k.keyCode, k.action, k.characters, k.deviceId, k.now, k.wallClock)
  }

  /** A stream of key events, handled one after the other. */
  function Feed(e: Engine, keys: seq<KeyInput>): Step
    decreases |keys|
  {
    if keys == [] then Step(e, [])
    else
      var first := Apply(e, keys[0]);
      var rest := Feed(first.engine, keys[1..]);
      Step(rest.engine, first.out + rest.out)
  }

  /** Feeding two streams one after the other is feeding their concatenation. */
  lemma {:induction false} FeedConcat(e: Engine, a: seq<KeyInput>, b: seq<KeyInput>)
    ensures Feed(e, a + b).engine == Feed(Feed(e, a).engine, b).engine
    ensures Feed(e, a + b).out == Feed(e, a).out + Feed(Feed(e, a).engine, b).out
    decreases |a|
  {
    if a == [] {
      assert a + b == b;
    } else {
      var k, tail := a[0], a[1..];
      assert a == [k] + tail;
      assert a + b == [k] + (tail + b);
      var first := Apply(e, k);
      FeedConcat(first.engine, tail, b);
      FeedCons(e, k, tail);
      FeedCons(e, k, tail + b);
      var mid := Feed(first.engine, tail);
      var last := Feed(mid.engine, b);
      assert first.out + (mid.out + last.out) == (first.out + mid.out) + last.out;
    }
  }

  /** One unfolding of Feed, by itself. */
  lemma FeedCons(e: Engine, k: KeyInput, rest: seq<KeyInput>)
    ensures Feed(e, [k] + rest) == Step(Feed(Apply(e, k).engine, rest).engine, Apply(e, k).out + Feed(Apply(e, k).engine, rest).out)
  {
    assert ([k] + rest)[0] == k;
    assert ([k] + rest)[1..] == rest;
  }

  /**
   * Once scanning has stopped, no stream of key events changes anything or
   * reaches any listener.
   */
  lemma {:induction false} StoppedEngineIgnoresAll(e: Engine, keys: seq<KeyInput>)
    requires !e.scanning
    ensures Feed(e, keys) == Step(e, [])
    decreases |keys|
  {
    if keys != [] {
      StoppedEngineIgnoresAll(e, keys[1..]);
    }
  }

  /**
   * A burst: key-downs that are not Enter, each within the timeout of the one
   * before. A key may carry no characters (a Shift key-down, say): it only
   * moves the last-key time.
   */
  predicate IsBurst(keys: seq<KeyInput>, timeout: int)
  {
    && (forall i :: 0 <= i < |keys| ==> keys[i].action == 0 && !IsEnterKey(keys[i].keyCode))
    && (forall i :: 0 < i < |keys| ==> keys[i].now - keys[i - 1].now <= timeout)
  }

  /** The bytes a stream of key events carries, concatenated in order. */
  function Typed(keys: seq<KeyInput>): Bytes
    decreases |keys|
  {
    if keys == [] then [] else keys[0].characters + Typed(keys[1..])
  }

  /**
   * A burst accumulates: while the gaps stay within the timeout, every key's
   * bytes are appended to the buffer and no scan is reported.
   */
  lemma {:induction false} BurstAccumulates(e: Engine, keys: seq<KeyInput>)
    requires e.scanning
    requires IsBurst(keys, e.scanTimeout)
    requires keys != [] && e.buffer != [] ==> keys[0].now - e.lastKeyTime <= e.scanTimeout
    ensures Feed(e, keys).engine == e.(buffer := e.buffer + Typed(keys), lastKeyTime := if keys == [] then e.lastKeyTime else keys[|keys| - 1].now)
    ensures Scans(Feed(e, keys).out) == []
    decreases |keys|
  {
    if keys == [] {
      assert e.buffer + [] == e.buffer;
    } else {
      var rest := keys[1..];
      var next := e.(buffer := e.buffer + keys[0].characters, lastKeyTime := keys[0].now);
      BurstStep(e, keys);
      BurstTail(keys, e.scanTimeout);
      assert rest != [] ==> rest[0].now - next.lastKeyTime <= e.scanTimeout by {
        if rest != [] { assert rest[0] == keys[1]; }
      }
      BurstAccumulates(next, rest);
      BytesAssoc(e.buffer, keys[0].characters, Typed(rest));
      if rest != [] {
        assert rest[|rest| - 1] == keys[|keys| - 1];
      }
    }
  }

  /** Concatenation of byte strings regroups. */
  lemma BytesAssoc(a: Bytes, b: Bytes, c: Bytes)
    ensures (a + b) + c == a + (b + c)
  {
  }

  /** The first key of a burst is appended to the buffer, and the rest of the burst carries on from there. */
  lemma BurstStep(e: Engine, keys: seq<KeyInput>)
    requires e.scanning && keys != []
    requires keys[0].action == 0 && !IsEnterKey(keys[0].keyCode) && !TimedOut(e, keys[0].now)
    ensures Feed(e, keys).engine == Feed(e.(buffer := e.buffer + keys[0].characters, lastKeyTime := keys[0].now), keys[1..]).engine
    ensures Scans(Feed(e, keys).out) == Scans(Feed(e.(buffer := e.buffer + keys[0].characters, lastKeyTime := keys[0].now), keys[1..]).out)
    ensures Typed(keys) == keys[0].characters + Typed(keys[1..])
  {
    var k := keys[0];
    BurstKey(e, k);
    var first := Apply(e, k);
    var tail := Feed(first.engine, keys[1..]);
    ScansAppend(first.out, tail.out);
  }

  /** One key of a burst: its bytes are appended, its time recorded, and no scan is reported. */
  lemma BurstKey(e: Engine, k: KeyInput)
    requires e.scanning && k.action == 0 && !IsEnterKey(k.keyCode) && !TimedOut(e, k.now)
    ensures Apply(e, k).engine == e.(buffer := e.buffer + k.characters, lastKeyTime := k.now)
    ensures Scans(Apply(e, k).out) == []
  {
  }

  /** What follows the first key of a burst is a burst. */
  lemma BurstTail(keys: seq<KeyInput>, timeout: int)
    requires IsBurst(keys, timeout) && keys != []
    ensures IsBurst(keys[1..], timeout)
  {
    var rest := keys[1..];
    forall i | 0 < i < |rest| ensures rest[i].now - rest[i - 1].now <= timeout {
      assert rest[i] == keys[i + 1] && rest[i - 1] == keys[i];
    }
  }

  /**
   * A burst closed by Enter, started on an empty buffer, reports exactly one
   * scan carrying every byte of the burst in order when the burst is long
   * enough and a scan callback is installed, and nothing otherwise; the
   * buffer is empty afterwards.
   */
  lemma BurstThenEnter(e: Engine, keys: seq<KeyInput>, enter: KeyInput)
    requires e.scanning && e.buffer == []
    requires IsBurst(keys, e.scanTimeout)
    requires enter.action == 0 && IsEnterKey(enter.keyCode)
    requires keys != [] ==> enter.now - keys[|keys| - 1].now <= e.scanTimeout
    ensures Feed(e, keys + [enter]).engine.buffer == []
    ensures Scans(Feed(e, keys + [enter]).out) ==
      (if |Typed(keys)| >= e.minScanLength && e.onScan.Some? then [ScanResult(Typed(keys), enter.wallClock)] else [])
  {
    BurstAccumulates(e, keys);
    var mid := Feed(e, keys);
    FeedConcat(e, keys, [enter]);
    assert [] + Typed(keys) == Typed(keys);
    assert !TimedOut(mid.engine, enter.now);
    var last := Apply(mid.engine, enter);
    assert Feed(mid.engine, [enter]) == Step(last.engine, last.out + []) by {
      assert [enter][1..] == [];
    }
    assert last.out + [] == last.out;
    ScansAppend(mid.out, last.out);
  }

  /**
   * A Shift key-down carries no characters but still belongs to the burst:
   * Shift, then 'A', then Enter reports "A" under a minimum length of 1.
   */
  lemma ShiftInsideBurst(e: Engine, t: int, w: int)
    requires e.scanning && e.buffer == [] && e.onScan.Some? && e.minScanLength == 1 && e.scanTimeout == 50
    ensures Scans(Feed(e, [KeyInput(59, 0, [], 1, t, w), KeyInput(29, 0, [0x41], 1, t + 10, w), KeyInput(66, 0, [], 1, t + 20, w)]).out) ==
      [ScanResult([0x41], w)]
  {
    var burst := [KeyInput(59, 0, [], 1, t, w), KeyInput(29, 0, [0x41], 1, t + 10, w)];
    var enter := KeyInput(66, 0, [], 1, t + 20, w);
    assert burst + [enter] == [KeyInput(59, 0, [], 1, t, w), KeyInput(29, 0, [0x41], 1, t + 10, w), KeyInput(66, 0, [], 1, t + 20, w)];
    assert Typed(burst) == [0x41] by {
      assert burst[1..] == [burst[1]] && burst[1..][1..] == [];
      assert Typed(burst[1..]) == [0x41] + [];
      assert Typed(burst) == [] + Typed(burst[1..]);
    }
    BurstThenEnter(e, burst, enter);
  }

  /**
   * A key-down after a gap longer than the timeout ends the scan in progress:
   * the old buffer is reported or dropped by the length rule, and the new key
   * starts the next buffer.
   */
  lemma GapSplitsScans(e: Engine, k: KeyInput)
    requires e.scanning && e.buffer != []
    requires k.action == 0 && !IsEnterKey(k.keyCode)
    requires k.now - e.lastKeyTime > e.scanTimeout
    ensures Apply(e, k).engine.buffer == k.characters
    ensures Scans(Apply(e, k).out) == ScanOf(e, e.buffer, k.wallClock)
  {
    assert Scans(Apply(e, k).out) == ScanOf(e, e.buffer, k.wallClock) + [];
  }

  /**
   * With a minimum length of zero, Enter right after a gap reports twice: the
   * buffer the gap ended, and then the empty buffer.
   */
  lemma EnterAfterGapWithZeroMinimum(e: Engine, k: KeyInput)
    requires e.scanning && e.buffer != [] && e.onScan.Some? && e.minScanLength == 0
    requires k.action == 0 && IsEnterKey(k.keyCode)
    requires k.now - e.lastKeyTime > e.scanTimeout
    ensures Scans(Apply(e, k).out) == [ScanResult(e.buffer, k.wallClock), ScanResult([], k.wallClock)]
  {
  }
}
