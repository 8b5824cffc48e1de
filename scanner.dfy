/**
 * The platform-independent scanner object: scan buffer, timing, configuration,
 * the connected-device list and the three callbacks, updated in place by its
 * methods. Every callback invocation is appended to `notifications`, so a
 * method's effect on listeners is part of its postcondition. Clocks are
 * parameters: `now` is the monotonic time in milliseconds, `wallClock` the
 * milliseconds since the epoch that stamp a scan.
 */
module Scanner {
  import opened Common
  import opened KeyCodes
  import ScanLogic
  import DeviceRegistry

  class HybridExternalScanner {
    var scanBuffer: Bytes
    var lastKeyTime: int
    var scanTimeout: int
    var minScanLength: nat
    var scanning: bool
    var connectedDevices: seq<DeviceInfo>
    var onScanCallback: Option<ListenerId>
    var onCharCallback: Option<ListenerId>
    var connectionCallback: Option<ListenerId>
    /** Everything the callbacks have been handed, oldest first. */
    var notifications: seq<Notification>

    /** The fields key events read and change, as a ScanLogic engine. */
    function EngineState(): ScanLogic.Engine
      reads this
    {
      ScanLogic.Engine(scanning, scanBuffer, lastKeyTime, scanTimeout, minScanLength, onScanCallback, onCharCallback)
    }

    /**
     * A fresh scanner: not scanning, empty buffer, a 50 ms timeout, a minimum
     * of 3 bytes, no devices and no callbacks; the last-key time is the
     * moment of construction.
     */
    constructor (now: int)
      ensures !scanning && scanBuffer == [] && lastKeyTime == now
      ensures scanTimeout == ScanLogic.DefaultScanTimeout && minScanLength == ScanLogic.DefaultMinScanLength
      ensures connectedDevices == []
      ensures onScanCallback == None && onCharCallback == None && connectionCallback == None
      ensures notifications == []
    {
      scanBuffer := [];
      lastKeyTime := now;
      scanTimeout := ScanLogic.DefaultScanTimeout;
      minScanLength := ScanLogic.DefaultMinScanLength;
      scanning := false;
      connectedDevices := [];
      onScanCallback := None;
      onCharCallback := None;
      connectionCallback := None;
      notifications := [];
    }

    /** Whether any device is tracked. */
    method HasExternalScanner() returns (r: bool)
      ensures r <==> connectedDevices != []
    {
      r := connectedDevices != [];
    }

    /** A copy of the tracked devices. */
    method GetConnectedDevices() returns (r: seq<DeviceInfo>)
      ensures r == connectedDevices
    {
      r := connectedDevices;
    }

    /** Installs the connection listener, replacing any earlier one. */
    method OnScannerConnectionChanged(callback: Option<ListenerId>)
      modifies this`connectionCallback
      ensures connectionCallback == callback
    {
      connectionCallback := callback;
    }

    /** Installs both scan callbacks, starts scanning and empties the buffer. */
    method StartScanning(onScan: Option<ListenerId>, onChar: Option<ListenerId>)
      modifies this`onScanCallback, this`onCharCallback, this`scanning, this`scanBuffer
      ensures EngineState() == old(EngineState()).(scanning := true, buffer := [], onScan := onScan, onChar := onChar)
    {
      onScanCallback := onScan;
      onCharCallback := onChar;
      scanning := true;
      ClearBuffer();
    }

    /** Stops scanning, drops both scan callbacks and empties the buffer. */
    method StopScanning()
      modifies this`onScanCallback, this`onCharCallback, this`scanning, this`scanBuffer
      ensures EngineState() == old(EngineState()).(scanning := false, buffer := [], onScan := None, onChar := None)
    {
      scanning := false;
      onScanCallback := None;
      onCharCallback := None;
      ClearBuffer();
    }

    /** Whether key events are being processed. */
    method IsScanning() returns (r: bool)
      ensures r == scanning
    {
      r := scanning;
    }

    method SetScanTimeout(timeout: int)
      modifies this`scanTimeout
      ensures scanTimeout == timeout
    {
      scanTimeout := timeout;
    }

    /** The minimum is a natural number: the source casts it to an unsigned size. */
    method SetMinScanLength(length: nat)
      modifies this`minScanLength
      ensures minScanLength == length
    {
      minScanLength := length;
    }

    /** One key event, as ScanLogic.OnKeyEvent describes it. */
    method OnKeyEvent(keyCode: int, action: int, characters: Bytes, deviceId: int, now: int, wallClock: int)
      modifies this`scanBuffer, this`lastKeyTime, this`notifications
      ensures EngineState() == ScanLogic.OnKeyEvent(old(EngineState()), keyCode, action, characters, deviceId, now, wallClock).engine
      ensures notifications == old(notifications) + ScanLogic.OnKeyEvent(old(EngineState()), keyCode, action, characters, deviceId, now, wallClock).out
    {
      if !scanning {
        return;
      }
      // 0 is key-down, 1 key-up; only key-downs are processed
      if action != 0 {
        return;
      }
      ghost var e := EngineState();
      ghost var first := if ScanLogic.TimedOut(e, now) then ScanLogic.ProcessBuffer(e, wallClock) else ScanLogic.Step(e, []);
      var elapsed := now - lastKeyTime;
      if elapsed > scanTimeout && scanBuffer != [] {
        ProcessBuffer(wallClock);
      }
      assert EngineState() == first.engine && notifications == old(notifications) + first.out;
      lastKeyTime := now;
      ghost var e1 := first.engine.(lastKeyTime := now);
      assert EngineState() == e1;
      if IsEnterKey(keyCode) {
        ProcessBuffer(wallClock);
        assert EngineState() == ScanLogic.ProcessBuffer(e1, wallClock).engine;
        return;
      }
      if characters != [] {
        scanBuffer := scanBuffer + characters;
        if onCharCallback.Some? {
          notifications := notifications + [CharDelivered(onCharCallback.value, characters, keyCode)];
        }
      }
    }

    /** A connect notification: the registry gains the device unless its id is known; the listener hears `true` in every case. */
    method OnDeviceConnected(device: DeviceInfo)
      modifies this`connectedDevices, this`notifications
      ensures connectedDevices == DeviceRegistry.Connect(old(connectedDevices), device)
      ensures notifications == old(notifications) +
        (if connectionCallback.Some? then [ConnectionDelivered(connectionCallback.value, true)] else [])
    {
      if !DeviceRegistry.HasId(connectedDevices, device.id) {
        connectedDevices := connectedDevices + [device];
      }
      if connectionCallback.Some? {
        notifications := notifications + [ConnectionDelivered(connectionCallback.value, true)];
      }
    }

    /** A disconnect notification: every entry with the id goes; the listener hears whether any device is left. */
    method OnDeviceDisconnected(deviceId: int)
      modifies this`connectedDevices, this`notifications
      ensures connectedDevices == DeviceRegistry.Disconnect(old(connectedDevices), deviceId)
      ensures notifications == old(notifications) +
        (if connectionCallback.Some? then [ConnectionDelivered(connectionCallback.value, connectedDevices != [])] else [])
    {
      connectedDevices := DeviceRegistry.Disconnect(connectedDevices, deviceId);
      if connectionCallback.Some? {
        notifications := notifications + [ConnectionDelivered(connectionCallback.value, connectedDevices != [])];
      }
    }

    /** Finalisation of the buffer, as ScanLogic.ProcessBuffer describes it. */
    method ProcessBuffer(wallClock: int)
      modifies this`scanBuffer, this`notifications
      ensures EngineState() == ScanLogic.ProcessBuffer(old(EngineState()), wallClock).engine
      ensures notifications == old(notifications) + ScanLogic.ProcessBuffer(old(EngineState()), wallClock).out
    {
      if |scanBuffer| >= minScanLength {
        if onScanCallback.Some? {
          notifications := notifications + [ScanDelivered(onScanCallback.value, ScanResult(scanBuffer, wallClock))];
        }
      }
      ClearBuffer();
    }

    method ClearBuffer()
      modifies this`scanBuffer
      ensures scanBuffer == []
    {
      scanBuffer := [];
    }
  }

  /**
   * From construction on, a scanner does nothing with key events until
   * startScanning, whatever they are.
   */
  method FreshScannerIgnoresKeys(now: int, keyCode: int, action: int, characters: Bytes, deviceId: int, later: int, wallClock: int)
    returns (buffer: Bytes, heard: seq<Notification>)
    ensures buffer == [] && heard == []
  {
    var s := new HybridExternalScanner(now);
    s.OnKeyEvent(keyCode, action, characters, deviceId, later, wallClock);
    buffer, heard := s.scanBuffer, s.notifications;
  }

  /** With the defaults, "123" typed 10 ms apart and closed by Enter reports exactly "123". */
  method DefaultsReportThreeDigits(t: int, wallClock: int) returns (scans: seq<ScanResult>)
    ensures scans == [ScanResult([0x31, 0x32, 0x33], wallClock)]
  {
    var s := new HybridExternalScanner(t);
    s.StartScanning(Some(1), None);
    s.OnKeyEvent(8, 0, [0x31], 1, t + 10, wallClock);
    assert s.scanBuffer == [0x31] && s.notifications == [];
    s.OnKeyEvent(9, 0, [0x32], 1, t + 20, wallClock);
    assert s.scanBuffer == [0x31, 0x32] && s.notifications == [];
    s.OnKeyEvent(10, 0, [0x33], 1, t + 30, wallClock);
    assert s.scanBuffer == [0x31, 0x32, 0x33] && s.notifications == [];
    s.OnKeyEvent(66, 0, [], 1, t + 40, wallClock);
    assert s.notifications == [ScanDelivered(1, ScanResult([0x31, 0x32, 0x33], wallClock))];
    scans := Scans(s.notifications);
    assert s.notifications[1..] == [];
  }

  /** With the defaults, "12" closed by Enter is shorter than the minimum and reports nothing. */
  method DefaultsDropTwoDigits(t: int, wallClock: int) returns (scans: seq<ScanResult>)
    ensures scans == []
  {
    var s := new HybridExternalScanner(t);
    s.StartScanning(Some(1), None);
    s.OnKeyEvent(8, 0, [0x31], 1, t + 10, wallClock);
    assert s.scanBuffer == [0x31] && s.notifications == [];
    s.OnKeyEvent(9, 0, [0x32], 1, t + 20, wallClock);
    assert s.scanBuffer == [0x31, 0x32] && s.notifications == [];
    s.OnKeyEvent(66, 0, [], 1, t + 30, wallClock);
    assert s.notifications == [];
    scans := Scans(s.notifications);
  }
}
