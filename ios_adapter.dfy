/**
 * The iOS subclass of the scanner. Its overrides of startScanning,
 * stopScanning, hasExternalScanner and getConnectedDevices only call the
 * base class, and its two own entry points, the key input from the Objective-C
 * observer and the bulk device update, are methods over the scanner object.
 */
module IosScanner {
  import opened Common
  import ScanLogic
  import Scanner

  /** The iOS startScanning: the base behaviour, nothing else. */
  method StartScanning(s: Scanner.HybridExternalScanner, onScan: Option<ListenerId>, onChar: Option<ListenerId>)
    modifies s
    ensures s.EngineState() == old(s.EngineState()).(scanning := true, buffer := [], onScan := onScan, onChar := onChar)
    ensures s.connectedDevices == old(s.connectedDevices) && s.notifications == old(s.notifications)
    ensures s.connectionCallback == old(s.connectionCallback)
  {
    s.StartScanning(onScan, onChar);
  }

  /** The iOS stopScanning: the base behaviour, nothing else. */
  method StopScanning(s: Scanner.HybridExternalScanner)
    modifies s
    ensures s.EngineState() == old(s.EngineState()).(scanning := false, buffer := [], onScan := None, onChar := None)
    ensures s.connectedDevices == old(s.connectedDevices) && s.notifications == old(s.notifications)
    ensures s.connectionCallback == old(s.connectionCallback)
  {
    s.StopScanning();
  }

  /** The iOS hasExternalScanner: whether the registry is non-empty. */
  method HasExternalScanner(s: Scanner.HybridExternalScanner) returns (r: bool)
    ensures r <==> s.connectedDevices != []
  {
    r := s.HasExternalScanner();
  }

  /** The iOS getConnectedDevices: the registry as it is. */
  method GetConnectedDevices(s: Scanner.HybridExternalScanner) returns (r: seq<DeviceInfo>)
    ensures r == s.connectedDevices
  {
    r := s.GetConnectedDevices();
  }

  /**
   * A key from the observer: a key-up does nothing; a key-down goes to the
   * engine as action 0 with device id 0.
   */
  method HandleKeyInput(s: Scanner.HybridExternalScanner, characters: Bytes, keyCode: int, isKeyDown: bool, now: int, wallClock: int)
    modifies s
    ensures !isKeyDown ==> s.EngineState() == old(s.EngineState()) && s.notifications == old(s.notifications)
    ensures isKeyDown ==>
      var step := ScanLogic.OnKeyEvent(old(s.EngineState()), keyCode, 0, characters, 0, now, wallClock);
      s.EngineState() == step.engine && s.notifications == old(s.notifications) + step.out
    ensures s.connectedDevices == old(s.connectedDevices) && s.connectionCallback == old(s.connectionCallback)
  {
    if !isKeyDown {
      return;
    }
    s.OnKeyEvent(keyCode, if isKeyDown then 0 else 1, characters, 0, now, wallClock);
  }

  /**
   * The observer's full device list: the registry becomes exactly that list,
   * duplicates included, and the connection listener, if any, hears whether
   * the list is non-empty.
   */
  method UpdateDevices(s: Scanner.HybridExternalScanner, devices: seq<DeviceInfo>)
    modifies s`connectedDevices, s`notifications
    ensures s.connectedDevices == devices
    ensures s.notifications == old(s.notifications) +
      (if s.connectionCallback.Some? then [ConnectionDelivered(s.connectionCallback.value, devices != [])] else [])
  {
    s.connectedDevices := devices;
    if s.connectionCallback.Some? {
      s.notifications := s.notifications + [ConnectionDelivered(s.connectionCallback.value, devices != [])];
    }
  }
}
