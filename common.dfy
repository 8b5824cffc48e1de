/**
 * Values shared by the scan engine, the device registry and the platform
 * adapters: bytes, device records, scan results and the notifications that
 * the installed callbacks receive.
 */
module Common {

  datatype Option<+T> = None | Some(value: T)

  /** One byte of a C++ `std::string`. */
  type Byte = b: int | 0 <= b < 256

  /** A C++ `std::string`, seen as the bytes it holds. */
  type Bytes = seq<Byte>

  /**
   * A connected input device. The C++ record stores the numbers as doubles;
   * every value that reaches it comes from a 32-bit integer, so they are
   * integers here.
   */
  datatype DeviceInfo = DeviceInfo(id: int, name: string, vendorId: int, productId: int, isExternal: bool)

  /** A completed scan: the buffered bytes and the wall-clock time (ms since the epoch). */
  datatype ScanResult = ScanResult(code: Bytes, timestamp: int)

  /**
   * A callback stands for the listener it was installed with; two installs of
   * the same listener carry the same identity.
   */
  type ListenerId = nat

  /** One invocation of an installed callback, with what it was passed. */
  datatype Notification =
    | ScanDelivered(scanListener: ListenerId, result: ScanResult)
    | CharDelivered(charListener: ListenerId, characters: Bytes, keyCode: int)
    | ConnectionDelivered(connectionListener: ListenerId, connected: bool)

  /** The scan results among a run of notifications, in order. */
  function Scans(out: seq<Notification>): (r: seq<ScanResult>)
    ensures |r| <= |out|
  {
    if out == [] then []
    else (if out[0].ScanDelivered? then [out[0].result] else []) + Scans(out[1..])
  }

  /** The number of per-character notifications among a run of notifications. */
  function CharCount(out: seq<Notification>): (r: nat)
    ensures r <= |out|
  {
    if out == [] then 0
    else (if out[0].CharDelivered? then 1 else 0) + CharCount(out[1..])
  }

  lemma {:induction false} ScansAppend(a: seq<Notification>, b: seq<Notification>)
    ensures Scans(a + b) == Scans(a) + Scans(b)
    ensures CharCount(a + b) == CharCount(a) + CharCount(b)
  {
    if a == [] {
      assert a + b == b;
    } else {
      assert (a + b)[0] == a[0];
      assert (a + b)[1..] == a[1..] + b;
      ScansAppend(a[1..], b);
    }
  }
}
