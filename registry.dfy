/**
 * The connected-device registry as a value: a list of device records and the
 * two incremental updates the engine applies to it, the de-duplicating insert
 * of a connect notification and the remove-all of a disconnect notification.
 */
module DeviceRegistry {
  import opened Common

  /** Some entry of the list carries this id. */
  predicate HasId(devices: seq<DeviceInfo>, id: int)
  {
    exists i :: 0 <= i < |devices| && devices[i].id == id
  }

  /** No two entries carry the same id. */
  predicate UniqueIds(devices: seq<DeviceInfo>)
  {
    forall i, j :: 0 <= i < j < |devices| ==> devices[i].id != devices[j].id
  }

  /**
   * A connect notification: the device is appended unless an entry with its
   * id is already there, in which case the first one stays.
   */
  function Connect(devices: seq<DeviceInfo>, device: DeviceInfo): (r: seq<DeviceInfo>)
    ensures HasId(r, device.id)
    ensures UniqueIds(devices) ==> UniqueIds(r)
    ensures |devices| <= |r| <= |devices| + 1
    ensures r[..|devices|] == devices
    ensures |r| == |devices| + 1 <==> !HasId(devices, device.id)
    ensures |r| == |devices| + 1 ==> r[|devices|] == device
  {
    if HasId(devices, device.id) then devices
    else
      var r := devices + [device];
      assert r[|devices|] == device;
      r
  }

  /**
   * A disconnect notification: every entry with the id goes, the others stay
   * in their order.
   */
  function Disconnect(devices: seq<DeviceInfo>, id: int): (r: seq<DeviceInfo>)
    ensures !HasId(r, id)
    ensures |r| <= |devices|
    ensures HasId(devices, id) <==> |r| < |devices|
  {
    if devices == [] then []
    else
      var rest := Disconnect(devices[1..], id);
      if devices[0].id == id then rest else [devices[0]] + rest
  }

  /** What stays after a disconnect is exactly what was there under another id. */
  lemma {:induction false} DisconnectMembers(devices: seq<DeviceInfo>, id: int, d: DeviceInfo)
    ensures d in Disconnect(devices, id) <==> d in devices && d.id != id
  {
    if devices != [] {
      assert d in devices <==> d == devices[0] || d in devices[1..];
      DisconnectMembers(devices[1..], id, d);
    }
  }

  /** A run of connect notifications, in delivery order. */
  function ConnectAll(devices: seq<DeviceInfo>, incoming: seq<DeviceInfo>): seq<DeviceInfo>
    decreases |incoming|
  {
    if incoming == [] then devices
    else ConnectAll(Connect(devices, incoming[0]), incoming[1..])
  }

  /** Disconnecting nothing that is there leaves the list as it was. */
  lemma {:induction false} DisconnectAbsent(devices: seq<DeviceInfo>, id: int)
    requires !HasId(devices, id)
    ensures Disconnect(devices, id) == devices
  {
    if devices != [] {
      assert devices[0].id != id;
      assert !HasId(devices[1..], id) by {
        forall i | 0 <= i < |devices[1..]| ensures devices[1..][i].id != id {
          assert devices[1..][i] == devices[i + 1];
        }
      }
      DisconnectAbsent(devices[1..], id);
    }
  }

  /** One step of Disconnect on a list written as head and tail. */
  lemma DisconnectCons(x: DeviceInfo, s: seq<DeviceInfo>, id: int)
    ensures Disconnect([x] + s, id) == if x.id == id then Disconnect(s, id) else [x] + Disconnect(s, id)
  {
    assert ([x] + s)[0] == x;
    assert ([x] + s)[1..] == s;
  }

  /** Disconnect works element by element, so it keeps the order of what stays. */
  lemma {:induction false} DisconnectConcat(a: seq<DeviceInfo>, b: seq<DeviceInfo>, id: int)
    ensures Disconnect(a + b, id) == Disconnect(a, id) + Disconnect(b, id)
  {
    if a == [] {
      assert a + b == b;
    } else {
      assert a + b == [a[0]] + (a[1..] + b);
      assert a == [a[0]] + a[1..];
      DisconnectCons(a[0], a[1..] + b, id);
      DisconnectCons(a[0], a[1..], id);
      DisconnectConcat(a[1..], b, id);
      var x, da, db := a[0], Disconnect(a[1..], id), Disconnect(b, id);
      if x.id != id {
        assert [x] + (da + db) == ([x] + da) + db;
      }
    }
  }

  /** Disconnect undoes a connect of a new id. */
  lemma DisconnectUndoesConnect(devices: seq<DeviceInfo>, device: DeviceInfo)
    requires !HasId(devices, device.id)
    ensures Disconnect(Connect(devices, device), device.id) == devices
  {
    DisconnectConcat(devices, [device], device.id);
    DisconnectAbsent(devices, device.id);
    assert Disconnect([device], device.id) == [];
  }

  /** A second connect with the same id changes nothing. */
  lemma ConnectIdempotent(devices: seq<DeviceInfo>, device: DeviceInfo, again: DeviceInfo)
    requires again.id == device.id
    ensures Connect(Connect(devices, device), again) == Connect(devices, device)
  {
  }

  /** Disconnect keeps ids unique. */
  lemma {:induction false} DisconnectKeepsUniqueIds(devices: seq<DeviceInfo>, id: int)
    requires UniqueIds(devices)
    ensures UniqueIds(Disconnect(devices, id))
  {
    if devices != [] {
      var rest := Disconnect(devices[1..], id);
      assert UniqueIds(devices[1..]) by {
        forall i, j | 0 <= i < j < |devices[1..]| ensures devices[1..][i].id != devices[1..][j].id {
          assert devices[1..][i] == devices[i + 1] && devices[1..][j] == devices[j + 1];
        }
      }
      DisconnectKeepsUniqueIds(devices[1..], id);
      if devices[0].id != id {
        var r := [devices[0]] + rest;
        forall j | 0 < j < |r| ensures r[0].id != r[j].id {
          assert r[j] in rest;
          DisconnectMembers(devices[1..], id, r[j]);
          assert r[j] in devices[1..];
          var k :| 0 <= k < |devices[1..]| && devices[1..][k] == r[j];
          assert devices[k + 1] == r[j];
        }
        forall i, j | 0 < i < j < |r| ensures r[i].id != r[j].id {
          assert r[i] == rest[i - 1] && r[j] == rest[j - 1];
        }
      }
    }
  }

  /**
   * However often a device id is announced, a registry built by connect
   * notifications alone holds it at most once.
   */
  lemma {:induction false} ConnectAllKeepsUniqueIds(devices: seq<DeviceInfo>, incoming: seq<DeviceInfo>)
    requires UniqueIds(devices)
    ensures UniqueIds(ConnectAll(devices, incoming))
    ensures forall i :: 0 <= i < |incoming| ==> HasId(ConnectAll(devices, incoming), incoming[i].id)
    decreases |incoming|
  {
    if incoming != [] {
      var next := Connect(devices, incoming[0]);
      ConnectAllKeepsUniqueIds(next, incoming[1..]);
      ConnectAllKeepsIds(next, incoming[1..], incoming[0].id);
      forall i | 0 < i < |incoming| ensures HasId(ConnectAll(devices, incoming), incoming[i].id) {
        assert incoming[i] == incoming[1..][i - 1];
      }
    }
  }

  /** Connect notifications never drop an id. */
  lemma {:induction false} ConnectAllKeepsIds(devices: seq<DeviceInfo>, incoming: seq<DeviceInfo>, id: int)
    requires HasId(devices, id)
    ensures HasId(ConnectAll(devices, incoming), id)
    decreases |incoming|
  {
    if incoming != [] {
      var next := Connect(devices, incoming[0]);
      var i :| 0 <= i < |devices| && devices[i].id == id;
      assert next[i] == devices[i];
      ConnectAllKeepsIds(next, incoming[1..], id);
    }
  }
}
