/** The durable trust store of one endpoint: what the operations of KTrustedDeviceService
    compute, as functions on the memory and the file, and the service itself. */
module TrustedDevices {
  import opened PairingTypes

  /** The service's fields, and the content of the store file. */
  datatype Trust = Trust(
    devices: seq<Device>,
    before: seq<Device>,
    transactionId: RequestId,
    transactionDevice: DeviceId,
    disk: seq<Device>)

  // ---------- recovery on load ----------

  /** The order in which recovery prefers two Mutual records of one device. */
  predicate Older(a: Device, b: Device) {
    a.pairedAt < b.pairedAt || (a.pairedAt == b.pairedAt && a.transactionId < b.transactionId)
  }

  function Confirmed(ds: seq<Device>): (r: seq<Device>)
    ensures |r| <= |ds|
    ensures |r| == |ds| ==> r == ds
  {
    if ds == [] then []
    else if ds[0].commitState.Mutual? then [ds[0]] + Confirmed(ds[1..])
    else Confirmed(ds[1..])
  }

  /** Record i is the least of its device, the first of them when two are equal. */
  predicate Survives(ds: seq<Device>, i: nat)
    requires i < |ds|
  {
    forall j :: 0 <= j < |ds| && j != i && ds[j].deviceId == ds[i].deviceId ==>
      if j < i then Older(ds[i], ds[j]) else !Older(ds[j], ds[i])
  }

  function Survivors(ds: seq<Device>, from: nat): seq<Device>
    requires from <= |ds|
    decreases |ds| - from
  {
    if from == |ds| then []
    else if Survives(ds, from) then [ds[from]] + Survivors(ds, from + 1)
    else Survivors(ds, from + 1)
  }

  function Recover(ds: seq<Device>): seq<Device> {
    Survivors(Confirmed(ds), 0)
  }

  // ---------- the operations ----------

  function Load(t: Trust, readOk: bool, saveOk: bool): (Trust, bool) {
    var recovered := Recover(t.disk);
    if !readOk || (recovered != t.disk && !saveOk) then (t, false)
    else (Trust(recovered, [], 0, 0, recovered), true)
  }

  /** The first Mutual record of the device, otherwise its last record, otherwise -1. */
  function FindFrom(ds: seq<Device>, id: DeviceId, from: nat, pending: int): (r: int)
    requires from <= |ds| && -1 <= pending < |ds|
    ensures -1 <= r < |ds|
    decreases |ds| - from
  {
    if from == |ds| then pending
    else if ds[from].deviceId != id then FindFrom(ds, id, from + 1, pending)
    else if ds[from].commitState.Mutual? then from
    else FindFrom(ds, id, from + 1, from)
  }

  function Find(ds: seq<Device>, id: DeviceId): (r: int)
    ensures -1 <= r < |ds|
  {
    FindFrom(ds, id, 0, -1)
  }

  function MutualCommitId(ds: seq<Device>, id: DeviceId, spki: Digest): RequestId {
    var k := Find(ds, id);
    if k < 0 || !ds[k].commitState.Mutual? || ds[k].spki != spki then 0
    else ds[k].transactionId
  }

  predicate IsMutuallyTrusted(ds: seq<Device>, id: DeviceId, spki: Digest, peerCommitId: RequestId) {
    var own := MutualCommitId(ds, id, spki);
    own != 0 && own == peerCommitId
  }

  predicate HasTransaction(t: Trust, request: RequestId) {
    t.transactionId != 0 && request == t.transactionId
  }

  function NewRecord(request: RequestId, peer: Peer, name: string, permissions: Scopes, now: int): Device {
    Device(peer.deviceId, peer.spki, peer.certificate, name, name, permissions, now, now, false,
           Pending, request)
  }

  function Prepare(t: Trust, request: RequestId, peer: Peer, name: string, permissions: Scopes,
                   now: int, saveOk: bool): (Trust, bool)
  {
    if request == 0 || !peer.valid || ViewScreen !in permissions || t.transactionId != 0 then (t, false)
    else if saveOk then
      var devices := t.devices + [NewRecord(request, peer, name, permissions, now)];
      (Trust(devices, t.devices, request, peer.deviceId, devices), true)
    else (t.(before := [], transactionDevice := 0), false)
  }

  /** The first record that carries the transaction id, otherwise -1. */
  function FindTransaction(ds: seq<Device>, request: RequestId): (r: int)
    ensures -1 <= r < |ds|
    ensures r >= 0 ==> ds[r].transactionId == request
    ensures forall k :: 0 <= k < (if r < 0 then |ds| else r) ==> ds[k].transactionId != request
  {
    if ds == [] then -1
    else if ds[0].transactionId == request then 0
    else
      var rest := FindTransaction(ds[1..], request);
      if rest < 0 then -1 else rest + 1
  }

  function CommittedRecord(d: Device, name: string, certificate: Digest, now: int, state: CommitState): Device {
    d.(advertisedName := name, certificate := certificate, lastAuthenticatedAt := now, commitState := state)
  }

  function Commit(t: Trust, request: RequestId, name: string, certificate: Digest, now: int,
                  saveOk: bool): (Trust, bool)
  {
    var k := FindTransaction(t.devices, request);
    if !HasTransaction(t, request) || k < 0 || !t.devices[k].commitState.Pending? then (t, false)
    else
      var devices := t.devices[k := CommittedRecord(t.devices[k], name, certificate, now, Mutual)];
      if saveOk then (t.(devices := devices, disk := devices), true)
      else (t.(devices := devices[k := devices[k].(commitState := Pending)]), false)
  }

  function Rollback(t: Trust, request: RequestId, saveOk: bool): (Trust, bool) {
    if !HasTransaction(t, request) then (t, true)
    else if saveOk then (Trust(t.before, [], 0, 0, t.before), true)
    else (t, false)
  }

  function UpdateAuthenticated(t: Trust, id: DeviceId, name: string, certificate: Digest, now: int,
                               saveOk: bool): (Trust, bool)
  {
    var k := Find(t.devices, id);
    if k < 0 || !saveOk then (t, false)
    else
      var d := t.devices[k];
      var devices := t.devices[k := d.(advertisedName := name, certificate := certificate,
                                       lastAuthenticatedAt := now)];
      (t.(devices := devices, disk := devices), true)
  }

  /** What completion keeps: the other devices' records and the transaction's own. */
  function Kept(ds: seq<Device>, id: DeviceId, request: RequestId): (r: seq<Device>)
    ensures |r| <= |ds|
    ensures |r| == |ds| ==> r == ds
  {
    if ds == [] then []
    else if ds[0].deviceId == id && ds[0].transactionId != request then Kept(ds[1..], id, request)
    else [ds[0]] + Kept(ds[1..], id, request)
  }

  function Complete(t: Trust, request: RequestId, saveOk: bool): (Trust, bool) {
    if !HasTransaction(t, request) then (t, true)
    else
      var kept := Kept(t.devices, t.transactionDevice, request);
      if |kept| == |t.devices| then (Trust(t.devices, [], 0, 0, t.disk), true)
      else if saveOk then (Trust(kept, [], 0, 0, kept), true)
      else (Trust(kept, [], 0, 0, t.disk), false)
  }

  /** Completion had superseded records to remove, and the file took the result. */
  predicate CleanupSaves(t: Trust, request: RequestId, saveOk: bool) {
    HasTransaction(t, request) && |Kept(t.devices, t.transactionDevice, request)| != |t.devices| && saveOk
  }

  // ---------- the service ----------

  class TrustedDeviceService {
    var devices: seq<Device>
    var beforeTransaction: seq<Device>
    var transactionId: RequestId
    var transactionDevice: DeviceId
    /** The store behind m_pStore: what its file holds. */
    var disk: seq<Device>

    constructor (content: seq<Device>)
      ensures View() == Trust([], [], 0, 0, content)
    {
      devices, beforeTransaction, transactionId, transactionDevice, disk := [], [], 0, 0, content;
    }

    function View(): Trust
      reads this
    {
      Trust(devices, beforeTransaction, transactionId, transactionDevice, disk)
    }

    method SaveCurrent(saveOk: bool) returns (ok: bool)
      modifies this`disk
      ensures ok == saveOk && disk == if saveOk then devices else old(disk)
    {
      if saveOk {
        disk := devices;
      }
      ok := saveOk;
    }

    method LoadDevices(readOk: bool, saveOk: bool) returns (ok: bool)
      modifies this
      ensures (View(), ok) == Load(old(View()), readOk, saveOk)
    {
      if !readOk {
        return false;
      }
      var confirmed := RemovePending(disk);
      var oldest := OldestByDevice(confirmed);
      var list := RemoveSuperseded(confirmed, oldest);
      SurvivorsLength(confirmed, 0);
      if |list| != |disk| {
        if !saveOk {
          return false;
        }
        disk := list;
      }
      devices, beforeTransaction, transactionId, transactionDevice := list, [], 0, 0;
      ok := true;
    }

    method FindDevice(id: DeviceId) returns (r: int)
      ensures r == Find(devices, id)
    {
      var pending := -1;
      for i := 0 to |devices|
        invariant -1 <= pending < |devices|
        invariant FindFrom(devices, id, i, pending) == Find(devices, id)
      {
        if devices[i].deviceId == id {
          if devices[i].commitState.Mutual? {
            return i;
          }
          pending := i;
        }
      }
      r := pending;
    }

    method GetMutualCommitId(id: DeviceId, spki: Digest) returns (r: RequestId)
      ensures r == MutualCommitId(devices, id, spki)
    {
      var k := FindDevice(id);
      r := if k < 0 || !devices[k].commitState.Mutual? || devices[k].spki != spki then 0
           else devices[k].transactionId;
    }

    method GetMutuallyTrusted(id: DeviceId, spki: Digest, peerCommitId: RequestId) returns (r: bool)
      ensures r == IsMutuallyTrusted(devices, id, spki, peerCommitId)
    {
      var own := GetMutualCommitId(id, spki);
      r := own != 0 && own == peerCommitId;
    }

    method PrepareRecord(request: RequestId, peer: Peer, name: string, permissions: Scopes, now: int,
                         saveOk: bool)
      returns (ok: bool)
      modifies this
      ensures (View(), ok) == Prepare(old(View()), request, peer, name, permissions, now, saveOk)
    {
      if request == 0 || !peer.valid || ViewScreen !in permissions || transactionId != 0 {
        return false;
      }
      beforeTransaction, transactionId, transactionDevice := devices, request, peer.deviceId;
      devices := devices + [NewRecord(request, peer, name, permissions, now)];
      ok := SaveCurrent(saveOk);
      if !ok {
        devices, beforeTransaction, transactionId, transactionDevice := beforeTransaction, [], 0, 0;
      }
    }

    method FindTransactionIndex(request: RequestId) returns (r: int)
      ensures r == FindTransaction(devices, request)
    {
      for i := 0 to |devices|
        invariant forall k :: 0 <= k < i ==> devices[k].transactionId != request
      {
        if devices[i].transactionId == request {
          return i;
        }
      }
      r := -1;
    }

    method CommitRecord(request: RequestId, name: string, certificate: Digest, now: int, saveOk: bool)
      returns (ok: bool)
      modifies this
      ensures (View(), ok) == Commit(old(View()), request, name, certificate, now, saveOk)
    {
      if !(transactionId != 0 && request == transactionId) {
        return false;
      }
      var k := FindTransactionIndex(request);
      if k < 0 || !devices[k].commitState.Pending? {
        return false;
      }
      devices := devices[k := CommittedRecord(devices[k], name, certificate, now, Mutual)];
      ok := SaveCurrent(saveOk);
      if !ok {
        devices := devices[k := devices[k].(commitState := Pending)];
      }
    }

    method RollbackTransaction(request: RequestId, saveOk: bool) returns (ok: bool)
      modifies this
      ensures (View(), ok) == Rollback(old(View()), request, saveOk)
    {
      if !(transactionId != 0 && request == transactionId) {
        return true;
      }
      var failedState := devices;
      devices := beforeTransaction;
      ok := SaveCurrent(saveOk);
      if !ok {
        devices := failedState;
        return;
      }
      beforeTransaction, transactionId, transactionDevice := [], 0, 0;
    }

    method UpdateAuthenticatedDevice(id: DeviceId, name: string, certificate: Digest, now: int, saveOk: bool)
      returns (ok: bool)
      modifies this
      ensures (View(), ok) == UpdateAuthenticated(old(View()), id, name, certificate, now, saveOk)
    {
      var k := FindDevice(id);
      if k < 0 {
        return false;
      }
      var previous := devices;
      devices := devices[k := devices[k].(advertisedName := name, certificate := certificate,
                                          lastAuthenticatedAt := now)];
      ok := SaveCurrent(saveOk);
      if !ok {
        devices := previous;
      }
    }

    method CompleteTransaction(request: RequestId, saveOk: bool) returns (ok: bool)
      modifies this
      ensures (View(), ok) == Complete(old(View()), request, saveOk)
    {
      if !(transactionId != 0 && request == transactionId) {
        return true;
      }
      var completed := KeptRecords(devices, transactionDevice, request);
      var cleanupRequired := |completed| != |devices|;
      if cleanupRequired {
        devices := completed;
      }
      beforeTransaction, transactionId, transactionDevice := [], 0, 0;
      if !cleanupRequired {
        return true;
      }
      ok := SaveCurrent(saveOk);
    }
  }

  /** The loop of `complete` over the current records. */
  method KeptRecords(ds: seq<Device>, id: DeviceId, request: RequestId) returns (completed: seq<Device>)
    ensures completed == Kept(ds, id, request)
  {
    completed := [];
    for i := 0 to |ds|
      invariant completed + Kept(ds[i..], id, request) == Kept(ds, id, request)
    {
      KeptStep(ds, i, id, request);
      if !(ds[i].deviceId == id && ds[i].transactionId != request) {
        completed := completed + [ds[i]];
      }
    }
  }

  /** Of the transaction's device only the transaction's record stays. */
  lemma {:induction false} KeptMembers(ds: seq<Device>, id: DeviceId, request: RequestId)
    ensures forall d :: d in Kept(ds, id, request) <==> d in ds && (d.deviceId != id || d.transactionId == request)
  {
    if ds != [] {
      KeptMembers(ds[1..], id, request);
      assert ds == [ds[0]] + ds[1..];
    }
  }

  lemma KeptStep(ds: seq<Device>, i: nat, id: DeviceId, request: RequestId)
    requires i < |ds|
    ensures Kept(ds[i..], id, request)
         == if ds[i].deviceId == id && ds[i].transactionId != request then Kept(ds[i + 1..], id, request)
            else [ds[i]] + Kept(ds[i + 1..], id, request)
  {
    assert ds[i..][1..] == ds[i + 1..];
  }

  /** The first loop of `load`: Pending records are removed in place, last to first. */
  method RemovePending(ds: seq<Device>) returns (list: seq<Device>)
    ensures list == Confirmed(ds)
  {
    list := ds;
    var n := |list|;
    while n > 0
      invariant 0 <= n <= |ds|
      invariant list == ds[..n] + Confirmed(ds[n..])
    {
      n := n - 1;
      assert ds[n..][1..] == ds[n + 1..];
      TakeNext(ds, n, Confirmed(ds[n + 1..]));
      if list[n].commitState.Pending? {
        list := list[..n] + list[n + 1..];
      }
    }
    assert ds[0..] == ds;
  }

  /** The last loop of `load`: records other than their device's oldest are removed in place. */
  method RemoveSuperseded(ds: seq<Device>, oldest: map<DeviceId, nat>) returns (list: seq<Device>)
    requires OldestTable(ds, oldest, |ds|)
    ensures list == Survivors(ds, 0)
  {
    list := ds;
    var n := |list|;
    while n > 0
      invariant 0 <= n <= |ds|
      invariant list == ds[..n] + Survivors(ds, n)
      invariant OldestTable(ds, oldest, n)
    {
      n := n - 1;
      TakeNext(ds, n, Survivors(ds, n + 1));
      TableStep(ds, n, oldest);
      if oldest[list[n].deviceId] != n {
        list := list[..n] + list[n + 1..];
      }
    }
  }

  lemma TakeNext(ds: seq<Device>, n: nat, rest: seq<Device>)
    requires n < |ds|
    ensures var list := ds[..n + 1] + rest;
            list[n] == ds[n] && list[..n] + list[n + 1..] == ds[..n] + rest && list == ds[..n] + ([ds[n]] + rest)
  {
  }

  /** The table gives, for the first n records, the index of their device's oldest record. */
  ghost predicate OldestTable(ds: seq<Device>, oldest: map<DeviceId, nat>, n: nat)
    requires n <= |ds|
    decreases n
  {
    n > 0 ==>
      && OldestTable(ds, oldest, n - 1)
      && ds[n - 1].deviceId in oldest
      && (oldest[ds[n - 1].deviceId] == n - 1 <==> Survives(ds, n - 1))
  }

  lemma TableStep(ds: seq<Device>, n: nat, oldest: map<DeviceId, nat>)
    requires n < |ds| && OldestTable(ds, oldest, n + 1)
    ensures OldestTable(ds, oldest, n) && ds[n].deviceId in oldest
    ensures Survivors(ds, n) == if oldest[ds[n].deviceId] == n then [ds[n]] + Survivors(ds, n + 1)
                                else Survivors(ds, n + 1)
  {
  }

  /** The scan has seen the first n records: the table has their devices, each with its oldest. */
  ghost predicate Scanned(ds: seq<Device>, oldest: map<DeviceId, nat>, n: nat)
    requires n <= |ds|
  {
    && (forall j :: 0 <= j < n ==> ds[j].deviceId in oldest)
    && (forall id :: id in oldest ==>
          && oldest[id] < n && ds[oldest[id]].deviceId == id
          && (forall j :: 0 <= j < n && j != oldest[id] && ds[j].deviceId == id ==>
                if j < oldest[id] then Older(ds[oldest[id]], ds[j]) else !Older(ds[j], ds[oldest[id]])))
  }

  lemma {:induction false} ScannedTable(ds: seq<Device>, oldest: map<DeviceId, nat>, n: nat)
    requires n <= |ds| && Scanned(ds, oldest, |ds|)
    ensures OldestTable(ds, oldest, n)
    decreases n
  {
    if n > 0 {
      ScannedTable(ds, oldest, n - 1);
      ScannedEntry(ds, oldest, n - 1);
    }
  }

  lemma ScannedEntry(ds: seq<Device>, oldest: map<DeviceId, nat>, i: nat)
    requires i < |ds| && Scanned(ds, oldest, |ds|)
    ensures ds[i].deviceId in oldest && (oldest[ds[i].deviceId] == i <==> Survives(ds, i))
  {
  }

  /** The hash built by the scan of `load`: the index of each device's oldest record. */
  method OldestByDevice(ds: seq<Device>) returns (oldest: map<DeviceId, nat>)
    ensures OldestTable(ds, oldest, |ds|)
  {
    oldest := map[];
    for i := 0 to |ds|
      invariant Scanned(ds, oldest, i)
    {
      var id := ds[i].deviceId;
      if id !in oldest || Older(ds[i], ds[oldest[id]]) {
        oldest := oldest[id := i];
      }
    }
    ScannedTable(ds, oldest, |ds|);
  }

  lemma SurvivorsLength(ds: seq<Device>, from: nat)
    requires from <= |ds|
    ensures |Survivors(ds, from)| <= |ds| - from
    ensures |Survivors(ds, from)| == |ds| - from ==> Survivors(ds, from) == ds[from..]
    decreases |ds| - from
  {
    if from < |ds| {
      SurvivorsLength(ds, from + 1);
    }
  }
}
