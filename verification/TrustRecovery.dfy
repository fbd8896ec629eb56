/** What the trust store guarantees across a pairing transaction: recovery after a crash at
    any save, and rollback and completion as inverses of preparation. */
module TrustRecovery {
  import opened PairingTypes
  import opened TrustedDevices

  ghost predicate OnePerDevice(ds: seq<Device>) {
    forall i, j :: 0 <= i < j < |ds| ==> ds[i].deviceId != ds[j].deviceId
  }

  /** The shape recovery establishes: only Mutual records, one for each device. */
  ghost predicate Canonical(ds: seq<Device>) {
    OnePerDevice(ds) && forall d :: d in ds ==> d.commitState.Mutual?
  }

  /** A service between transactions, as a successful load leaves it. */
  ghost predicate Idle(t: Trust) {
    && Canonical(t.devices)
    && t.disk == t.devices
    && t.before == []
    && t.transactionId == 0
    && t.transactionDevice == 0
  }

  ghost predicate Fresh(ds: seq<Device>, request: RequestId) {
    forall d :: d in ds ==> d.transactionId != request
  }

  predicate Subsequence<T(==)>(a: seq<T>, b: seq<T>) {
    if a == [] then true
    else if b == [] then false
    else if a[0] == b[0] then Subsequence(a[1..], b[1..])
    else Subsequence(a, b[1..])
  }

  function Without(ds: seq<Device>, id: DeviceId): seq<Device> {
    if ds == [] then []
    else if ds[0].deviceId == id then Without(ds[1..], id)
    else [ds[0]] + Without(ds[1..], id)
  }

  // ---------- what recovery returns ----------

  lemma {:induction false} ConfirmedMembers(ds: seq<Device>)
    ensures forall d :: d in Confirmed(ds) <==> d in ds && d.commitState.Mutual?
    ensures (forall d :: d in ds ==> d.commitState.Mutual?) ==> Confirmed(ds) == ds
  {
    if ds != [] {
      ConfirmedMembers(ds[1..]);
      assert ds == [ds[0]] + ds[1..];
    }
  }

  lemma {:induction false} ConfirmedAppend(a: seq<Device>, b: seq<Device>)
    ensures Confirmed(a + b) == Confirmed(a) + Confirmed(b)
  {
    if a == [] {
      assert a + b == b;
    } else {
      assert (a + b)[1..] == a[1..] + b;
      ConfirmedAppend(a[1..], b);
    }
  }

  lemma {:induction false} SurvivorMembers(ds: seq<Device>, from: nat)
    requires from <= |ds|
    ensures forall d :: d in Survivors(ds, from) <==> exists i :: from <= i < |ds| && Survives(ds, i) && ds[i] == d
    decreases |ds| - from
  {
    if from < |ds| {
      SurvivorMembers(ds, from + 1);
    }
  }

  lemma {:induction false} SurvivorsUnique(ds: seq<Device>, from: nat)
    requires from <= |ds|
    ensures OnePerDevice(Survivors(ds, from))
    decreases |ds| - from
  {
    if from < |ds| {
      SurvivorsUnique(ds, from + 1);
      var rest := Survivors(ds, from + 1);
      if Survives(ds, from) {
        forall k | 0 <= k < |rest| ensures rest[k].deviceId != ds[from].deviceId {
          SurvivorMembers(ds, from + 1);
          assert rest[k] in rest;
        }
      }
    }
  }

  /** Every device has a surviving record no younger than any of its records. */
  lemma SomeSurvivor(ds: seq<Device>, i: nat)
    requires i < |ds|
    ensures exists m :: 0 <= m < |ds| && Survives(ds, m) && ds[m].deviceId == ds[i].deviceId
  {
    var id := ds[i].deviceId;
    var best := i;
    for n := 0 to |ds|
      invariant 0 <= best < |ds| && ds[best].deviceId == id
      invariant best < n || best == i
      invariant forall j :: 0 <= j < n && j != best && ds[j].deviceId == id ==>
        if j < best then Older(ds[best], ds[j]) else !Older(ds[j], ds[best])
    {
      if ds[n].deviceId == id && n != best {
        if best < n && Older(ds[n], ds[best]) {
          best := n;
        } else if n < best && !Older(ds[best], ds[n]) {
          best := n;
        }
      }
    }
    assert Survives(ds, best);
  }

  lemma {:induction false} SubsequenceSkip<T>(a: seq<T>, b: seq<T>)
    requires b != [] && Subsequence(a, b[1..])
    ensures Subsequence(a, b)
  {
    if a != [] && a[0] == b[0] {
      SubsequenceTail(a, b[1..]);
    }
  }

  lemma {:induction false} SubsequenceTail<T>(a: seq<T>, b: seq<T>)
    requires a != [] && Subsequence(a, b)
    ensures Subsequence(a[1..], b)
  {
    if a[0] == b[0] {
      SubsequenceSkip(a[1..], b);
    } else {
      SubsequenceTail(a, b[1..]);
      SubsequenceSkip(a[1..], b);
    }
  }

  lemma {:induction false} SubsequenceTransitive<T>(a: seq<T>, b: seq<T>, c: seq<T>)
    requires Subsequence(a, b) && Subsequence(b, c)
    ensures Subsequence(a, c)
    decreases |c|
  {
    if a != [] {
      if b[0] != c[0] {
        SubsequenceTransitive(a, b, c[1..]);
        SubsequenceSkip(a, c);
      } else if a[0] == b[0] {
        SubsequenceTransitive(a[1..], b[1..], c[1..]);
      } else {
        SubsequenceTransitive(a, b[1..], c[1..]);
        SubsequenceSkip(a, c);
      }
    }
  }

  lemma {:induction false} ConfirmedSubsequence(ds: seq<Device>)
    ensures Subsequence(Confirmed(ds), ds)
  {
    if ds != [] {
      ConfirmedSubsequence(ds[1..]);
      if ds[0].commitState.Pending? {
        SubsequenceSkip(Confirmed(ds[1..]), ds);
      }
    }
  }

  lemma {:induction false} SurvivorsSubsequence(ds: seq<Device>, from: nat)
    requires from <= |ds|
    ensures Subsequence(Survivors(ds, from), ds[from..])
    decreases |ds| - from
  {
    if from < |ds| {
      SurvivorsSubsequence(ds, from + 1);
      assert ds[from..][1..] == ds[from + 1..];
      if !Survives(ds, from) {
        SubsequenceSkip(Survivors(ds, from + 1), ds[from..]);
      }
    }
  }

  /** Recovery keeps the file's order. */
  lemma RecoverKeepsOrder(ds: seq<Device>)
    ensures Subsequence(Recover(ds), ds)
  {
    var c := Confirmed(ds);
    ConfirmedSubsequence(ds);
    SurvivorsSubsequence(c, 0);
    assert c[0..] == c;
    SubsequenceTransitive(Recover(ds), c, ds);
  }

  /** Recovery keeps only Mutual records of the file, one for each device. */
  lemma RecoverIsCanonical(ds: seq<Device>)
    ensures Canonical(Recover(ds))
    ensures forall d :: d in Recover(ds) ==> d in ds
  {
    var c := Confirmed(ds);
    ConfirmedMembers(ds);
    SurvivorsUnique(c, 0);
    SurvivorMembers(c, 0);
  }

  /** A recovered record is the least of its device by (paired time, transaction id). */
  lemma RecoverKeepsOldest(ds: seq<Device>, d: Device, other: Device)
    requires d in Recover(ds)
    requires other in ds && other.commitState.Mutual? && other.deviceId == d.deviceId
    ensures !Older(other, d)
  {
    var c := Confirmed(ds);
    ConfirmedMembers(ds);
    SurvivorMembers(c, 0);
    var i :| 0 <= i < |c| && Survives(c, i) && c[i] == d;
    assert other in c;
    var j :| 0 <= j < |c| && c[j] == other;
    SurvivorIsOldest(c, i, j);
  }

  lemma SurvivorIsOldest(ds: seq<Device>, i: nat, j: nat)
    requires i < |ds| && j < |ds| && Survives(ds, i) && ds[i].deviceId == ds[j].deviceId
    ensures !Older(ds[j], ds[i])
  {
  }

  /** No device with a Mutual record in the file is lost. */
  lemma RecoverCovers(ds: seq<Device>, d: Device)
    requires d in ds && d.commitState.Mutual?
    ensures exists kept :: kept in Recover(ds) && kept.deviceId == d.deviceId
  {
    var c := Confirmed(ds);
    ConfirmedMembers(ds);
    SurvivorMembers(c, 0);
    assert d in c;
    var i :| 0 <= i < |c| && c[i] == d;
    SomeSurvivor(c, i);
    var m :| 0 <= m < |c| && Survives(c, m) && c[m].deviceId == d.deviceId;
    assert c[m] in Recover(ds);
  }

  lemma {:induction false} AllSurvive(ds: seq<Device>, from: nat)
    requires from <= |ds|
    requires forall i :: from <= i < |ds| ==> Survives(ds, i)
    ensures Survivors(ds, from) == ds[from..]
    decreases |ds| - from
  {
    if from < |ds| {
      AllSurvive(ds, from + 1);
    }
  }

  /** The fixed points of recovery are exactly the canonical stores, and one pass suffices. */
  lemma RecoverFixedPoint(ds: seq<Device>)
    ensures Recover(ds) == ds <==> Canonical(ds)
    ensures Recover(Recover(ds)) == Recover(ds)
  {
    RecoverIsCanonical(ds);
    CanonicalFixed(Recover(ds));
    if Canonical(ds) {
      CanonicalFixed(ds);
    }
  }

  lemma CanonicalFixed(ds: seq<Device>)
    requires Canonical(ds)
    ensures Recover(ds) == ds
  {
    ConfirmedMembers(ds);
    AllSurvive(ds, 0);
  }

  // ---------- a crash inside a pairing transaction ----------

  /** The store already holds a record of the device that the new one does not precede. */
  predicate Refused(ds: seq<Device>, d: Device) {
    exists prior :: prior in ds && prior.deviceId == d.deviceId && !Older(d, prior)
  }

  /** What a load makes of a canonical store followed by one new Mutual record. */
  function Place(ds: seq<Device>, d: Device): seq<Device> {
    if Refused(ds, d) then ds else Without(ds, d.deviceId) + [d]
  }

  lemma NewestSurvives(ds: seq<Device>, d: Device)
    ensures Survives(ds + [d], |ds|) <==> !Refused(ds, d)
  {
    var all := ds + [d];
    if Refused(ds, d) {
      var prior :| prior in ds && prior.deviceId == d.deviceId && !Older(d, prior);
      var i :| 0 <= i < |ds| && ds[i] == prior;
      assert all[i] == prior;
    } else {
      forall j | 0 <= j < |ds| && all[j].deviceId == d.deviceId ensures Older(d, all[j]) {
        assert all[j] in ds;
      }
    }
  }

  lemma PriorSurvives(ds: seq<Device>, d: Device, i: nat)
    requires i < |ds| && OnePerDevice(ds)
    ensures Survives(ds + [d], i) <==> ds[i].deviceId != d.deviceId || Refused(ds, d)
  {
    var all := ds + [d];
    assert all[i] == ds[i] && all[|ds|] == d;
    assert forall j :: 0 <= j < |ds| && j != i ==> all[j].deviceId != all[i].deviceId;
    if ds[i].deviceId == d.deviceId {
      assert ds[i] in ds;
      forall prior | prior in ds && prior.deviceId == d.deviceId ensures prior == ds[i] {}
      assert Refused(ds, d) <==> !Older(d, ds[i]);
    }
  }

  lemma {:induction false} SurvivorsWithNewest(ds: seq<Device>, d: Device, from: nat)
    requires from <= |ds| && OnePerDevice(ds)
    ensures Survivors(ds + [d], from)
         == if Refused(ds, d) then ds[from..] else Without(ds[from..], d.deviceId) + [d]
    decreases |ds| - from
  {
    var all := ds + [d];
    if from == |ds| {
      assert Survivors(all, |ds| + 1) == [];
      NewestSurvives(ds, d);
    } else {
      SurvivorsWithNewest(ds, d, from + 1);
      assert ds[from..] == [ds[from]] + ds[from + 1..];
      assert ds[from..][1..] == ds[from + 1..];
      PriorSurvives(ds, d, from);
    }
  }

  lemma RecoverAfterAppend(ds: seq<Device>, d: Device)
    requires Canonical(ds)
    ensures Recover(ds + [d]) == if d.commitState.Pending? then ds else Place(ds, d)
  {
    ConfirmedAppend(ds, [d]);
    ConfirmedMembers(ds);
    CanonicalFixed(ds);
    if d.commitState.Mutual? {
      assert Confirmed([d]) == [d];
      SurvivorsWithNewest(ds, d, 0);
      assert ds[0..] == ds;
    } else {
      assert Confirmed([d]) == [];
      assert Confirmed(ds + [d]) == ds;
    }
  }

  lemma {:induction false} FindTransactionAppend(ds: seq<Device>, d: Device)
    requires Fresh(ds, d.transactionId)
    ensures FindTransaction(ds + [d], d.transactionId) == |ds|
  {
    assert (ds + [d])[|ds|] == d;
    assert forall k :: 0 <= k < |ds| ==> (ds + [d])[k] in ds;
  }

  lemma {:induction false} KeptAfterAppend(ds: seq<Device>, d: Device)
    requires Fresh(ds, d.transactionId)
    ensures Kept(ds + [d], d.deviceId, d.transactionId) == Without(ds, d.deviceId) + [d]
  {
    if ds == [] {
      assert [d][1..] == [];
    } else {
      assert (ds + [d])[1..] == ds[1..] + [d];
      assert ds[0] in ds;
      KeptAfterAppend(ds[1..], d);
    }
  }

  /** A transaction's saves on an idle service, in closed form. */
  lemma TransactionSteps(t: Trust, request: RequestId, peer: Peer, name: string, permissions: Scopes,
                         now: int, name': string, certificate: Digest, now': int)
    requires Idle(t) && Fresh(t.devices, request)
    requires request != 0 && peer.valid && ViewScreen in permissions
    ensures var prepared := t.devices + [NewRecord(request, peer, name, permissions, now)];
            Prepare(t, request, peer, name, permissions, now, true)
            == (Trust(prepared, t.devices, request, peer.deviceId, prepared), true)
    ensures var pending := NewRecord(request, peer, name, permissions, now);
            var committed := t.devices + [CommittedRecord(pending, name', certificate, now', Mutual)];
            Commit(Prepare(t, request, peer, name, permissions, now, true).0, request, name', certificate,
                   now', true)
            == (Trust(committed, t.devices, request, peer.deviceId, committed), true)
  {
    var pending := NewRecord(request, peer, name, permissions, now);
    FindTransactionAppend(t.devices, pending);
    var prepared := t.devices + [pending];
    var committed := CommittedRecord(pending, name', certificate, now', Mutual);
    assert prepared[|t.devices| := committed] == t.devices + [committed];
  }

  /** A crash after the Pending save loses the pairing; a crash after the Mutual save keeps the
      older record of the device if there is one, and the new record otherwise. Completion whose
      cleanup save fails leaves the file in that same second state. */
  lemma CrashRecovery(t: Trust, request: RequestId, peer: Peer, name: string, permissions: Scopes,
                      now: int, name': string, certificate: Digest, now': int)
    requires Idle(t) && Fresh(t.devices, request)
    requires request != 0 && peer.valid && ViewScreen in permissions
    ensures var prepared := Prepare(t, request, peer, name, permissions, now, true).0;
            var committed := Commit(prepared, request, name', certificate, now', true).0;
            var record := CommittedRecord(NewRecord(request, peer, name, permissions, now),
                                          name', certificate, now', Mutual);
            && Recover(prepared.disk) == t.devices
            && Complete(committed, request, false).0.disk == committed.disk
            && (forall prior :: prior in t.devices && prior.deviceId == peer.deviceId ==>
                  (Recover(committed.disk) == t.devices <==> !Older(record, prior)))
            && (forall prior :: prior in t.devices && prior.deviceId == peer.deviceId && prior.pairedAt < now ==>
                  Recover(committed.disk) == t.devices)
            && ((forall prior :: prior in t.devices ==> prior.deviceId != peer.deviceId) ==>
                  Recover(committed.disk) == t.devices + [record])
  {
    TransactionSteps(t, request, peer, name, permissions, now, name', certificate, now');
    var pending := NewRecord(request, peer, name, permissions, now);
    var record := CommittedRecord(pending, name', certificate, now', Mutual);
    RecoverAfterAppend(t.devices, pending);
    RecoverAfterAppend(t.devices, record);
    WithoutAbsent(t.devices, peer.deviceId);
    forall prior | prior in t.devices && prior.deviceId == peer.deviceId
      ensures Recover(t.devices + [record]) == t.devices <==> !Older(record, prior)
    {
      if Older(record, prior) {
        forall other | other in t.devices && other.deviceId == peer.deviceId ensures other == prior {}
        assert record in Place(t.devices, record);
        assert record !in t.devices;
      }
    }
  }

  lemma {:induction false} WithoutAbsent(ds: seq<Device>, id: DeviceId)
    ensures (forall d :: d in ds ==> d.deviceId != id) ==> Without(ds, id) == ds
    ensures forall d :: d in Without(ds, id) <==> d in ds && d.deviceId != id
  {
    if ds != [] {
      WithoutAbsent(ds[1..], id);
      assert ds == [ds[0]] + ds[1..];
    }
  }

  // ---------- rollback and completion ----------

  /** Rollback undoes preparation, and preparation followed by commit, in memory and on disk. */
  lemma RollbackRestores(t: Trust, request: RequestId, peer: Peer, name: string, permissions: Scopes,
                         now: int, name': string, certificate: Digest, now': int)
    requires Idle(t) && Fresh(t.devices, request)
    requires request != 0 && peer.valid && ViewScreen in permissions
    ensures var prepared := Prepare(t, request, peer, name, permissions, now, true).0;
            && Rollback(prepared, request, true) == (t, true)
            && Rollback(Commit(prepared, request, name', certificate, now', true).0, request, true) == (t, true)
            && Rollback(Commit(prepared, request, name', certificate, now', false).0, request, true) == (t, true)
  {
    TransactionSteps(t, request, peer, name, permissions, now, name', certificate, now');
  }

  /** A completed transaction leaves one record of the device, the new Mutual one, leaves every
      other record where it was, is stable under load, and is what the next session's Hello
      announces. */
  lemma CompletionLeavesOneRecord(t: Trust, request: RequestId, peer: Peer, name: string,
                                  permissions: Scopes, now: int, name': string, certificate: Digest, now': int)
    requires Idle(t) && Fresh(t.devices, request)
    requires request != 0 && peer.valid && ViewScreen in permissions
    ensures var prepared := Prepare(t, request, peer, name, permissions, now, true).0;
            var committed := Commit(prepared, request, name', certificate, now', true).0;
            var done := Complete(committed, request, true).0;
            var record := CommittedRecord(NewRecord(request, peer, name, permissions, now),
                                          name', certificate, now', Mutual);
            && done.devices == Without(t.devices, peer.deviceId) + [record]
            && Idle(done)
            && Load(done, true, false) == (done, true)
            && MutualCommitId(done.devices, peer.deviceId, peer.spki) == request
  {
    TransactionSteps(t, request, peer, name, permissions, now, name', certificate, now');
    var record := CommittedRecord(NewRecord(request, peer, name, permissions, now),
                                  name', certificate, now', Mutual);
    KeptAfterAppend(t.devices, record);
    WithoutLength(t.devices, peer.deviceId);
    ReplacedIsCanonical(t.devices, record);
    CanonicalFixed(Without(t.devices, peer.deviceId) + [record]);
  }

  lemma ReplacedIsCanonical(ds: seq<Device>, d: Device)
    requires Canonical(ds) && d.commitState.Mutual?
    ensures Canonical(Without(ds, d.deviceId) + [d])
    ensures MutualCommitId(Without(ds, d.deviceId) + [d], d.deviceId, d.spki) == d.transactionId
  {
    var rest := Without(ds, d.deviceId);
    WithoutAbsent(ds, d.deviceId);
    WithoutUnique(ds, d.deviceId);
    forall k | 0 <= k < |rest| ensures (rest + [d])[k].deviceId != d.deviceId {
      assert rest[k] in rest;
    }
    FindLast(rest + [d], d.deviceId, 0, -1);
  }

  lemma {:induction false} WithoutLength(ds: seq<Device>, id: DeviceId)
    ensures |Without(ds, id)| <= |ds|
    ensures |Without(ds, id)| == |ds| ==> Without(ds, id) == ds
  {
    if ds != [] {
      WithoutLength(ds[1..], id);
      assert ds == [ds[0]] + ds[1..];
    }
  }

  lemma {:induction false} WithoutUnique(ds: seq<Device>, id: DeviceId)
    requires OnePerDevice(ds)
    ensures OnePerDevice(Without(ds, id))
  {
    if ds != [] {
      WithoutUnique(ds[1..], id);
      WithoutAbsent(ds[1..], id);
      var rest := Without(ds[1..], id);
      forall k | 0 <= k < |rest| ensures rest[k].deviceId != ds[0].deviceId {
        assert rest[k] in rest;
      }
    }
  }

  lemma {:induction false} FindLast(ds: seq<Device>, id: DeviceId, from: nat, pending: int)
    requires from < |ds| && -1 <= pending < |ds|
    requires ds[|ds| - 1].deviceId == id && ds[|ds| - 1].commitState.Mutual?
    requires forall k :: from <= k < |ds| - 1 ==> ds[k].deviceId != id
    ensures FindFrom(ds, id, from, pending) == |ds| - 1
    decreases |ds| - from
  {
    if from < |ds| - 1 {
      FindLast(ds, id, from + 1, pending);
    }
  }
}
