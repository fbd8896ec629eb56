/** Progress of a pairing without faults: two endpoints over FIFO channels, saves that succeed, users
    who accept and stored records that do not stand in the way. Every delivery and every answer is
    a step forward, and when nothing is in flight and no prompt is open both sides have completed. */
module PairingProgress {
  import opened Wrappers
  import opened PairingTypes
  import opened TrustedDevices
  import opened PairingTransactions
  import opened AuthenticationFlow

  // ---------- what an endpoint has sent ----------

  /** The messages of an endpoint for a request, in order; replays are not originals, and a rejection
      is not part of the exchange. */
  function Originated(h: seq<Event>, p: Party, r: RequestId): seq<Message> {
    if h == [] then []
    else
      var e := h[|h| - 1];
      var rest := Originated(h[..|h| - 1], p, r);
      if IsOriginal(e, p, r) then rest + [e.effect.message] else rest
  }

  predicate IsOriginal(e: Event, p: Party, r: RequestId) {
    e.Of? && e.party == p && e.effect.Sent? && !e.effect.message.Rejected? && e.effect.message.requestId == r
  }

  /** What the endpoint has sent in its session. */
  function Sends(f: Flow): seq<Message> { Originated(f.history, f.self, f.requestId) }

  /** Nothing has been sent for the request. */
  predicate Unsent(f: Flow, r: RequestId) { Originated(f.history, f.self, r) == [] }

  lemma LogSends(f: Flow, e: Effect)
    ensures Sends(Log(f, e)) == Sends(f) + (if IsOriginal(Of(f.self, e), f.self, f.requestId) then [e.message] else [])
    ensures forall r :: !IsOriginal(Of(f.self, e), f.self, r) && Unsent(f, r) ==> Unsent(Log(f, e), r)
  {
    assert (f.history + [Of(f.self, e)])[..|f.history|] == f.history;
  }

  // ---------- the phases ----------

  /** The progress bits of an endpoint that has sent l of its four messages and taken r. */
  function Flags(l: nat, r: nat): set<Flag> {
    (if l >= 1 then {HelloSent} else {}) + (if r >= 1 then {HelloReceived} else {})
    + (if l >= 2 then {LocalDecision} else {}) + (if r >= 2 then {RemoteDecision} else {})
    + (if l >= 3 then {LocalPrepared} else {}) + (if r >= 3 then {RemotePrepared} else {})
    + (if l >= 4 then {LocalCommitted} else {}) + (if r >= 4 then {RemoteCommitted} else {})
  }

  function OwnFlag(l: nat): Flag
    requires l < 4
  {
    if l == 0 then HelloSent else if l == 1 then LocalDecision else if l == 2 then LocalPrepared else LocalCommitted
  }

  function PeerFlag(r: nat): Flag
    requires r < 4
  {
    if r == 0 then HelloReceived else if r == 1 then RemoteDecision else if r == 2 then RemotePrepared
    else RemoteCommitted
  }

  predicate TxAt(t: Transaction, l: nat, r: nat) {
    t.requestId != 0 && t.generation != 0 && t.progress == Flags(l, r) && t.state == t.Phase()
  }

  lemma FlagsStep(l: nat, r: nat)
    ensures l < 4 ==> OwnFlag(l) !in Flags(l, r) && Flags(l + 1, r) == Flags(l, r) + {OwnFlag(l)}
    ensures r < 4 ==> PeerFlag(r) !in Flags(l, r) && Flags(l, r + 1) == Flags(l, r) + {PeerFlag(r)}
  {
  }

  /** The next flag of either side is accepted and sets exactly the next bit. */
  lemma MarkOwn(t: Transaction, l: nat, r: nat)
    requires TxAt(t, l, r) && l < 4 && (l >= 2 ==> r >= l)
    ensures var (u, ok) := t.Mark(OwnFlag(l));
            && ok && TxAt(u, l + 1, r) && u == t.(progress := u.progress, state := u.state)
  {
    FlagsStep(l, r);
  }

  lemma MarkPeer(t: Transaction, l: nat, r: nat)
    requires TxAt(t, l, r) && r < 4 && (r >= 2 ==> l >= r)
    ensures var (u, ok) := t.Mark(PeerFlag(r));
            && ok && TxAt(u, l, r + 1) && u == t.(progress := u.progress, state := u.state)
  {
    FlagsStep(l, r);
  }

  lemma Completeness(t: Transaction, l: nat, r: nat)
    requires TxAt(t, l, r)
    ensures t.DecisionsComplete() <==> l >= 2 && r >= 2
    ensures t.PreparedComplete() <==> l >= 3 && r >= 3
    ensures t.CommittedComplete() <==> l >= 4 && r >= 4
  {
  }

  lemma NothingToCommit(f: Flow, io: Io)
    requires !f.Tx().PreparedComplete()
    ensures TryCommit(f, io) == f
  {
  }

  lemma NothingToComplete(f: Flow, io: Io)
    requires !f.Tx().CommittedComplete()
    ensures TryComplete(f, io) == f
  {
  }

  predicate MessagesOk(f: Flow, out: seq<Message>) {
    && (|out| >= 1 ==> out[0].Hello? && out[0].requestId == f.requestId && out[0].deviceId == f.localId
                       && out[0].standardMethod && out[0].permissions == f.requested)
    && (|out| >= 2 ==> out[1] == Decision(f.requestId, f.localId, true, f.Tx().localPermissions))
    && (|out| >= 3 ==> out[2] == Ready(f.requestId, f.localId, f.effective))
    && (|out| >= 4 ==> out[3] == Committed(f.requestId, f.localId, f.effective))
  }

  /** The response cache holds the latest message of each phase. */
  predicate CachedOk(cached: map<MessageType, Message>, out: seq<Message>) {
    && RejectedType !in cached
    && (if |out| >= 2 then DecisionType in cached && cached[DecisionType] == out[1] else DecisionType !in cached)
    && (if |out| >= 3 then ReadyType in cached && cached[ReadyType] == out[2] else ReadyType !in cached)
    && (if |out| >= 4 then CommittedType in cached && cached[CommittedType] == out[3] else CommittedType !in cached)
  }

  predicate FreshId(ds: seq<Device>, r: RequestId) {
    forall i :: 0 <= i < |ds| ==> ds[i].transactionId != r
  }

  /** The store can take the next save of an untrusted pairing. */
  predicate StoreReady(f: Flow, l: nat) {
    if l < 3 then f.trust.transactionId == 0 && FreshId(f.trust.devices, f.requestId)
    else
      HasTransaction(f.trust, f.requestId)
      && (l == 3 ==> var k := FindTransaction(f.trust.devices, f.requestId);
                     k >= 0 && f.trust.devices[k].commitState.Pending?)
  }

  /** What the permissions must be after l messages sent and r taken. */
  predicate PermissionsAt(f: Flow, l: nat, r: nat) {
    && ViewScreen in f.requested
    && (l < 2 ==> f.Tx().localPermissions == {})
    && (l >= 2 && !f.outgoing ==> ViewScreen in f.Tx().localPermissions)
    && (r >= 2 && f.outgoing ==> ViewScreen in f.Tx().remotePermissions)
    && (l >= 3 ==> f.effective == f.Effective())
  }

  predicate SessionAt(f: Flow) {
    f.requestId == f.Tx().requestId && f.generation == f.Tx().generation
    && f.active && !f.authenticated && f.peer.valid
  }

  /** An endpoint in its session, l messages sent and r taken; what it still owes is not looked at. */
  predicate At(f: Flow, l: nat, r: nat) {
    && TxAt(f.Tx(), l, r) && SessionAt(f) && PermissionsAt(f, l, r)
    && (!f.trusted ==> StoreReady(f, l))
    && |Sends(f)| == l && MessagesOk(f, Sends(f)) && CachedOk(f.command.cached, Sends(f))
  }

  /** An endpoint between two events: it has sent all it can, and asks its user when it must. */
  predicate Settled(f: Flow, l: nat, r: nat) {
    && At(f, l, r)
    && (l >= 3 <==> l >= 2 && r >= 2) && (l >= 4 <==> r >= 3) && r < 4 && 1 <= l <= 4
    && (l >= 2 ==> r >= 1)
    && f.promptVisible == (l == 1 && r >= 1)
  }

  /** An endpoint whose pairing is complete. */
  predicate Done(f: Flow) {
    && f.authenticated && !f.active && f.Tx().state.Completed? && !f.promptVisible
    && |Sends(f)| == 4 && MessagesOk(f, Sends(f)) && f.effective == f.Effective()
  }

  predicate NoFault(io: Io) { io.prepareOk && io.commitOk && io.verificationOk }

  // ---------- the steps behind the messages ----------

  /** The next own message: its flag is set and it goes out. */
  lemma MarkAndSend(f: Flow, m: Message, l: nat, r: nat)
    requires TxAt(f.Tx(), l, r) && SessionAt(f) && PermissionsAt(f, l + 1, r)
    requires l < 4 && (l >= 2 ==> r >= l)
    requires !f.trusted ==> StoreReady(f, l + 1)
    requires |Sends(f)| == l && MessagesOk(f, Sends(f) + [m]) && CachedOk(f.command.cached, Sends(f))
    requires TypeOf(m) == (if l == 0 then HelloType else if l == 1 then DecisionType
                           else if l == 2 then ReadyType else CommittedType)
    ensures var (t, ok) := f.Tx().Mark(OwnFlag(l));
            && ok && At(SendMessage(WithTx(f, t), m), l + 1, r)
            && SendMessage(WithTx(f, t), m).promptVisible == f.promptVisible
            && Permissions(f, SendMessage(WithTx(f, t), m))
  {
    MarkOwn(f.Tx(), l, r);
    var g := WithTx(f, f.Tx().Mark(OwnFlag(l)).0);
    LogSends(g.(command := g.command.Cache(m)), Sent(m));
    assert Sends(g) == Sends(f);
  }

  /** The decisions an endpoint knows are the same before and after. */
  predicate Permissions(f: Flow, g: Flow) {
    && g.Tx().localPermissions == f.Tx().localPermissions
    && g.Tx().remotePermissions == f.Tx().remotePermissions
    && g.outgoing == f.outgoing && g.requested == f.requested && g.requestId == f.requestId
    && g.localId == f.localId && g.peer == f.peer && g.generation == f.generation
  }

  lemma FindNew(ds: seq<Device>, d: Device, r: RequestId)
    requires FreshId(ds, r) && d.transactionId == r
    ensures FindTransaction(ds + [d], r) == |ds|
  {
    var k := FindTransaction(ds + [d], r);
    assert (ds + [d])[|ds|].transactionId == r;
  }

  /** Both decisions are known: the record is saved and Ready goes out. */
  lemma PrepareProgress(f: Flow, io: Io)
    requires At(f, 2, 2) && !f.promptVisible && NoFault(io)
    ensures Settled(TryPrepare(f, io), 3, 2) && Permissions(f, TryPrepare(f, io))
  {
    var g := f.(effective := f.Effective());
    if g.trusted {
      ReadyProgress(g, io);
    } else {
      var t := Prepare(g.trust, g.requestId, g.peer, g.remoteName, g.effective, io.now, true).0;
      LogSends(g.(trust := t), Saved(t.disk));
      FindNew(g.trust.devices, NewRecord(g.requestId, g.peer, g.remoteName, g.effective, io.now), g.requestId);
      ReadyProgress(Log(g.(trust := t), Saved(t.disk)), io);
    }
  }

  lemma ReadyProgress(f: Flow, io: Io)
    requires TxAt(f.Tx(), 2, 2) && SessionAt(f) && PermissionsAt(f, 3, 2) && !f.promptVisible
    requires !f.trusted ==> StoreReady(f, 3)
    requires |Sends(f)| == 2 && MessagesOk(f, Sends(f)) && CachedOk(f.command.cached, Sends(f))
    ensures Settled(AnnounceReady(f, io), 3, 2) && Permissions(f, AnnounceReady(f, io))
  {
    var m := Ready(f.requestId, f.localId, f.effective);
    MarkAndSend(f, m, 2, 2);
    var g := SendMessage(WithTx(f, f.Tx().Mark(LocalPrepared).0), m);
    Completeness(g.Tx(), 3, 2);
    NothingToCommit(g, io);
    NothingToComplete(g, io);
    AnnouncedReady(f, io);
  }

  lemma AnnouncedReady(f: Flow, io: Io)
    requires f.Tx().Mark(LocalPrepared).1
    ensures AnnounceReady(f, io)
         == TryComplete(TryCommit(SendMessage(WithTx(f, f.Tx().Mark(LocalPrepared).0),
                                              Ready(f.requestId, f.localId, f.effective)), io), io)
  {
  }

  /** Both sides are prepared: the record becomes Mutual and Committed goes out. */
  lemma CommitProgress(f: Flow, io: Io)
    requires At(f, 3, 3) && !f.promptVisible && NoFault(io)
    ensures Settled(TryCommit(f, io), 4, 3) && Permissions(f, TryCommit(f, io))
  {
    Completeness(f.Tx(), 3, 3);
    FlagsStep(3, 3);
    if f.trusted {
      CommittedProgress(f, io);
    } else {
      var t := Commit(f.trust, f.requestId, f.remoteName, f.peer.certificate, io.now, true).0;
      LogSends(f.(trust := t), Saved(t.disk));
      CommittedProgress(Log(f.(trust := t), Saved(t.disk)), io);
    }
  }

  lemma CommittedProgress(f: Flow, io: Io)
    requires TxAt(f.Tx(), 3, 3) && SessionAt(f) && PermissionsAt(f, 3, 3) && !f.promptVisible
    requires !f.trusted ==> StoreReady(f, 4)
    requires |Sends(f)| == 3 && MessagesOk(f, Sends(f)) && CachedOk(f.command.cached, Sends(f))
    ensures Settled(AnnounceCommitted(f, io), 4, 3) && Permissions(f, AnnounceCommitted(f, io))
  {
    var m := Committed(f.requestId, f.localId, f.effective);
    MarkAndSend(f, m, 3, 3);
    var g := SendMessage(WithTx(f, f.Tx().Mark(LocalCommitted).0), m);
    Completeness(g.Tx(), 4, 3);
    NothingToComplete(g, io);
    AnnouncedCommitted(f, io);
  }

  lemma AnnouncedCommitted(f: Flow, io: Io)
    requires f.Tx().Mark(LocalCommitted).1
    ensures AnnounceCommitted(f, io)
         == TryComplete(SendMessage(WithTx(f, f.Tx().Mark(LocalCommitted).0),
                                    Committed(f.requestId, f.localId, f.effective)), io)
  {
  }

  /** Both sides have committed: the pairing completes, whatever becomes of the last saves. */
  lemma CompleteProgress(f: Flow, io: Io)
    requires At(f, 4, 4)
    ensures Done(TryComplete(f, io)) && Permissions(f, TryComplete(f, io))
  {
    Completeness(f.Tx(), 4, 4);
    var g := RefreshMetadata(f, io);
    RefreshKeeps(f, io);
    var t := g.Tx().MarkCompleted().0;
    FinishKeeps(WithTx(g, t), io);
  }

  /** The fields a save cannot touch. */
  predicate SameSession(f: Flow, g: Flow) {
    && g.command == f.command && g.outgoing == f.outgoing && g.requested == f.requested
    && g.requestId == f.requestId && g.localId == f.localId && g.peer == f.peer
    && g.generation == f.generation && g.effective == f.effective && g.authenticated == f.authenticated
    && Sends(g) == Sends(f)
  }

  lemma RefreshKeeps(f: Flow, io: Io)
    ensures SameSession(f, RefreshMetadata(f, io))
  {
    var t := UpdateAuthenticated(f.trust, f.remoteDeviceId, f.remoteName, f.peer.certificate,
                                 io.now, io.metadataOk).0;
    LogSends(f.(trust := t), Saved(t.disk));
  }

  lemma FinishKeeps(f: Flow, io: Io)
    ensures var g := Finish(f, io);
            SameSession(f.(authenticated := true), g) && !g.active && !g.promptVisible
  {
    var t := Complete(f.trust, f.requestId, io.completeOk).0;
    LogSends(f.(trust := t), Saved(t.disk));
    var c := Cleanup(f, io);
    assert Sends(c) == Sends(f);
    SucceedKeeps(c, f.effective, f.trusted);
  }

  lemma SucceedKeeps(f: Flow, effective: Scopes, trusted: bool)
    ensures var g := Succeed(f, effective, trusted);
            SameSession(f.(authenticated := true), g) && !g.active && !g.promptVisible
  {
    LogSends(f.(trusted := true, withinTrust := true, authenticated := true, active := false,
                promptVisible := false), Finished(f.requestId, effective, trusted));
  }

  /** The endpoint decides, by its user or by the stored limit. */
  lemma DecideProgress(f: Flow, permissions: Scopes, io: Io, r: nat)
    requires At(f, 1, r) && 1 <= r <= 2 && !f.promptVisible && NoFault(io)
    requires ViewScreen in permissions
    ensures Settled(SendDecision(f, permissions, io), if r == 1 then 2 else 3, r)
    ensures SendDecision(f, permissions, io).Tx().localPermissions == permissions
    ensures Permissions(WithTx(f, f.Tx().(localPermissions := permissions)), SendDecision(f, permissions, io))
  {
    var g := WithTx(f, f.Tx().(localPermissions := permissions));
    var m := Decision(f.requestId, f.localId, true, permissions);
    assert Sends(g) == Sends(f);
    MarkAndSend(g, m, 1, r);
    FlagsStep(1, r);
    var h := SendMessage(WithTx(g, g.Tx().Mark(LocalDecision).0), m);
    assert SendDecision(f, permissions, io) == TryPrepare(h, io);
    Completeness(h.Tx(), 2, r);
    if r == 2 {
      PrepareProgress(h, io);
    }
  }

  // ---------- the messages ----------

  lemma RespondProgress(f: Flow, granted: Scopes, io: Io, r: nat)
    requires Settled(f, 1, r) && r >= 1 && NoFault(io)
    requires f.outgoing || ViewScreen in granted
    ensures Settled(RespondPairing(f, f.requestId, true, granted, io), if r == 1 then 2 else 3, r)
    ensures var g := RespondPairing(f, f.requestId, true, granted, io);
            && g.Tx().remotePermissions == f.Tx().remotePermissions && g.outgoing == f.outgoing
            && g.requested == f.requested && g.requestId == f.requestId && g.localId == f.localId
            && g.peer == f.peer && g.generation == f.generation
  {
    var g := f.(promptVisible := false);
    assert Sends(g) == Sends(f);
    DecideProgress(g, if g.outgoing then g.requested else granted * g.requested, io, r);
  }

  lemma DecisionProgress(f: Flow, m: Message, io: Io, l: nat)
    requires Settled(f, l, 1) && NoFault(io)
    requires m.Decision? && m.requestId == f.requestId && m.deviceId == f.peer.deviceId && m.accepted
    requires f.outgoing ==> ViewScreen in m.permissions
    ensures var g := HandleMessage(f, m, f.generation, io);
            && Settled(g, if l == 1 then 1 else 3, 2)
            && g.Tx().remotePermissions == m.permissions && g.Tx().localPermissions == f.Tx().localPermissions
            && g.outgoing == f.outgoing && g.requested == f.requested && g.requestId == f.requestId
            && g.localId == f.localId && g.peer == f.peer && g.generation == f.generation
  {
    var g := WithTx(f, f.Tx().(remotePermissions := m.permissions));
    MarkPeer(g.Tx(), l, 1);
    FlagsStep(l, 1);
    var h := WithTx(g, g.Tx().Mark(RemoteDecision).0);
    assert Sends(h) == Sends(f);
    assert At(h, l, 2);
    DecisionHandled(f, m, io);
    Completeness(h.Tx(), l, 2);
    if l == 2 {
      PrepareProgress(h, io);
    }
  }

  lemma DecisionHandled(f: Flow, m: Message, io: Io)
    requires f.active && f.Tx().Active() && f.generation == f.Tx().generation && f.requestId == f.Tx().requestId
    requires m.Decision? && m.requestId == f.requestId && m.deviceId == f.peer.deviceId && m.accepted
    requires f.Has(HelloReceived) && !f.Has(RemoteDecision)
    ensures HandleMessage(f, m, f.generation, io)
         == TryPrepare(WithTx(f, f.Tx().(remotePermissions := m.permissions).Mark(RemoteDecision).0), io)
  {
  }

  lemma ReadyMessageProgress(f: Flow, m: Message, io: Io)
    requires Settled(f, 3, 2) && NoFault(io)
    requires m.Ready? && m.requestId == f.requestId && m.deviceId == f.peer.deviceId
    requires m.permissions == f.Effective()
    ensures var g := HandleMessage(f, m, f.generation, io);
            Settled(g, 4, 3) && Permissions(f, g)
  {
    MarkPeer(f.Tx(), 3, 2);
    var h := WithTx(f, f.Tx().Mark(RemotePrepared).0);
    assert Sends(h) == Sends(f);
    assert At(h, 3, 3);
    ReadyHandled(f, m, io);
    CommitProgress(h, io);
  }

  lemma ReadyHandled(f: Flow, m: Message, io: Io)
    requires f.active && f.Tx().Active() && f.generation == f.Tx().generation && f.requestId == f.Tx().requestId
    requires m.Ready? && m.requestId == f.requestId && m.deviceId == f.peer.deviceId
    requires m.permissions == f.Effective() && f.Has(LocalPrepared) && f.Tx().Mark(RemotePrepared).1
    ensures HandleMessage(f, m, f.generation, io)
         == TryCommit(WithTx(f, f.Tx().Mark(RemotePrepared).0), io)
  {
  }

  lemma CommittedMessageProgress(f: Flow, m: Message, io: Io)
    requires Settled(f, 4, 3)
    requires m.Committed? && m.requestId == f.requestId && m.deviceId == f.peer.deviceId
    requires m.permissions == f.effective
    ensures var g := HandleMessage(f, m, f.generation, io);
            Done(g) && Permissions(f, g)
  {
    MarkPeer(f.Tx(), 4, 3);
    var h := WithTx(f, f.Tx().Mark(RemoteCommitted).0);
    assert Sends(h) == Sends(f);
    assert At(h, 4, 4);
    CommittedHandled(f, m, io);
    CompleteProgress(h, io);
  }

  lemma CommittedHandled(f: Flow, m: Message, io: Io)
    requires f.active && f.Tx().Active() && f.generation == f.Tx().generation && f.requestId == f.Tx().requestId
    requires m.Committed? && m.requestId == f.requestId && m.deviceId == f.peer.deviceId
    requires m.permissions == f.effective && f.Has(LocalCommitted) && f.Tx().Mark(RemoteCommitted).1
    ensures HandleMessage(f, m, f.generation, io)
         == TryComplete(WithTx(f, f.Tx().Mark(RemoteCommitted).0), io)
  {
  }

  // ---------- the Hello ----------

  /** The store of an endpoint does not stand in the way: the request is new to it, and its record
      of the peer, if any, is not revoked, names the peer's key and allows viewing. */
  predicate Welcomes(f: Flow, request: RequestId) {
    var k := Find(f.trust.devices, f.remoteDeviceId);
    && f.trust.transactionId == 0 && FreshId(f.trust.devices, request)
    && (k >= 0 ==> var d := f.trust.devices[k];
                   !d.revoked && d.spki == f.peer.spki && ViewScreen in d.permissionLimit)
  }

  /** The controlled side before the Hello. */
  predicate Waiting(f: Flow) {
    && !f.outgoing && f.active && !f.authenticated && !f.promptVisible && f.generation != 0
    && f.command == NoCommand && f.requestId == 0 && Sends(f) == [] && f.peer.valid
  }

  /** What the Hello of the peer leaves as it was. */
  predicate SameEnd(f: Flow, g: Flow) {
    && g.outgoing == f.outgoing && g.localId == f.localId && g.peer == f.peer && g.generation == f.generation
  }

  lemma PromptProgress(f: Flow, io: Io)
    requires At(f, 1, 1) && !f.promptVisible && NoFault(io) && Welcomes(f, f.requestId)
    ensures var g := BeginPairingOrAutomaticDecision(f, io);
            && (Settled(g, 1, 1) || Settled(g, 2, 1)) && SameEnd(f, g)
            && g.requestId == f.requestId && g.requested == f.requested
  {
    var k := Find(f.trust.devices, f.remoteDeviceId);
    if f.trusted && k >= 0 {
      var permissions := if f.outgoing then f.requested else f.trust.devices[k].permissionLimit * f.requested;
      DecideProgress(f, permissions, io, 1);
    } else {
      assert Sends(f.(promptVisible := true)) == Sends(f);
    }
  }

  lemma InspectProgress(f: Flow, commitId: RequestId)
    requires Welcomes(f, f.requestId)
    ensures var (g, refused) := InspectPeerTrust(f, commitId);
            && refused.None? && g == f.(trusted := g.trusted, withinTrust := g.withinTrust)
  {
  }

  lemma SendHelloProgress(f: Flow)
    requires At(f, 0, 1)
    ensures At(SendHello(f), 1, 1) && SendHello(f).trust == f.trust && SendHello(f).promptVisible == f.promptVisible
    ensures SendHello(f).requestId == f.requestId && SendHello(f).requested == f.requested
    ensures SameEnd(f, SendHello(f)) && SendHello(f).remoteDeviceId == f.remoteDeviceId
  {
    MarkAndSend(f, Hello(f.requestId, f.localId, f.localName, true,
                         MutualCommitId(f.trust.devices, f.remoteDeviceId, f.peer.spki), f.requested), 0, 1);
  }

  /** A Hello behind the checks on its sender. */
  lemma AcceptProgress(f: Flow, m: Message, io: Io, l: nat)
    requires m.Hello? && l <= 1 && At(f, l, 1) && !f.promptVisible && NoFault(io) && Welcomes(f, f.requestId)
    ensures var g := AcceptHello(f, m, io);
            && (Settled(g, 1, 1) || Settled(g, 2, 1)) && SameEnd(f, g)
            && g.requestId == f.requestId && g.requested == f.requested
  {
    var n := Named(f, m);
    InspectProgress(n, m.trustCommitId);
    var g := InspectPeerTrust(n, m.trustCommitId).0;
    var own := MutualCommitId(g.trust.devices, g.remoteDeviceId, g.peer.spki);
    var e := Chosen(g.requestId, g.trusted, own, m.trustCommitId);
    LogSends(g, e);
    var h := RecordChoice(g, m.trustCommitId);
    assert Sends(g) == Sends(f);
    assert At(h, l, 1) && Welcomes(h, h.requestId);
    FlagsStep(l, 1);
    if l == 0 {
      SendHelloProgress(h);
      PromptProgress(SendHello(h), io);
    } else {
      PromptProgress(h, io);
    }
  }

  lemma ControllerHello(f: Flow, m: Message, io: Io)
    requires Settled(f, 1, 0) && f.outgoing && NoFault(io) && Welcomes(f, f.requestId)
    requires m.Hello? && m.standardMethod && m.requestId == f.requestId && m.deviceId == f.peer.deviceId
    ensures var g := HandleMessage(f, m, f.generation, io);
            && (Settled(g, 1, 1) || Settled(g, 2, 1)) && SameEnd(f, g)
            && g.requestId == f.requestId && g.requested == f.requested
  {
    MarkPeer(f.Tx(), 1, 0);
    FlagsStep(1, 0);
    var g := WithTx(f, f.Tx().Mark(HelloReceived).0);
    assert Sends(g) == Sends(f);
    ControllerHelloHandled(f, m, io);
    AcceptProgress(g, m, io, 1);
  }

  lemma ControllerHelloHandled(f: Flow, m: Message, io: Io)
    requires f.active && f.outgoing && f.Tx().Active() && f.generation == f.Tx().generation
    requires m.Hello? && m.standardMethod && m.requestId == f.Tx().requestId && m.deviceId == f.peer.deviceId
    requires !f.Has(HelloReceived)
    ensures HandleMessage(f, m, f.generation, io)
         == AcceptHello(WithTx(f, f.Tx().Mark(HelloReceived).0), m, io)
  {
  }

  lemma ControlledHello(f: Flow, m: Message, io: Io)
    requires Waiting(f) && NoFault(io) && Welcomes(f, m.requestId)
    requires m.Hello? && m.standardMethod && m.requestId != 0 && m.deviceId == f.peer.deviceId
    requires ViewScreen in m.permissions && Unsent(f, m.requestId)
    ensures var g := HandleMessage(f, m, f.generation, io);
            && (Settled(g, 1, 1) || Settled(g, 2, 1)) && SameEnd(f, g)
            && g.requestId == m.requestId && g.requested == m.permissions
  {
    var g := AdoptRequest(f, m);
    assert TxAt(g.Tx(), 0, 0);
    MarkPeer(g.Tx(), 0, 0);
    var h := WithTx(g, g.Tx().Mark(HelloReceived).0);
    assert Sends(h) == [];
    assert At(h, 0, 1);
    ControlledHelloHandled(f, m, io);
    AcceptProgress(h, m, io, 0);
  }

  lemma ControlledHelloHandled(f: Flow, m: Message, io: Io)
    requires f.active && !f.outgoing && f.command == NoCommand
    requires m.Hello? && m.standardMethod && m.deviceId == f.peer.deviceId && m.requestId != 0 && f.generation != 0
    ensures var g := AdoptRequest(f, m);
            HandleMessage(f, m, f.generation, io) == AcceptHello(WithTx(g, g.Tx().Mark(HelloReceived).0), m, io)
  {
  }

  // ---------- duplicates ----------

  /** A repeated Hello changes nothing and is answered with the endpoint's latest message, once it
      has answered at all. */
  lemma DuplicateReplaysLatest(f: Flow, m: Message, io: Io, l: nat, r: nat)
    requires Settled(f, l, r) && m.Hello? && f.command.ClassifyHello(m, f.generation).DuplicateHello?
    ensures HandleMessage(f, m, f.generation, io)
         == if l >= 2 then Log(f, Replayed(Sends(f)[l - 1])) else f
    ensures Settled(HandleMessage(f, m, f.generation, io), l, r)
  {
    if l >= 2 {
      LogSends(f, Replayed(Sends(f)[l - 1]));
    }
  }

  // ---------- opening the session ----------

  lemma ClearSends(f: Flow, saveOk: bool)
    ensures forall r :: Unsent(f, r) ==> Unsent(Clear(f, saveOk), r)
  {
    if HasTransaction(f.trust, f.requestId) && saveOk {
      var t := Rollback(f.trust, f.requestId, true).0;
      LogSends(f.(trust := t), Saved(t.disk));
    }
  }

  lemma LoadSends(f: Flow, io: Io)
    requires io.identityOk && io.readOk && io.recoveryOk && io.certificateOk
    ensures var (g, ok) := LoadTrust(f, io);
            && ok && g.requestId == f.requestId && (forall r :: Unsent(f, r) ==> Unsent(g, r)) && g.localId == f.identity && g.trust.transactionId == 0
            && g.peer == f.peer && g.command == f.command && !g.authenticated == !f.authenticated
            && g.promptVisible == f.promptVisible
  {
    var t := Load(f.trust, true, true).0;
    var g := f.(localId := f.identity);
    LogSends(g.(trust := t), Saved(t.disk));
    LogSends(AdoptTrust(g, t), Loaded(t.devices));
  }

  lemma IncomingOpens(f: Flow, request: RequestId, generation: nat, name: string, io: Io)
    requires Unsent(f, 0) && Unsent(f, request) && f.peer.valid && generation != 0
    requires io.identityOk && io.readOk && io.recoveryOk && io.certificateOk && !io.rateLimited
    ensures var d := BeginIncoming(f, generation, name, io);
            Waiting(d) && d.localId == f.identity && d.peer == f.peer && Unsent(d, request)
  {
    var g := Clear(f, io.clearRollbackOk);
    ClearSends(f, io.clearRollbackOk);
    LoadSends(g, io);
  }

  lemma OutgoingOpens(f: Flow, request: RequestId, generation: nat, name: string, requested: Scopes, io: Io)
    requires Unsent(f, request) && f.peer.valid && generation != 0 && request != 0 && ViewScreen in requested
    requires io.identityOk && io.readOk && io.recoveryOk && io.certificateOk
    requires Welcomes(BeginOutgoing(f, request, generation, name, requested, io), request)
    ensures var c := BeginOutgoing(f, request, generation, name, requested, io);
            && Settled(c, 1, 0) && c.outgoing && c.localId == f.identity && c.peer == f.peer && c.requestId == request
  {
    var g := Clear(f, io.clearRollbackOk);
    ClearSends(f, io.clearRollbackOk);
    LoadSends(g, io);
    var h := LoadTrust(g, io).0;
    var k := StartSession(h, true, generation, name).(
               requestId := request, requested := requested,
               command := NoCommand.(transaction := Begin(request, generation)));
    assert Sends(k) == [];
    OutgoingIsHello(f, request, generation, name, requested, io, k);
    HelloKeepsTrust(k);
    HelloGoesOut(k);
  }

  lemma HelloGoesOut(k: Flow)
    requires TxAt(k.Tx(), 0, 0) && SessionAt(k) && PermissionsAt(k, 1, 0) && !k.promptVisible
    requires StoreReady(k, 1) && Sends(k) == [] && k.command.cached == map[]
    ensures Settled(SendHello(k), 1, 0) && Permissions(k, SendHello(k))
  {
    MarkAndSend(k, FirstHello(k), 0, 0);
    HelloIsSent(k);
  }

  lemma OutgoingIsHello(f: Flow, request: RequestId, generation: nat, name: string, requested: Scopes, io: Io, k: Flow)
    requires f.peer.valid && request != 0 && ViewScreen in requested
    requires LoadTrust(Clear(f, io.clearRollbackOk), io).1
    requires k == StartSession(LoadTrust(Clear(f, io.clearRollbackOk), io).0, true, generation, name).(
                    requestId := request, requested := requested,
                    command := NoCommand.(transaction := Begin(request, generation)))
    ensures BeginOutgoing(f, request, generation, name, requested, io) == SendHello(k)
  {
  }

  function FirstHello(f: Flow): Message {
    Hello(f.requestId, f.localId, f.localName, true,
          MutualCommitId(f.trust.devices, f.remoteDeviceId, f.peer.spki), f.requested)
  }

  lemma HelloKeepsTrust(f: Flow)
    ensures SendHello(f).trust == f.trust && SendHello(f).remoteDeviceId == f.remoteDeviceId
  {
  }

  lemma HelloIsSent(f: Flow)
    requires f.Tx().Mark(HelloSent).1
    ensures SendHello(f) == SendMessage(WithTx(f, f.Tx().Mark(HelloSent).0), FirstHello(f))
  {
  }
}
