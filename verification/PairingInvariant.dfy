/** What each endpoint's flow owes to the history, and the proof that every handler keeps it and
    appends only justified events. */
module PairingInvariant {
  import opened Wrappers
  import opened PairingTypes
  import opened TrustedDevices
  import opened PairingTransactions
  import opened AuthenticationFlow
  import opened PairingTrace
  import opened TrustRecovery

  /** Identity, file and records, whatever the flow is doing. */
  ghost predicate Base(cfg: Config, p: Party, f: Flow, t: seq<Event>) {
    && f.self == p
    && f.identity == cfg.Face(p).deviceId
    && f.peer == cfg.Face(Other(p))
    && f.peer.valid
    && f.trust.disk == Disk(cfg, t, p)
    && RecordsKnown(cfg, t, f.trust.devices)
    && RecordsKnown(cfg, t, f.trust.before)
  }

  ghost predicate SessionOpen(t: seq<Event>, r: RequestId, requested: Scopes) {
    r != 0 && Connected(r, requested) in t && forall other :: Connected(r, other) in t ==> other == requested
  }

  ghost predicate NoneOwn(t: seq<Event>, p: Party, r: RequestId) {
    forall e :: Of(p, e) in t ==> !Mentions(Of(p, e), r)
  }

  /** The trust memory is as the load left it. */
  ghost predicate Quiet(f: Flow, r: RequestId) {
    f.trust.devices == f.trust.disk && f.trust.transactionId == 0 && Fresh(f.trust.devices, r)
  }

  ghost predicate Down(f: Flow) {
    !f.active && !f.authenticated && f.requestId == 0 && f.command == NoCommand
  }

  ghost predicate Done(f: Flow) { !f.active && f.authenticated && f.Has(LocalCommitted) }

  /** The controlled side before the Hello. */
  ghost predicate Waiting(p: Party, f: Flow, t: seq<Event>, r: RequestId) {
    && p.Controlled? && f.active && !f.authenticated && !f.outgoing
    && f.requestId == 0 && f.command == NoCommand && f.generation != 0 && !f.promptVisible
    && f.localId == f.identity && f.remoteDeviceId == f.peer.deviceId
    && Quiet(f, r) && NoneOwn(t, p, r)
  }

  /** The cached responses are exactly what the endpoint originated for the request. */
  ghost predicate Outbox(p: Party, f: Flow, t: seq<Event>, r: RequestId) {
    && (forall k :: k in f.command.cached ==>
          && !k.RejectedType? && TypeOf(f.command.cached[k]) == k && f.command.cached[k].requestId == r
          && Of(p, Sent(f.command.cached[k])) in t)
    && (forall m :: Of(p, Sent(m)) in t && m.requestId == r && !m.Rejected? ==>
          TypeOf(m) in f.command.cached)
  }

  /** The local bits say which messages have been sent, and with what permissions. */
  ghost predicate LocalBits(p: Party, f: Flow, r: RequestId, requested: Scopes) {
    && (f.Has(HelloSent) <==> HelloType in f.command.cached)
    && (f.Has(LocalDecision) <==> DecisionType in f.command.cached)
    && (f.Has(LocalPrepared) <==> ReadyType in f.command.cached)
    && (f.Has(LocalCommitted) <==> CommittedType in f.command.cached)
    && (f.Has(LocalDecision) ==>
          f.command.cached[DecisionType] == Decision(r, f.localId, true, f.Tx().localPermissions))
    && (f.Has(LocalPrepared) ==>
          && f.command.cached[ReadyType] == Ready(r, f.localId, f.effective)
          && f.effective == f.Effective() && ViewScreen in f.effective)
    && (f.Has(LocalCommitted) ==> f.command.cached[CommittedType] == Committed(r, f.localId, f.effective))
    && (p.Controlled? && f.Has(LocalDecision) ==> f.Tx().localPermissions <= requested)
  }

  /** The remote bits say which of the peer's messages have arrived. */
  ghost predicate RemoteBits(cfg: Config, p: Party, f: Flow, t: seq<Event>, r: RequestId) {
    && (f.Has(RemoteDecision) ==> DecisionOf(cfg, Other(p), r, f.Tx().remotePermissions) in t)
    && (f.Has(RemotePrepared) ==> ReadyOf(cfg, Other(p), r, f.Effective()) in t)
    && (f.Has(RemoteCommitted) ==> CommittedOf(cfg, Other(p), r, f.Effective()) in t)
  }

  /** The choice between trust and a prompt has been made, once, when the Hello has arrived. */
  ghost predicate Choice(p: Party, f: Flow, t: seq<Event>, r: RequestId) {
    && (f.Has(HelloReceived) ==> exists own, theirs :: Of(p, Chosen(r, f.trusted, own, theirs)) in t)
    && (forall tr, own, theirs :: Of(p, Chosen(r, tr, own, theirs)) in t ==>
          f.Has(HelloReceived) && tr == f.trusted)
    && (f.Has(LocalDecision) || f.Has(RemoteDecision) ==> f.Has(HelloReceived))
  }

  /** The transaction is open in the trust service and its record is on disk. */
  ghost predicate Recorded(f: Flow, r: RequestId, state: CommitState) {
    && f.trust.transactionId == r
    && f.trust.devices == f.trust.disk
    && var k := FindTransaction(f.trust.devices, r);
       && k >= 0
       && f.trust.devices[k].deviceId == f.peer.deviceId
       && f.trust.devices[k].spki == f.peer.spki
       && f.trust.devices[k].permissionLimit == f.effective
       && f.trust.devices[k].commitState == state
  }

  ghost predicate TrustPhase(f: Flow, r: RequestId) {
    if f.Has(LocalPrepared) && !f.trusted then
      Recorded(f, r, if f.Has(LocalCommitted) then Mutual else Pending)
    else Quiet(f, r)
  }

  /** A live transaction of the session, but for the choice of trust and the trust memory. */
  ghost predicate Body(cfg: Config, p: Party, f: Flow, t: seq<Event>, r: RequestId, requested: Scopes) {
    && f.active && !f.authenticated && f.outgoing == p.Controller?
    && f.requestId == r && f.requested == requested
    && f.localId == f.identity && f.remoteDeviceId == f.peer.deviceId
    && f.Tx().requestId == r && f.Tx().generation == f.generation
    && f.Tx().Active() && f.Tx().Ordered()
    && (p.Controlled? || f.promptVisible ==> f.Has(HelloReceived))
    && Outbox(p, f, t, r)
    && LocalBits(p, f, r, requested)
    && RemoteBits(cfg, p, f, t, r)
    && (forall ps, tr :: Of(p, Finished(r, ps, tr)) !in t)
  }

  ghost predicate Core(cfg: Config, p: Party, f: Flow, t: seq<Event>, r: RequestId, requested: Scopes) {
    Body(cfg, p, f, t, r, requested) && Choice(p, f, t, r)
  }

  /** The Hello has arrived and the choice is about to be made. */
  ghost predicate Undecided(p: Party, f: Flow, t: seq<Event>, r: RequestId) {
    && (forall tr, own, theirs :: Of(p, Chosen(r, tr, own, theirs)) !in t)
    && !f.Has(LocalDecision) && !f.Has(RemoteDecision)
  }

  /** The controller's Hello announced the commit id its file still gives. */
  ghost predicate Announced(p: Party, f: Flow) {
    p.Controller? ==>
      && HelloType in f.command.cached && f.command.cached[HelloType].Hello?
      && (!f.Has(LocalDecision) ==> f.command.cached[HelloType].trustCommitId
                                    == MutualCommitId(f.trust.disk, f.remoteDeviceId, f.peer.spki))
  }

  ghost predicate Engaged(cfg: Config, p: Party, f: Flow, t: seq<Event>, r: RequestId, requested: Scopes) {
    Core(cfg, p, f, t, r, requested) && Announced(p, f) && TrustPhase(f, r)
  }

  ghost predicate Sound(cfg: Config, p: Party, f: Flow, r: RequestId, requested: Scopes) {
    Good(cfg, f.history) && SessionOpen(f.history, r, requested) && Base(cfg, p, f, f.history)
  }

  ghost predicate Ok(cfg: Config, p: Party, f: Flow, r: RequestId, requested: Scopes) {
    && Sound(cfg, p, f, r, requested)
    && (Down(f) || Done(f) || Waiting(p, f, f.history, r) || Engaged(cfg, p, f, f.history, r, requested))
  }

  /** The history has grown by this endpoint's events only, all of them of this session. */
  ghost predicate Grown(t: seq<Event>, u: seq<Event>, p: Party, r: RequestId) {
    && t <= u
    && forall i :: |t| <= i < |u| ==> OwnEvent(u[i], p, r)
  }

  predicate OwnEvent(e: Event, p: Party, r: RequestId) {
    && e.Of? && e.party == p
    && match e.effect
       case Sent(m) => m.requestId == r
       case Replayed(m) => m.requestId == r
       case Chosen(request, _, _, _) => request == r
       case Finished(request, _, _) => request == r
       case _ => true
  }

  // ---------- one event ----------

  lemma DiskAppend(cfg: Config, t: seq<Event>, e: Event, p: Party)
    ensures Disk(cfg, t + [e], p) ==
            if e.Of? && e.party == p && e.effect.Saved? then e.effect.devices else Disk(cfg, t, p)
  {
    assert (t + [e])[..|t|] == t;
  }

  lemma KnownAppend(cfg: Config, t: seq<Event>, e: Event, ds: seq<Device>)
    requires RecordsKnown(cfg, t, ds) && e.Of?
    ensures RecordsKnown(cfg, t + [e], ds)
  {
  }

  /** Appending a justified event of the endpoint, the trust memory and file being those after it. */
  lemma Logged(cfg: Config, p: Party, f: Flow, e: Effect, r: RequestId, requested: Scopes)
    requires Good(cfg, f.history) && SessionOpen(f.history, r, requested)
    requires f.self == p && f.identity == cfg.Face(p).deviceId && f.peer == cfg.Face(Other(p)) && f.peer.valid
    requires RecordsKnown(cfg, f.history, f.trust.devices) && RecordsKnown(cfg, f.history, f.trust.before)
    requires f.trust.disk == if e.Saved? then e.devices else Disk(cfg, f.history, p)
    requires Justified(cfg, f.history, Of(p, e)) && OwnEvent(Of(p, e), p, r)
    ensures var g := Log(f, e);
            && Sound(cfg, p, g, r, requested) && Grown(f.history, g.history, p, r)
            && (forall d :: d in g.history <==> d in f.history || d == Of(p, e))
  {
    GoodExtend(cfg, f.history, Of(p, e));
    DiskAppend(cfg, f.history, Of(p, e), p);
    KnownAppend(cfg, f.history, Of(p, e), f.trust.devices);
    KnownAppend(cfg, f.history, Of(p, e), f.trust.before);
  }

  lemma GrownTransitive(t: seq<Event>, u: seq<Event>, v: seq<Event>, p: Party, r: RequestId)
    requires Grown(t, u, p, r) && Grown(u, v, p, r)
    ensures Grown(t, v, p, r)
  {
    forall i | |t| <= i < |v| ensures OwnEvent(v[i], p, r) {
      if i < |u| {
        assert v[i] == u[i];
      }
    }
  }

  // ---------- giving up ----------

  lemma RollbackOk(cfg: Config, p: Party, f: Flow, saveOk: bool, r: RequestId, requested: Scopes)
    requires Sound(cfg, p, f, r, requested)
    ensures var g := RollbackPairing(f, saveOk);
            && Sound(cfg, p, g, r, requested)
            && Grown(f.history, g.history, p, r)
            && g == f.(trust := g.trust, history := g.history)
  {
    if HasTransaction(f.trust, f.requestId) && saveOk {
      var t := Rollback(f.trust, f.requestId, true).0;
      Logged(cfg, p, f.(trust := t), Saved(t.disk), r, requested);
    }
  }

  lemma ClearOk(cfg: Config, p: Party, f: Flow, saveOk: bool, r: RequestId, requested: Scopes)
    requires Sound(cfg, p, f, r, requested)
    ensures var g := Clear(f, saveOk);
            Ok(cfg, p, g, r, requested) && Down(g) && Grown(f.history, g.history, p, r)
  {
    RollbackOk(cfg, p, f, saveOk, r, requested);
  }

  lemma RejectOk(cfg: Config, p: Party, f: Flow, reason: Reason, r: RequestId, requested: Scopes)
    requires Sound(cfg, p, f, r, requested)
    ensures var g := SendMessage(f, Rejected(r, reason));
            && Sound(cfg, p, g, r, requested)
            && Grown(f.history, g.history, p, r)
  {
    var m := Rejected(r, reason);
    Logged(cfg, p, f.(command := f.command.Cache(m)), Sent(m), r, requested);
  }

  lemma FailOk(cfg: Config, p: Party, f: Flow, reason: Reason, notify: bool, io: Io, r: RequestId, requested: Scopes)
    requires Sound(cfg, p, f, r, requested)
    requires f.requestId == r || f.requestId == 0
    ensures var g := Fail(f, reason, notify, io);
            Ok(cfg, p, g, r, requested) && Down(g) && Grown(f.history, g.history, p, r)
  {
    RollbackOk(cfg, p, f, io.failRollbackOk, r, requested);
    var g := RollbackPairing(f, io.failRollbackOk);
    var h := WithTx(g, g.Tx().MarkFailed());
    assert Base(cfg, p, h, h.history);
    if notify && h.requestId != 0 {
      NoticeOk(cfg, p, h, WireReason(reason), io.clearRollbackOk, r, requested);
    } else {
      ClearOk(cfg, p, h, io.clearRollbackOk, r, requested);
    }
    GrownTransitive(f.history, h.history, Fail(f, reason, notify, io).history, p, r);
  }

  lemma NoticeOk(cfg: Config, p: Party, h: Flow, reason: Reason, saveOk: bool, r: RequestId, requested: Scopes)
    requires Sound(cfg, p, h, r, requested)
    ensures var g := Clear(SendMessage(h, Rejected(r, reason)), saveOk);
            Ok(cfg, p, g, r, requested) && Down(g) && Grown(h.history, g.history, p, r)
  {
    RejectOk(cfg, p, h, reason, r, requested);
    var k := SendMessage(h, Rejected(r, reason));
    ClearOk(cfg, p, k, saveOk, r, requested);
    GrownTransitive(h.history, k.history, Clear(k, saveOk).history, p, r);
  }

  // ---------- completing ----------

  lemma UpdateKnown(cfg: Config, t: seq<Event>, ds: seq<Device>, k: nat, d: Device)
    requires RecordsKnown(cfg, t, ds) && k < |ds|
    requires d.transactionId == ds[k].transactionId && d.permissionLimit == ds[k].permissionLimit
    ensures RecordsKnown(cfg, t, ds[k := d])
  {
    forall e, requested | e in ds[k := d] && Connected(e.transactionId, requested) in t
      ensures DecisionOf(cfg, Controlled, e.transactionId, e.permissionLimit) in t
    {
      var i :| 0 <= i < |ds| && ds[k := d][i] == e;
      assert ds[i] in ds && ds[i].transactionId == e.transactionId;
    }
  }

  lemma RefreshOk(cfg: Config, p: Party, f: Flow, io: Io, r: RequestId, requested: Scopes)
    requires Sound(cfg, p, f, r, requested)
    ensures var g := RefreshMetadata(f, io);
            && Sound(cfg, p, g, r, requested) && Grown(f.history, g.history, p, r)
            && g == f.(trust := g.trust, history := g.history)
            && (forall e :: e in f.history ==> e in g.history)
            && (forall e :: e in g.history && e !in f.history ==> e.Of? && e.effect.Saved?)
  {
    var (t, ok) := UpdateAuthenticated(f.trust, f.remoteDeviceId, f.remoteName, f.peer.certificate,
                                       io.now, io.metadataOk);
    if f.trusted && ok {
      var k := Find(f.trust.devices, f.remoteDeviceId);
      UpdateKnown(cfg, f.history, f.trust.devices, k, t.devices[k]);
      Logged(cfg, p, f.(trust := t), Saved(t.disk), r, requested);
    }
  }

  lemma CleanupOk(cfg: Config, p: Party, f: Flow, io: Io, r: RequestId, requested: Scopes)
    requires Sound(cfg, p, f, r, requested)
    ensures var g := Cleanup(f, io);
            && Sound(cfg, p, g, r, requested) && Grown(f.history, g.history, p, r)
            && g == f.(trust := g.trust, history := g.history)
            && (forall e :: e in f.history ==> e in g.history)
            && (forall e :: e in g.history && e !in f.history ==> e.Of? && e.effect.Saved?)
  {
    KeptMembers(f.trust.devices, f.trust.transactionDevice, f.requestId);
    var t := Complete(f.trust, f.requestId, io.completeOk).0;
    if CleanupSaves(f.trust, f.requestId, io.completeOk) {
      Logged(cfg, p, f.(trust := t), Saved(t.disk), r, requested);
    }
  }

  lemma FinishOk(cfg: Config, p: Party, f: Flow, io: Io, r: RequestId, requested: Scopes)
    requires Sound(cfg, p, f, r, requested) && f.requestId == r && f.Has(LocalCommitted)
    requires CommittedOf(cfg, Controller, r, f.effective) in f.history
    requires CommittedOf(cfg, Controlled, r, f.effective) in f.history
    requires exists own, theirs :: Of(p, Chosen(r, f.trusted, own, theirs)) in f.history
    requires forall ps, tr :: Of(p, Finished(r, ps, tr)) !in f.history
    ensures var g := Finish(f, io);
            Sound(cfg, p, g, r, requested) && Done(g) && Grown(f.history, g.history, p, r)
  {
    CleanupOk(cfg, p, f, io, r, requested);
    var g := Cleanup(f, io);
    FinishedJustified(cfg, p, f, g.history, r);
    SucceedOk(cfg, p, g, f.effective, f.trusted, r, requested);
    GrownTransitive(f.history, g.history, Finish(f, io).history, p, r);
  }

  lemma SucceedOk(cfg: Config, p: Party, f: Flow, permissions: Scopes, trusted: bool, r: RequestId,
                  requested: Scopes)
    requires Sound(cfg, p, f, r, requested) && f.requestId == r && f.Has(LocalCommitted)
    requires Justified(cfg, f.history, Of(p, Finished(r, permissions, trusted)))
    ensures var g := Succeed(f, permissions, trusted);
            Sound(cfg, p, g, r, requested) && Done(g) && Grown(f.history, g.history, p, r)
  {
    var h := f.(trusted := true, withinTrust := true, authenticated := true, active := false,
                promptVisible := false);
    Logged(cfg, p, h, Finished(r, permissions, trusted), r, requested);
  }

  lemma FinishedJustified(cfg: Config, p: Party, f: Flow, u: seq<Event>, r: RequestId)
    requires CommittedOf(cfg, Controller, r, f.effective) in f.history
    requires CommittedOf(cfg, Controlled, r, f.effective) in f.history
    requires exists own, theirs :: Of(p, Chosen(r, f.trusted, own, theirs)) in f.history
    requires forall ps, tr :: Of(p, Finished(r, ps, tr)) !in f.history
    requires forall e :: e in f.history ==> e in u
    requires forall e :: e in u && e !in f.history ==> e.Of? && e.effect.Saved?
    ensures Justified(cfg, u, Of(p, Finished(r, f.effective, f.trusted)))
  {
    var own, theirs :| Of(p, Chosen(r, f.trusted, own, theirs)) in f.history;
    assert Of(p, Chosen(r, f.trusted, own, theirs)) in u;
  }

  lemma TryCompleteOk(cfg: Config, p: Party, f: Flow, io: Io, r: RequestId, requested: Scopes)
    requires Sound(cfg, p, f, r, requested) && Engaged(cfg, p, f, f.history, r, requested)
    ensures var g := TryComplete(f, io); Ok(cfg, p, g, r, requested) && Grown(f.history, g.history, p, r)
  {
    if f.Tx().CommittedComplete() {
      RefreshOk(cfg, p, f, io, r, requested);
      var g := RefreshMetadata(f, io);
      var h := WithTx(g, g.Tx().MarkCompleted().0);
      assert f.Tx().PreparedComplete() && f.Has(LocalPrepared) && f.Has(HelloReceived);
      assert CommittedOf(cfg, p, r, f.effective) in g.history;
      assert CommittedOf(cfg, Other(p), r, f.effective) in g.history;
      assert Sound(cfg, p, h, r, requested);
      FinishOk(cfg, p, h, io, r, requested);
      GrownTransitive(f.history, g.history, TryComplete(f, io).history, p, r);
    }
  }

  // ---------- sending ----------

  lemma OutboxAfterSend(p: Party, f: Flow, m: Message, r: RequestId)
    requires f.self == p && Outbox(p, f, f.history, r) && m.requestId == r && !m.Rejected?
    requires TypeOf(m) !in f.command.cached
    ensures var g := SendMessage(f, m); Outbox(p, g, g.history, r)
  {
    var g := SendMessage(f, m);
    forall k | k in g.command.cached
      ensures var n := g.command.cached[k];
              !k.RejectedType? && TypeOf(n) == k && n.requestId == r && Of(p, Sent(n)) in g.history
    {
      if k != TypeOf(m) {
        assert k in f.command.cached;
      }
    }
  }

  lemma FirstSend(p: Party, f: Flow, m: Message, r: RequestId)
    requires Outbox(p, f, f.history, r) && m.requestId == r && TypeOf(m) !in f.command.cached
    requires !m.Rejected?
    ensures FirstOfItsType(f.history, p, m)
  {
  }

  lemma SendOk(cfg: Config, p: Party, f: Flow, m: Message, r: RequestId, requested: Scopes)
    requires Sound(cfg, p, f, r, requested) && Outbox(p, f, f.history, r)
    requires m.requestId == r && !m.Rejected? && TypeOf(m) !in f.command.cached
    requires FirstOfItsType(f.history, p, m) ==> JustifiedMessage(cfg, f.history, p, m)
    ensures var g := SendMessage(f, m);
            && Sound(cfg, p, g, r, requested) && Grown(f.history, g.history, p, r)
            && Outbox(p, g, g.history, r)
            && (forall e :: e in g.history <==> e in f.history || e == Of(p, Sent(m)))
  {
    FirstSend(p, f, m, r);
    OutboxAfterSend(p, f, m, r);
    assert Justified(cfg, f.history, Of(p, Sent(m)));
    Logged(cfg, p, f.(command := f.command.Cache(m)), Sent(m), r, requested);
  }

  lemma LocalBitsAfterSend(p: Party, f: Flow, flag: Flag, m: Message, r: RequestId, requested: Scopes)
    requires LocalBits(p, f, r, requested) && f.Tx().Mark(flag).1
    requires (flag.LocalPrepared? && m.Ready?) || (flag.LocalCommitted? && m.Committed?)
    requires m.permissions == f.effective == f.Effective() && ViewScreen in f.effective
    requires m.requestId == r && m.deviceId == f.localId
    ensures LocalBits(p, SendMessage(WithTx(f, f.Tx().Mark(flag).0), m), r, requested)
  {
  }

  /** A message and local bits do not touch what the endpoint has received and chosen. */
  lemma ReceivedAfterSend(cfg: Config, p: Party, f: Flow, g: Flow, m: Message, r: RequestId)
    requires RemoteBits(cfg, p, f, f.history, r) && Choice(p, f, f.history, r) && f.Has(HelloReceived)
    requires forall ps, tr :: Of(p, Finished(r, ps, tr)) !in f.history
    requires g.history == f.history + [Of(p, Sent(m))]
    requires g.Effective() == f.Effective() || (!f.Has(RemotePrepared) && !f.Has(RemoteCommitted))
    requires g.Tx().remotePermissions == f.Tx().remotePermissions
    requires g.trusted == f.trusted
    requires forall flag: Flag :: flag in {HelloReceived, RemoteDecision, RemotePrepared, RemoteCommitted} ==>
               (g.Has(flag) <==> f.Has(flag))
    ensures RemoteBits(cfg, p, g, g.history, r) && Choice(p, g, g.history, r)
    ensures forall ps, tr :: Of(p, Finished(r, ps, tr)) !in g.history
  {
    assert forall e :: e in f.history ==> e in g.history;
  }

  lemma CoreAfterSend(cfg: Config, p: Party, f: Flow, flag: Flag, m: Message, r: RequestId, requested: Scopes)
    requires Core(cfg, p, f, f.history, r, requested) && f.Tx().Mark(flag).1
    requires (flag.LocalPrepared? && m.Ready?) || (flag.LocalCommitted? && m.Committed?)
    requires m.permissions == f.effective == f.Effective() && ViewScreen in f.effective
    requires m.requestId == r && m.deviceId == f.localId
    requires var g := SendMessage(WithTx(f, f.Tx().Mark(flag).0), m); Outbox(p, g, g.history, r)
    requires f.self == p
    ensures var g := SendMessage(WithTx(f, f.Tx().Mark(flag).0), m);
            Core(cfg, p, g, g.history, r, requested)
  {
    LocalBitsAfterSend(p, f, flag, m, r, requested);
    assert f.Has(LocalDecision);
    ReceivedAfterSend(cfg, p, f, SendMessage(WithTx(f, f.Tx().Mark(flag).0), m), m, r);
  }

  // ---------- committing ----------

  lemma {:induction false} FindTransactionUpdate(ds: seq<Device>, r: RequestId, k: nat, d: Device)
    requires FindTransaction(ds, r) == k && d.transactionId == r
    ensures k < |ds| && FindTransaction(ds[k := d], r) == k
  {
    var u := ds[k := d];
    forall i | 0 <= i < k ensures u[i].transactionId != r {
      assert u[i] == ds[i];
    }
    assert u[k].transactionId == r;
  }

  lemma RecordHolds(cfg: Config, p: Party, f: Flow, t: seq<Event>, r: RequestId, state: CommitState)
    requires Recorded(f, r, state) && f.trust.disk == Disk(cfg, t, p) && f.peer == cfg.Face(Other(p))
    ensures Holds(Disk(cfg, t, p), r, cfg.Face(Other(p)), f.effective, state)
  {
    var k := FindTransaction(f.trust.devices, r);
    assert f.trust.devices[k] in f.trust.devices;
  }

  lemma CommittedJustified(cfg: Config, p: Party, f: Flow, r: RequestId, requested: Scopes)
    requires Sound(cfg, p, f, r, requested) && Core(cfg, p, f, f.history, r, requested)
    requires f.Tx().PreparedComplete() && !f.Has(LocalCommitted)
    requires f.trusted || Recorded(f, r, Mutual)
    ensures FirstOfItsType(f.history, p, Committed(r, f.localId, f.effective)) ==>
              JustifiedMessage(cfg, f.history, p, Committed(r, f.localId, f.effective))
  {
    assert f.Has(LocalPrepared);
    assert ReadyOf(cfg, p, r, f.effective) in f.history;
    assert ReadyOf(cfg, Other(p), r, f.effective) in f.history;
    if !f.trusted {
      RecordHolds(cfg, p, f, f.history, r, Mutual);
    }
    assert Durable(cfg, f.history, p, r, f.effective, Mutual);
  }

  /** Marking a bit and sending its message. */
  lemma MarkKeepsTrust(p: Party, f: Flow, flag: Flag, m: Message, r: RequestId)
    requires Announced(p, f) && f.Has(LocalDecision) && f.Tx().Mark(flag).1
    requires (flag.LocalPrepared? && m.Ready?) || (flag.LocalCommitted? && m.Committed? && f.Has(LocalPrepared))
    requires flag.LocalPrepared? ==> !f.Has(LocalCommitted)
    requires if f.trusted then Quiet(f, r) else Recorded(f, r, if flag.LocalPrepared? then Pending else Mutual)
    ensures var g := SendMessage(WithTx(f, f.Tx().Mark(flag).0), m);
            Announced(p, g) && TrustPhase(g, r)
  {
  }

  lemma MarkAndSend(cfg: Config, p: Party, f: Flow, flag: Flag, m: Message, r: RequestId, requested: Scopes)
    requires Sound(cfg, p, f, r, requested) && Core(cfg, p, f, f.history, r, requested) && Announced(p, f)
    requires f.Tx().Mark(flag).1
    requires (flag.LocalPrepared? && m.Ready?) || (flag.LocalCommitted? && m.Committed?)
    requires m.permissions == f.effective == f.Effective() && ViewScreen in f.effective
    requires m.requestId == r && m.deviceId == f.localId
    requires FirstOfItsType(f.history, p, m) ==> JustifiedMessage(cfg, f.history, p, m)
    requires if f.trusted then Quiet(f, r) else Recorded(f, r, if flag.LocalPrepared? then Pending else Mutual)
    ensures var g := SendMessage(WithTx(f, f.Tx().Mark(flag).0), m);
            && Sound(cfg, p, g, r, requested) && Engaged(cfg, p, g, g.history, r, requested)
            && Grown(f.history, g.history, p, r)
  {
    assert TypeOf(m) !in f.command.cached;
    SendOk(cfg, p, WithTx(f, f.Tx().Mark(flag).0), m, r, requested);
    CoreAfterSend(cfg, p, f, flag, m, r, requested);
    assert f.Has(LocalDecision);
    MarkKeepsTrust(p, f, flag, m, r);
  }

  lemma AnnounceCommittedOk(cfg: Config, p: Party, f: Flow, io: Io, r: RequestId, requested: Scopes)
    requires Sound(cfg, p, f, r, requested) && Core(cfg, p, f, f.history, r, requested) && Announced(p, f)
    requires f.Tx().PreparedComplete() && !f.Has(LocalCommitted)
    requires if f.trusted then Quiet(f, r) else Recorded(f, r, Mutual)
    ensures var g := AnnounceCommitted(f, io); Ok(cfg, p, g, r, requested) && Grown(f.history, g.history, p, r)
  {
    var m := Committed(r, f.localId, f.effective);
    CommittedJustified(cfg, p, f, r, requested);
    MarkAndSend(cfg, p, f, LocalCommitted, m, r, requested);
    CompleteBehind(cfg, p, f.history, SendMessage(WithTx(f, f.Tx().Mark(LocalCommitted).0), m), io, r, requested);
  }

  lemma CompleteBehind(cfg: Config, p: Party, t: seq<Event>, f: Flow, io: Io, r: RequestId, requested: Scopes)
    requires Sound(cfg, p, f, r, requested) && Engaged(cfg, p, f, f.history, r, requested)
    requires Grown(t, f.history, p, r)
    ensures var g := TryComplete(f, io); Ok(cfg, p, g, r, requested) && Grown(t, g.history, p, r)
  {
    TryCompleteOk(cfg, p, f, io, r, requested);
    GrownTransitive(t, f.history, TryComplete(f, io).history, p, r);
  }

  /** The Mutual save of an untrusted pairing. */
  lemma CommitSaved(cfg: Config, p: Party, f: Flow, io: Io, r: RequestId, requested: Scopes)
    requires Sound(cfg, p, f, r, requested) && Engaged(cfg, p, f, f.history, r, requested)
    requires f.Tx().PreparedComplete() && !f.Has(LocalCommitted) && !f.trusted
    ensures var (t, saved) := Commit(f.trust, r, f.remoteName, f.peer.certificate, io.now, io.commitOk);
            var g := f.(trust := t);
            if saved then
              var h := Log(g, Saved(t.disk));
              && Sound(cfg, p, h, r, requested) && Core(cfg, p, h, h.history, r, requested) && Announced(p, h)
              && Recorded(h, r, Mutual) && Grown(f.history, h.history, p, r)
            else Sound(cfg, p, g, r, requested)
  {
    assert Recorded(f, r, Pending);
    CommitRecorded(f, f.remoteName, f.peer.certificate, io.now, io.commitOk, r);
    var k := FindTransaction(f.trust.devices, r);
    var (t, saved) := Commit(f.trust, r, f.remoteName, f.peer.certificate, io.now, io.commitOk);
    UpdateKnown(cfg, f.history, f.trust.devices, k, t.devices[k]);
    if saved {
      CommitLogged(cfg, p, f, t, r, requested);
    }
  }

  /** What a commit of the open transaction does to the trust memory and the file. */
  lemma CommitRecorded(f: Flow, name: string, certificate: Digest, now: int, saveOk: bool, r: RequestId)
    requires Recorded(f, r, Pending) && r != 0
    ensures var (t, saved) := Commit(f.trust, r, name, certificate, now, saveOk);
            var k := FindTransaction(f.trust.devices, r);
            && |t.devices| == |f.trust.devices|
            && t.devices[k].transactionId == r && t.devices[k].permissionLimit == f.trust.devices[k].permissionLimit
            && t == f.trust.(devices := f.trust.devices[k := t.devices[k]], disk := t.disk)
            && t.disk == (if saved then t.devices else f.trust.disk)
            && (saved ==> Recorded(f.(trust := t), r, Mutual))
  {
    var (t, saved) := Commit(f.trust, r, name, certificate, now, saveOk);
    var k := FindTransaction(f.trust.devices, r);
    assert t.devices == f.trust.devices[k := t.devices[k]];
    FindTransactionUpdate(f.trust.devices, r, k, t.devices[k]);
  }

  lemma CommitLogged(cfg: Config, p: Party, f: Flow, t: Trust, r: RequestId, requested: Scopes)
    requires Sound(cfg, p, f, r, requested) && Core(cfg, p, f, f.history, r, requested) && Announced(p, f)
    requires f.Has(LocalDecision) && Recorded(f.(trust := t), r, Mutual)
    requires RecordsKnown(cfg, f.history, t.devices) && t.before == f.trust.before
    ensures var h := Log(f.(trust := t), Saved(t.disk));
            && Sound(cfg, p, h, r, requested) && Core(cfg, p, h, h.history, r, requested) && Announced(p, h)
            && Recorded(h, r, Mutual) && Grown(f.history, h.history, p, r)
  {
    Logged(cfg, p, f.(trust := t), Saved(t.disk), r, requested);
    CoreAfterSave(cfg, p, f, t, r, requested);
  }

  lemma TryCommitOk(cfg: Config, p: Party, f: Flow, io: Io, r: RequestId, requested: Scopes)
    requires Sound(cfg, p, f, r, requested) && Engaged(cfg, p, f, f.history, r, requested)
    ensures var g := TryCommit(f, io); Ok(cfg, p, g, r, requested) && Grown(f.history, g.history, p, r)
  {
    if f.Tx().PreparedComplete() && !f.Has(LocalCommitted) {
      if f.trusted {
        AnnounceCommittedOk(cfg, p, f, io, r, requested);
      } else {
        CommitSaved(cfg, p, f, io, r, requested);
        var (t, saved) := Commit(f.trust, r, f.remoteName, f.peer.certificate, io.now, io.commitOk);
        var g := f.(trust := t);
        if saved {
          var h := Log(g, Saved(t.disk));
          AnnounceCommittedOk(cfg, p, h, io, r, requested);
          GrownTransitive(f.history, h.history, TryCommit(f, io).history, p, r);
        } else {
          FailOk(cfg, p, g, IdentityUnavailable, true, io, r, requested);
        }
      }
    }
  }

  /** A save changes only the trust memory and the file. */
  lemma CoreAfterSave(cfg: Config, p: Party, f: Flow, t: Trust, r: RequestId, requested: Scopes)
    requires Core(cfg, p, f, f.history, r, requested) && Announced(p, f) && f.self == p
    ensures var h := Log(f.(trust := t), Saved(t.disk));
            && Core(cfg, p, h, h.history, r, requested)
            && (f.Has(LocalDecision) ==> Announced(p, h))
  {
    var h := Log(f.(trust := t), Saved(t.disk));
    assert forall e :: e in h.history <==> e in f.history || e == Of(p, Saved(t.disk));
  }

  // ---------- preparing ----------

  lemma ReadyJustified(cfg: Config, p: Party, f: Flow, r: RequestId, requested: Scopes)
    requires Sound(cfg, p, f, r, requested) && Core(cfg, p, f, f.history, r, requested)
    requires f.Tx().DecisionsComplete() && !f.Has(LocalPrepared)
    requires f.effective == f.Effective() && ViewScreen in f.effective
    requires f.trusted || Recorded(f, r, Pending)
    ensures FirstOfItsType(f.history, p, Ready(r, f.localId, f.effective)) ==>
              JustifiedMessage(cfg, f.history, p, Ready(r, f.localId, f.effective))
  {
    assert DecisionOf(cfg, p, r, f.Tx().localPermissions) in f.history;
    assert DecisionOf(cfg, Other(p), r, f.Tx().remotePermissions) in f.history;
    if !f.trusted {
      RecordHolds(cfg, p, f, f.history, r, Pending);
    }
    assert Durable(cfg, f.history, p, r, f.effective, Pending);
  }

  lemma AnnounceReadyOk(cfg: Config, p: Party, f: Flow, io: Io, r: RequestId, requested: Scopes)
    requires Sound(cfg, p, f, r, requested) && Core(cfg, p, f, f.history, r, requested) && Announced(p, f)
    requires f.Tx().DecisionsComplete() && !f.Has(LocalPrepared)
    requires f.effective == f.Effective() && ViewScreen in f.effective
    requires if f.trusted then Quiet(f, r) else Recorded(f, r, Pending)
    ensures var g := AnnounceReady(f, io); Ok(cfg, p, g, r, requested) && Grown(f.history, g.history, p, r)
  {
    var m := Ready(r, f.localId, f.effective);
    ReadyJustified(cfg, p, f, r, requested);
    MarkAndSend(cfg, p, f, LocalPrepared, m, r, requested);
    var h := SendMessage(WithTx(f, f.Tx().Mark(LocalPrepared).0), m);
    TryCommitOk(cfg, p, h, io, r, requested);
    var k := TryCommit(h, io);
    CompleteAfterwards(cfg, p, k, io, r, requested);
    GrownTransitive(f.history, h.history, k.history, p, r);
    GrownTransitive(f.history, k.history, AnnounceReady(f, io).history, p, r);
  }

  /** The extra `tryComplete` after a commit. */
  lemma CompleteAfterwards(cfg: Config, p: Party, f: Flow, io: Io, r: RequestId, requested: Scopes)
    requires Ok(cfg, p, f, r, requested)
    ensures var g := TryComplete(f, io); Ok(cfg, p, g, r, requested) && Grown(f.history, g.history, p, r)
  {
    if Engaged(cfg, p, f, f.history, r, requested) {
      TryCompleteOk(cfg, p, f, io, r, requested);
    } else {
      assert TryComplete(f, io) == f;
    }
  }

  lemma CommitAfterwards(cfg: Config, p: Party, f: Flow, io: Io, r: RequestId, requested: Scopes)
    requires Ok(cfg, p, f, r, requested)
    ensures var g := TryCommit(f, io); Ok(cfg, p, g, r, requested) && Grown(f.history, g.history, p, r)
  {
    if Engaged(cfg, p, f, f.history, r, requested) {
      TryCommitOk(cfg, p, f, io, r, requested);
    } else {
      assert TryCommit(f, io) == f;
    }
  }

  /** The Pending save of an untrusted pairing. */
  lemma PrepareSaved(cfg: Config, p: Party, f: Flow, io: Io, r: RequestId, requested: Scopes)
    requires Sound(cfg, p, f, r, requested) && Engaged(cfg, p, f, f.history, r, requested)
    requires f.Tx().DecisionsComplete() && !f.Has(LocalPrepared) && !f.trusted
    requires f.effective == f.Effective() && ViewScreen in f.effective
    ensures var (t, saved) := Prepare(f.trust, r, f.peer, f.remoteName, f.effective, io.now, io.prepareOk);
            var g := f.(trust := t);
            if saved then
              var h := Log(g, Saved(t.disk));
              && Sound(cfg, p, h, r, requested) && Core(cfg, p, h, h.history, r, requested) && Announced(p, h)
              && Recorded(h, r, Pending) && Grown(f.history, h.history, p, r)
            else Sound(cfg, p, g, r, requested)
  {
    var (t, saved) := Prepare(f.trust, r, f.peer, f.remoteName, f.effective, io.now, io.prepareOk);
    var d := NewRecord(r, f.peer, f.remoteName, f.effective, io.now);
    if saved {
      assert DecisionOf(cfg, Controlled, r, f.effective) in f.history;
      assert RecordsKnown(cfg, f.history, f.trust.devices + [d]);
      FindTransactionAppend(f.trust.devices, d);
      Logged(cfg, p, f.(trust := t), Saved(t.disk), r, requested);
      CoreAfterSave(cfg, p, f, t, r, requested);
    }
  }

  lemma TryPrepareOk(cfg: Config, p: Party, f: Flow, io: Io, r: RequestId, requested: Scopes)
    requires Sound(cfg, p, f, r, requested) && Engaged(cfg, p, f, f.history, r, requested)
    ensures var g := TryPrepare(f, io); Ok(cfg, p, g, r, requested) && Grown(f.history, g.history, p, r)
  {
    if f.Tx().DecisionsComplete() && !f.Has(LocalPrepared) {
      if ViewScreen !in f.Effective() {
        FailOk(cfg, p, f, PairingRejected, true, io, r, requested);
      } else {
        EffectiveChosen(cfg, p, f, r, requested);
        PrepareAndAnnounceOk(cfg, p, f.(effective := f.Effective()), io, r, requested);
      }
    }
  }

  lemma EffectiveChosen(cfg: Config, p: Party, f: Flow, r: RequestId, requested: Scopes)
    requires Sound(cfg, p, f, r, requested) && Engaged(cfg, p, f, f.history, r, requested)
    requires !f.Has(LocalPrepared)
    ensures var g := f.(effective := f.Effective());
            Sound(cfg, p, g, r, requested) && Engaged(cfg, p, g, g.history, r, requested)
  {
  }

  lemma PrepareAndAnnounceOk(cfg: Config, p: Party, f: Flow, io: Io, r: RequestId, requested: Scopes)
    requires Sound(cfg, p, f, r, requested) && Engaged(cfg, p, f, f.history, r, requested)
    requires f.Tx().DecisionsComplete() && !f.Has(LocalPrepared)
    requires f.effective == f.Effective() && ViewScreen in f.effective
    ensures var g := PrepareAndAnnounce(f, io); Ok(cfg, p, g, r, requested) && Grown(f.history, g.history, p, r)
  {
    if f.trusted {
      AnnounceReadyOk(cfg, p, f, io, r, requested);
    } else {
      PrepareSaved(cfg, p, f, io, r, requested);
      var (t, saved) := Prepare(f.trust, r, f.peer, f.remoteName, f.effective, io.now, io.prepareOk);
      if saved {
        var h := Log(f.(trust := t), Saved(t.disk));
        AnnounceReadyOk(cfg, p, h, io, r, requested);
        GrownTransitive(f.history, h.history, PrepareAndAnnounce(f, io).history, p, r);
      } else {
        FailOk(cfg, p, f.(trust := t), IdentityUnavailable, true, io, r, requested);
      }
    }
  }

  // ---------- deciding ----------

  lemma LocalBitsAfterDecision(p: Party, f: Flow, permissions: Scopes, r: RequestId, requested: Scopes)
    requires LocalBits(p, f, r, requested) && f.Tx().Active() && f.Tx().Ordered() && !f.Has(LocalDecision)
    requires p.Controlled? ==> permissions <= requested
    ensures var (t, ok) := f.Tx().MarkLocalDecision(permissions);
            var g := SendMessage(WithTx(f, t), Decision(r, f.localId, true, permissions));
            ok && t.Active() && t.Ordered() && LocalBits(p, g, r, requested)
  {
  }

  lemma DecisionJustified(cfg: Config, p: Party, f: Flow, permissions: Scopes, r: RequestId, requested: Scopes)
    requires SessionOpen(f.history, r, requested) && Choice(p, f, f.history, r) && f.Has(HelloReceived)
    requires p.Controlled? ==> permissions <= requested
    requires f.localId == cfg.Face(p).deviceId
    ensures FirstOfItsType(f.history, p, Decision(r, f.localId, true, permissions)) ==>
              JustifiedMessage(cfg, f.history, p, Decision(r, f.localId, true, permissions))
  {
  }

  /** The endpoint with its decision made and sent. */
  function Decided(f: Flow, permissions: Scopes, r: RequestId): Flow {
    SendMessage(WithTx(f, f.Tx().MarkLocalDecision(permissions).0), Decision(r, f.localId, true, permissions))
  }

  lemma DecisionGoesOut(cfg: Config, p: Party, f: Flow, permissions: Scopes, r: RequestId, requested: Scopes)
    requires Sound(cfg, p, f, r, requested) && Engaged(cfg, p, f, f.history, r, requested)
    requires f.Has(HelloReceived) && !f.Has(LocalDecision) && (p.Controlled? ==> permissions <= requested)
    ensures var h := Decided(f, permissions, r);
            Sound(cfg, p, h, r, requested) && Grown(f.history, h.history, p, r) && Outbox(p, h, h.history, r)
  {
    DecisionJustified(cfg, p, f, permissions, r, requested);
    SendOk(cfg, p, WithTx(f, f.Tx().MarkLocalDecision(permissions).0), Decision(r, f.localId, true, permissions),
           r, requested);
  }

  lemma DecisionCore(cfg: Config, p: Party, f: Flow, permissions: Scopes, r: RequestId, requested: Scopes)
    requires Core(cfg, p, f, f.history, r, requested) && f.self == p
    requires f.Has(HelloReceived) && !f.Has(LocalDecision) && (p.Controlled? ==> permissions <= requested)
    requires Outbox(p, Decided(f, permissions, r), Decided(f, permissions, r).history, r)
    ensures var h := Decided(f, permissions, r);
            f.Tx().MarkLocalDecision(permissions).1 && Core(cfg, p, h, h.history, r, requested)
  {
    assert !f.Has(LocalPrepared) && !f.Has(RemotePrepared) && !f.Has(RemoteCommitted);
    LocalBitsAfterDecision(p, f, permissions, r, requested);
    ReceivedAfterSend(cfg, p, f, Decided(f, permissions, r), Decision(r, f.localId, true, permissions), r);
  }

  lemma DecisionKeepsTrust(p: Party, f: Flow, permissions: Scopes, r: RequestId)
    requires Announced(p, f) && TrustPhase(f, r) && f.Tx().Ordered() && !f.Has(LocalDecision)
    requires f.Tx().MarkLocalDecision(permissions).1
    ensures Announced(p, Decided(f, permissions, r)) && TrustPhase(Decided(f, permissions, r), r)
  {
    assert !f.Has(LocalPrepared);
  }

  lemma DecisionSent(cfg: Config, p: Party, f: Flow, permissions: Scopes, r: RequestId, requested: Scopes)
    requires Sound(cfg, p, f, r, requested) && Engaged(cfg, p, f, f.history, r, requested)
    requires f.Has(HelloReceived) && !f.Has(LocalDecision) && (p.Controlled? ==> permissions <= requested)
    ensures var g := Decided(f, permissions, r);
            && f.Tx().MarkLocalDecision(permissions).1
            && Sound(cfg, p, g, r, requested) && Engaged(cfg, p, g, g.history, r, requested)
            && Grown(f.history, g.history, p, r)
  {
    DecisionGoesOut(cfg, p, f, permissions, r, requested);
    DecisionCore(cfg, p, f, permissions, r, requested);
    DecisionKeepsTrust(p, f, permissions, r);
  }

  lemma SendDecisionOk(cfg: Config, p: Party, f: Flow, permissions: Scopes, io: Io, r: RequestId, requested: Scopes)
    requires Sound(cfg, p, f, r, requested) && Engaged(cfg, p, f, f.history, r, requested)
    requires f.Has(HelloReceived) && (p.Controlled? ==> permissions <= requested)
    ensures var g := SendDecision(f, permissions, io);
            Ok(cfg, p, g, r, requested) && Grown(f.history, g.history, p, r)
  {
    if !f.Has(LocalDecision) {
      DecisionSent(cfg, p, f, permissions, r, requested);
      var g := Decided(f, permissions, r);
      TryPrepareOk(cfg, p, g, io, r, requested);
      GrownTransitive(f.history, g.history, TryPrepare(g, io).history, p, r);
    } else {
      assert SendDecision(f, permissions, io) == f;
    }
  }

  // ---------- the Hello ----------

  lemma HelloPermissions(cfg: Config, t: seq<Event>, p: Party, m: Message, r: RequestId, requested: Scopes)
    requires Good(cfg, t) && SessionOpen(t, r, requested)
    requires Of(p, Sent(m)) in t && m.Hello? && m.requestId == r
    ensures m.permissions == requested
  {
    var n := Locate(cfg, t, Of(p, Sent(m)));
    var c := Locate(cfg, t, Connected(r, requested));
    assert JustifiedMessage(cfg, t[..n], p, m);
    assert Mentions(t[n], r);
    if c < n {
      Before(t, c, n);
    } else if n < c {
      Before(t, n, c);
    }
  }

  /** The Hello an endpoint sends when the transaction is open and untouched. */
  lemma SendHelloOk(cfg: Config, p: Party, f: Flow, r: RequestId, requested: Scopes)
    requires Sound(cfg, p, f, r, requested) && Core(cfg, p, f, f.history, r, requested)
    requires !f.Has(HelloSent) && !f.Has(LocalDecision) && !f.Has(LocalPrepared) && Quiet(f, r)
    requires p.Controlled? ==> exists tr, th ::
      Of(p, Chosen(r, tr, MutualCommitId(f.trust.devices, f.remoteDeviceId, f.peer.spki), th)) in f.history
    ensures var g := SendHello(f);
            && Sound(cfg, p, g, r, requested) && Engaged(cfg, p, g, g.history, r, requested)
            && Grown(f.history, g.history, p, r)
            && g.Tx().progress == f.Tx().progress + {HelloSent} && g.trust == f.trust
  {
    var commitId := MutualCommitId(f.trust.devices, f.remoteDeviceId, f.peer.spki);
    var m := Hello(r, f.localId, f.localName, true, commitId, f.requested);
    var g := WithTx(f, f.Tx().Mark(HelloSent).0);
    HelloJustified(cfg, p, f, m, r, requested);
    SendOk(cfg, p, g, m, r, requested);
    var h := SendMessage(g, m);
    BitsAfterHello(cfg, p, f, m, r, requested);
    assert Core(cfg, p, h, h.history, r, requested);
  }

  lemma HelloJustified(cfg: Config, p: Party, f: Flow, m: Message, r: RequestId, requested: Scopes)
    requires SessionOpen(f.history, r, requested) && m.Hello? && m.requestId == r && m.permissions == requested
    requires p.Controlled? ==> exists tr, th :: Of(p, Chosen(r, tr, m.trustCommitId, th)) in f.history
    ensures FirstOfItsType(f.history, p, m) ==> JustifiedMessage(cfg, f.history, p, m)
  {
  }

  lemma BitsAfterHello(cfg: Config, p: Party, f: Flow, m: Message, r: RequestId, requested: Scopes)
    requires LocalBits(p, f, r, requested) && RemoteBits(cfg, p, f, f.history, r) && Choice(p, f, f.history, r)
    requires f.Tx().Active() && f.Tx().Ordered() && !f.Has(HelloSent) && m.Hello?
    requires forall ps, tr :: Of(p, Finished(r, ps, tr)) !in f.history
    requires f.self == p
    ensures var g := SendMessage(WithTx(f, f.Tx().Mark(HelloSent).0), m);
            && g.Tx().Active() && g.Tx().Ordered()
            && LocalBits(p, g, r, requested) && RemoteBits(cfg, p, g, g.history, r) && Choice(p, g, g.history, r)
            && (forall ps, tr :: Of(p, Finished(r, ps, tr)) !in g.history)
  {
    var g := SendMessage(WithTx(f, f.Tx().Mark(HelloSent).0), m);
    assert forall e :: e in g.history <==> e in f.history || e == Of(p, Sent(m));
  }

  lemma PartsAfterChoice(cfg: Config, p: Party, f: Flow, theirs: RequestId, r: RequestId, requested: Scopes)
    requires Body(cfg, p, f, f.history, r, requested) && Undecided(p, f, f.history, r)
    requires f.Has(HelloReceived) && f.self == p && f.requestId == r
    ensures var h := RecordChoice(f, theirs);
            && Outbox(p, h, h.history, r) && RemoteBits(cfg, p, h, h.history, r)
            && Choice(p, h, h.history, r)
            && (forall ps, tr :: Of(p, Finished(r, ps, tr)) !in h.history)
  {
    var own := MutualCommitId(f.trust.devices, f.remoteDeviceId, f.peer.spki);
    var h := RecordChoice(f, theirs);
    assert forall e :: e in h.history <==> e in f.history || e == Of(p, Chosen(r, f.trusted, own, theirs));
  }

  /** Recording a choice made by the rule. */
  lemma ChooseOk(cfg: Config, p: Party, f: Flow, m: Message, r: RequestId, requested: Scopes)
    requires Sound(cfg, p, f, r, requested) && Body(cfg, p, f, f.history, r, requested)
    requires f.Has(HelloReceived) && Undecided(p, f, f.history, r) && !f.Has(LocalPrepared)
    requires Quiet(f, r) && Announced(p, f)
    requires Of(Other(p), Sent(m)) in f.history && m.Hello? && m.requestId == r
    requires f.trusted == IsMutuallyTrusted(f.trust.devices, f.remoteDeviceId, f.peer.spki, m.trustCommitId)
    ensures var h := RecordChoice(f, m.trustCommitId);
            && Sound(cfg, p, h, r, requested) && Engaged(cfg, p, h, h.history, r, requested)
            && Grown(f.history, h.history, p, r)
            && h == f.(history := h.history)
  {
    ChoiceJustified(cfg, p, f, m, r, requested);
    Logged(cfg, p, f, Chosen(r, f.trusted, MutualCommitId(f.trust.devices, f.remoteDeviceId, f.peer.spki),
                             m.trustCommitId), r, requested);
    PartsAfterChoice(cfg, p, f, m.trustCommitId, r, requested);
  }

  lemma ChoiceJustified(cfg: Config, p: Party, f: Flow, m: Message, r: RequestId, requested: Scopes)
    requires Sound(cfg, p, f, r, requested) && Outbox(p, f, f.history, r)
    requires f.remoteDeviceId == f.peer.deviceId
    requires Undecided(p, f, f.history, r) && Quiet(f, r) && Announced(p, f)
    requires Of(Other(p), Sent(m)) in f.history && m.Hello? && m.requestId == r
    requires f.trusted == IsMutuallyTrusted(f.trust.devices, f.remoteDeviceId, f.peer.spki, m.trustCommitId)
    ensures JustifiedChoice(cfg, f.history, p, r, f.trusted,
                            MutualCommitId(f.trust.devices, f.remoteDeviceId, f.peer.spki), m.trustCommitId)
  {
    if p.Controller? {
      assert Of(p, Sent(f.command.cached[HelloType])) in f.history;
    }
  }

  /** A trust inspection that does not refuse the peer applies the rule of mutual trust. */
  lemma InspectionRule(f: Flow, theirs: RequestId)
    ensures var (g, refused) := InspectPeerTrust(f, theirs);
            && g == f.(trusted := g.trusted, withinTrust := g.withinTrust)
            && (refused.None? ==>
                  g.trusted == IsMutuallyTrusted(f.trust.devices, f.remoteDeviceId, f.peer.spki, theirs))
  {
  }

  lemma PromptOk(cfg: Config, p: Party, f: Flow, io: Io, r: RequestId, requested: Scopes)
    requires Sound(cfg, p, f, r, requested) && Engaged(cfg, p, f, f.history, r, requested)
    ensures var g := BeginPairingOrAutomaticDecision(f, io);
            Ok(cfg, p, g, r, requested) && Grown(f.history, g.history, p, r)
  {
    var k := Find(f.trust.devices, f.remoteDeviceId);
    if !f.Has(HelloReceived) || f.Tx().localPermissions != {} || f.promptVisible {
    } else if f.trusted && k >= 0 {
      var permissions := if f.outgoing then f.requested else f.trust.devices[k].permissionLimit * f.requested;
      SendDecisionOk(cfg, p, f, permissions, io, r, requested);
    } else if !io.verificationOk {
      FailOk(cfg, p, f, ChannelBindingUnavailable, true, io, r, requested);
    } else {
      PromptShown(cfg, p, f, r, requested);
    }
  }

  lemma PromptShown(cfg: Config, p: Party, f: Flow, r: RequestId, requested: Scopes)
    requires Sound(cfg, p, f, r, requested) && Engaged(cfg, p, f, f.history, r, requested) && f.Has(HelloReceived)
    ensures Ok(cfg, p, f.(promptVisible := true), r, requested)
  {
    assert Engaged(cfg, p, f.(promptVisible := true), f.history, r, requested);
  }

  lemma InspectedOk(cfg: Config, p: Party, f: Flow, m: Message, r: RequestId, requested: Scopes)
    requires Sound(cfg, p, f, r, requested) && Body(cfg, p, f, f.history, r, requested)
    requires Undecided(p, f, f.history, r) && Quiet(f, r) && Announced(p, f) && !f.Has(LocalPrepared)
    requires m.Hello?
    ensures var g := InspectPeerTrust(Named(f, m), m.trustCommitId).0;
            && Sound(cfg, p, g, r, requested) && Body(cfg, p, g, g.history, r, requested)
            && Undecided(p, g, g.history, r) && Quiet(g, r) && Announced(p, g)
            && g.history == f.history && g.Tx() == f.Tx() && g.requestId == r
  {
    InspectionRule(Named(f, m), m.trustCommitId);
  }

  lemma AcceptHelloOk(cfg: Config, p: Party, f: Flow, m: Message, io: Io, r: RequestId, requested: Scopes)
    requires Sound(cfg, p, f, r, requested) && Body(cfg, p, f, f.history, r, requested)
    requires f.Has(HelloReceived) && Undecided(p, f, f.history, r) && !f.Has(LocalPrepared)
    requires Quiet(f, r) && Announced(p, f)
    requires p.Controller? ==> f.Has(HelloSent)
    requires Of(Other(p), Sent(m)) in f.history && m.Hello? && m.requestId == r
    ensures var g := AcceptHello(f, m, io); Ok(cfg, p, g, r, requested) && Grown(f.history, g.history, p, r)
  {
    InspectedOk(cfg, p, f, m, r, requested);
    InspectionRule(Named(f, m), m.trustCommitId);
    var (g, refused) := InspectPeerTrust(Named(f, m), m.trustCommitId);
    if refused.Some? {
      FailOk(cfg, p, g, refused.value, true, io, r, requested);
    } else {
      ChooseOk(cfg, p, g, m, r, requested);
      var h := RecordChoice(g, m.trustCommitId);
      ContinueHelloOk(cfg, p, h, m.trustCommitId, io, r, requested);
      GrownTransitive(f.history, h.history, ContinueHello(h, io).history, p, r);
    }
  }

  lemma ContinueHelloOk(cfg: Config, p: Party, h: Flow, theirs: RequestId, io: Io, r: RequestId,
                        requested: Scopes)
    requires Sound(cfg, p, h, r, requested) && Engaged(cfg, p, h, h.history, r, requested)
    requires !h.Has(LocalDecision) && !h.Has(LocalPrepared) && (p.Controller? ==> h.Has(HelloSent))
    requires Of(p, Chosen(r, h.trusted, MutualCommitId(h.trust.devices, h.remoteDeviceId, h.peer.spki), theirs))
             in h.history
    ensures var g := ContinueHello(h, io);
            Ok(cfg, p, g, r, requested) && Grown(h.history, g.history, p, r)
  {
    if h.Has(HelloSent) {
      PromptOk(cfg, p, h, io, r, requested);
    } else {
      SendHelloOk(cfg, p, h, r, requested);
      PromptOk(cfg, p, SendHello(h), io, r, requested);
      GrownTransitive(h.history, SendHello(h).history, ContinueHello(h, io).history, p, r);
    }
  }
}
