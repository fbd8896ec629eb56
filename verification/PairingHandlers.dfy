/** Every entry point of the flow keeps the invariant of PairingInvariant. */
module PairingHandlers {
  import opened Wrappers
  import opened PairingTypes
  import opened TrustedDevices
  import opened PairingTransactions
  import opened AuthenticationFlow
  import opened PairingTrace
  import opened TrustRecovery
  import opened PairingInvariant

  /** A message the peer originated in this session. */
  ghost predicate FromPeer(t: seq<Event>, p: Party, m: Message, r: RequestId) {
    Of(Other(p), Sent(m)) in t && m.requestId == r
  }

  lemma NewHelloOk(cfg: Config, p: Party, f: Flow, m: Message, io: Io, r: RequestId, requested: Scopes)
    requires Ok(cfg, p, f, r, requested) && f.active && FromPeer(f.history, p, m, r) && m.Hello?
    requires f.command.ClassifyHello(m, f.generation).NewHello?
    ensures var g := HandleNewHello(f, m, io); Ok(cfg, p, g, r, requested) && Grown(f.history, g.history, p, r)
  {
    if !m.standardMethod {
      FailOk(cfg, p, f, ProtocolIncompatible, true, io, r, requested);
    } else if m.deviceId != f.peer.deviceId {
      FailOk(cfg, p, f, DeviceKeyChanged, true, io, r, requested);
    } else if p.Controller? {
      ControllerHelloOk(cfg, p, f, m, io, r, requested);
    } else {
      ControlledHelloOk(cfg, p, f, m, io, r, requested);
    }
  }

  lemma ControllerHelloOk(cfg: Config, p: Party, f: Flow, m: Message, io: Io, r: RequestId, requested: Scopes)
    requires Ok(cfg, p, f, r, requested) && f.active && FromPeer(f.history, p, m, r) && m.Hello?
    requires f.command.ClassifyHello(m, f.generation).NewHello? && p.Controller?
    requires m.standardMethod && m.deviceId == f.peer.deviceId
    ensures var g := HandleNewHello(f, m, io); Ok(cfg, p, g, r, requested) && Grown(f.history, g.history, p, r)
  {
    assert Undecided(p, f, f.history, r) && !f.Has(LocalPrepared);
    ReceivedHello(cfg, p, f, r, requested);
    AcceptHelloOk(cfg, p, WithTx(f, f.Tx().Mark(HelloReceived).0), m, io, r, requested);
  }

  lemma ControlledHelloOk(cfg: Config, p: Party, f: Flow, m: Message, io: Io, r: RequestId, requested: Scopes)
    requires Ok(cfg, p, f, r, requested) && f.active && FromPeer(f.history, p, m, r) && m.Hello?
    requires f.command.ClassifyHello(m, f.generation).NewHello? && p.Controlled?
    requires m.standardMethod && m.deviceId == f.peer.deviceId
    ensures var g := HandleNewHello(f, m, io); Ok(cfg, p, g, r, requested) && Grown(f.history, g.history, p, r)
  {
    HelloPermissions(cfg, f.history, Controller, m, r, requested);
    StartedByHello(cfg, p, f, m, r, requested);
    var g := AdoptRequest(f, m);
    AcceptHelloOk(cfg, p, WithTx(g, g.Tx().Mark(HelloReceived).0), m, io, r, requested);
  }

  lemma ReceivedHello(cfg: Config, p: Party, f: Flow, r: RequestId, requested: Scopes)
    requires Ok(cfg, p, f, r, requested) && Engaged(cfg, p, f, f.history, r, requested) && p.Controller?
    requires !f.Has(HelloReceived)
    ensures var g := WithTx(f, f.Tx().Mark(HelloReceived).0);
            && Sound(cfg, p, g, r, requested) && Body(cfg, p, g, g.history, r, requested)
            && Undecided(p, g, g.history, r) && Quiet(g, r) && Announced(p, g)
            && !g.Has(LocalPrepared) && g.Has(HelloReceived)
  {
    var g := WithTx(f, f.Tx().Mark(HelloReceived).0);
    assert !f.Has(LocalDecision) && !f.Has(RemoteDecision) && !f.Has(LocalPrepared);
    assert LocalBits(p, g, r, requested) && RemoteBits(cfg, p, g, g.history, r);
  }

  lemma StartedByHello(cfg: Config, p: Party, f: Flow, m: Message, r: RequestId, requested: Scopes)
    requires Sound(cfg, p, f, r, requested) && Waiting(p, f, f.history, r)
    ensures var g := f.(requestId := r, requested := requested,
                        command := NoCommand.(transaction := Begin(r, f.generation)));
            var h := WithTx(g, g.Tx().Mark(HelloReceived).0);
            && g.Tx().Mark(HelloReceived).1
            && Sound(cfg, p, h, r, requested) && Body(cfg, p, h, h.history, r, requested)
            && Undecided(p, h, h.history, r) && Quiet(h, r) && Announced(p, h)
            && !h.Has(LocalPrepared) && h.Has(HelloReceived)
  {
    forall n | Of(p, Sent(n)) in f.history ensures n.requestId != r {
      assert !Mentions(Of(p, Sent(n)), r);
    }
    forall tr, own, theirs ensures Of(p, Chosen(r, tr, own, theirs)) !in f.history {
      assert Mentions(Of(p, Chosen(r, tr, own, theirs)), r);
    }
    forall ps, tr ensures Of(p, Finished(r, ps, tr)) !in f.history {
      assert Mentions(Of(p, Finished(r, ps, tr)), r);
    }
  }

  /** A duplicate Hello changes nothing and repeats the latest response, which was originated. */
  lemma DuplicateHelloOk(cfg: Config, p: Party, f: Flow, m: Message, io: Io, r: RequestId, requested: Scopes)
    requires Ok(cfg, p, f, r, requested) && f.active && m.Hello?
    requires f.command.ClassifyHello(m, f.generation).DuplicateHello?
    ensures var g := HandleHello(f, m, io);
            && Ok(cfg, p, g, r, requested) && Grown(f.history, g.history, p, r)
            && g == f.(history := g.history)
  {
    var response := f.command.Replay();
    if response.Some? {
      assert Of(p, Sent(response.value)) in f.history;
      Logged(cfg, p, f, Replayed(response.value), r, requested);
      HistoryOnly(cfg, p, f, Replayed(response.value), r, requested);
    }
  }

  /** Events other than own messages, choices and outcomes leave a live transaction alone. */
  lemma HistoryOnly(cfg: Config, p: Party, f: Flow, e: Effect, r: RequestId, requested: Scopes)
    requires Engaged(cfg, p, f, f.history, r, requested) && f.self == p
    requires e.Replayed? || (e.Sent? && e.message.Rejected?)
    ensures Engaged(cfg, p, Log(f, e), Log(f, e).history, r, requested)
  {
    var t := Log(f, e).history;
    assert forall d :: d in t <==> d in f.history || d == Of(p, e);
    assert Outbox(p, f, t, r) && Choice(p, f, t, r);
  }

  lemma HelloOk(cfg: Config, p: Party, f: Flow, m: Message, io: Io, r: RequestId, requested: Scopes)
    requires Ok(cfg, p, f, r, requested) && f.active && FromPeer(f.history, p, m, r) && m.Hello?
    ensures var g := HandleHello(f, m, io); Ok(cfg, p, g, r, requested) && Grown(f.history, g.history, p, r)
  {
    match f.command.ClassifyHello(m, f.generation)
    case ConflictingRequest =>
      assert false;
    case ConflictingPayload =>
      FailOk(cfg, p, f, ProtocolIncompatible, true, io, r, requested);
    case DuplicateHello =>
      DuplicateHelloOk(cfg, p, f, m, io, r, requested);
    case NewHello =>
      NewHelloOk(cfg, p, f, m, io, r, requested);
  }

  lemma PeerDecision(cfg: Config, t: seq<Event>, p: Party, m: Message)
    requires Good(cfg, t) && Of(p, Sent(m)) in t && m.Decision?
    ensures m.accepted && m.deviceId == cfg.Face(p).deviceId
  {
    var n := Locate(cfg, t, Of(p, Sent(m)));
    assert JustifiedMessage(cfg, t[..n], p, m);
  }

  lemma DecisionOk(cfg: Config, p: Party, f: Flow, m: Message, io: Io, r: RequestId, requested: Scopes)
    requires Sound(cfg, p, f, r, requested) && Engaged(cfg, p, f, f.history, r, requested)
    requires FromPeer(f.history, p, m, r) && m.Decision?
    ensures var g := HandleDecision(f, m, io); Ok(cfg, p, g, r, requested) && Grown(f.history, g.history, p, r)
  {
    PeerDecision(cfg, f.history, Other(p), m);
    assert m == DecisionOf(cfg, Other(p), r, m.permissions).effect.message;
    if f.Has(HelloReceived) && m.deviceId == f.peer.deviceId {
      TakenDecisionOk(cfg, p, f, m, io, r, requested);
    }
  }

  lemma TakenDecisionOk(cfg: Config, p: Party, f: Flow, m: Message, io: Io, r: RequestId, requested: Scopes)
    requires Sound(cfg, p, f, r, requested) && Engaged(cfg, p, f, f.history, r, requested)
    requires m.Decision? && m.accepted && DecisionOf(cfg, Other(p), r, m.permissions) in f.history
    requires f.Has(HelloReceived) && m.deviceId == f.peer.deviceId
    ensures var g := HandleDecision(f, m, io); Ok(cfg, p, g, r, requested) && Grown(f.history, g.history, p, r)
  {
    var (t, ok) := f.Tx().MarkRemoteDecision(m.permissions);
    if ok {
      RemoteDecided(cfg, p, f, m, r, requested);
      TryPrepareOk(cfg, p, WithTx(f, t), io, r, requested);
    } else {
      assert WithTx(f, t) == f;
    }
  }

  lemma RemoteDecided(cfg: Config, p: Party, f: Flow, m: Message, r: RequestId, requested: Scopes)
    requires Sound(cfg, p, f, r, requested) && Engaged(cfg, p, f, f.history, r, requested)
    requires m.Decision? && DecisionOf(cfg, Other(p), r, m.permissions) in f.history
    requires f.Has(HelloReceived) && !f.Has(RemoteDecision)
    ensures var g := WithTx(f, f.Tx().MarkRemoteDecision(m.permissions).0);
            Sound(cfg, p, g, r, requested) && Engaged(cfg, p, g, g.history, r, requested)
  {
    TxKeepsSound(cfg, p, f, f.Tx().MarkRemoteDecision(m.permissions).0, r, requested);
    RemoteDecidedEngaged(cfg, p, f, m, r, requested);
  }

  lemma TxKeepsSound(cfg: Config, p: Party, f: Flow, t: Transaction, r: RequestId, requested: Scopes)
    requires Sound(cfg, p, f, r, requested)
    ensures Sound(cfg, p, WithTx(f, t), r, requested)
  {
  }

  lemma RemoteDecidedEngaged(cfg: Config, p: Party, f: Flow, m: Message, r: RequestId, requested: Scopes)
    requires Engaged(cfg, p, f, f.history, r, requested)
    requires m.Decision? && DecisionOf(cfg, Other(p), r, m.permissions) in f.history
    requires f.Has(HelloReceived) && !f.Has(RemoteDecision)
    ensures var g := WithTx(f, f.Tx().MarkRemoteDecision(m.permissions).0);
            Engaged(cfg, p, g, g.history, r, requested)
  {
    assert !f.Has(LocalPrepared) && !f.Has(RemotePrepared) && !f.Has(RemoteCommitted) && !f.Has(LocalCommitted);
    RemoteDecidedBits(cfg, p, f, m, r, requested);
  }

  lemma RemoteDecidedBits(cfg: Config, p: Party, f: Flow, m: Message, r: RequestId, requested: Scopes)
    requires LocalBits(p, f, r, requested) && RemoteBits(cfg, p, f, f.history, r)
    requires Choice(p, f, f.history, r) && f.Has(HelloReceived)
    requires m.Decision? && DecisionOf(cfg, Other(p), r, m.permissions) in f.history
    requires !f.Has(LocalPrepared) && !f.Has(RemotePrepared) && !f.Has(RemoteCommitted) && !f.Has(LocalCommitted)
    ensures var g := WithTx(f, f.Tx().MarkRemoteDecision(m.permissions).0);
            LocalBits(p, g, r, requested) && RemoteBits(cfg, p, g, g.history, r) && Choice(p, g, g.history, r)
  {
  }

  lemma PreparedOk(cfg: Config, p: Party, f: Flow, m: Message, io: Io, r: RequestId, requested: Scopes)
    requires Sound(cfg, p, f, r, requested) && Engaged(cfg, p, f, f.history, r, requested)
    requires FromPeer(f.history, p, m, r) && m.Ready?
    ensures var g := HandlePrepared(f, m, io); Ok(cfg, p, g, r, requested) && Grown(f.history, g.history, p, r)
  {
    if m.deviceId != f.peer.deviceId || m.permissions != f.Effective() {
      FailOk(cfg, p, f, ProtocolIncompatible, true, io, r, requested);
    } else if f.Tx().Mark(RemotePrepared).1 {
      var g := WithTx(f, f.Tx().Mark(RemotePrepared).0);
      RemoteMarked(cfg, p, f, RemotePrepared, r, requested);
      TryPrepareOk(cfg, p, g, io, r, requested);
      CommitAfterwards(cfg, p, TryPrepare(g, io), io, r, requested);
      GrownTransitive(f.history, TryPrepare(g, io).history, HandlePrepared(f, m, io).history, p, r);
    }
  }

  lemma RemoteMarked(cfg: Config, p: Party, f: Flow, flag: Flag, r: RequestId, requested: Scopes)
    requires Sound(cfg, p, f, r, requested) && Engaged(cfg, p, f, f.history, r, requested)
    requires f.Tx().Mark(flag).1
    requires (flag.RemotePrepared? && ReadyOf(cfg, Other(p), r, f.Effective()) in f.history)
             || (flag.RemoteCommitted? && CommittedOf(cfg, Other(p), r, f.Effective()) in f.history)
    ensures var g := WithTx(f, f.Tx().Mark(flag).0);
            Sound(cfg, p, g, r, requested) && Engaged(cfg, p, g, g.history, r, requested)
  {
    var g := WithTx(f, f.Tx().Mark(flag).0);
    BitsAfterRemote(cfg, p, f, flag, f.history, r, requested);
    assert Choice(p, g, g.history, r) && TrustPhase(g, r) && Announced(p, g);
  }

  lemma BitsAfterRemote(cfg: Config, p: Party, f: Flow, flag: Flag, t: seq<Event>, r: RequestId, requested: Scopes)
    requires LocalBits(p, f, r, requested) && RemoteBits(cfg, p, f, t, r) && f.Tx().Ordered()
    requires f.Tx().Mark(flag).1
    requires (flag.RemotePrepared? && ReadyOf(cfg, Other(p), r, f.Effective()) in t)
             || (flag.RemoteCommitted? && CommittedOf(cfg, Other(p), r, f.Effective()) in t)
    ensures var g := WithTx(f, f.Tx().Mark(flag).0);
            && LocalBits(p, g, r, requested) && RemoteBits(cfg, p, g, t, r)
            && g.Tx().Ordered() && g.Tx().Active()
  {
  }

  lemma CommittedOk(cfg: Config, p: Party, f: Flow, m: Message, io: Io, r: RequestId, requested: Scopes)
    requires Sound(cfg, p, f, r, requested) && Engaged(cfg, p, f, f.history, r, requested)
    requires FromPeer(f.history, p, m, r) && m.Committed?
    ensures var g := HandleCommitted(f, m, io); Ok(cfg, p, g, r, requested) && Grown(f.history, g.history, p, r)
  {
    if m.deviceId == f.peer.deviceId && m.permissions == f.effective && f.Tx().Mark(RemoteCommitted).1 {
      var g := WithTx(f, f.Tx().Mark(RemoteCommitted).0);
      assert f.Has(LocalPrepared);
      RemoteMarked(cfg, p, f, RemoteCommitted, r, requested);
      TryCommitOk(cfg, p, g, io, r, requested);
      CompleteAfterwards(cfg, p, TryCommit(g, io), io, r, requested);
      GrownTransitive(f.history, TryCommit(g, io).history, HandleCommitted(f, m, io).history, p, r);
    }
  }

  lemma MessageOk(cfg: Config, p: Party, f: Flow, m: Message, generation: nat, io: Io, r: RequestId, requested: Scopes)
    requires Ok(cfg, p, f, r, requested) && FromPeer(f.history, p, m, r)
    ensures var g := HandleMessage(f, m, generation, io);
            Ok(cfg, p, g, r, requested) && Grown(f.history, g.history, p, r)
  {
    if f.active && generation == f.generation && (m.Hello? || f.Tx().Matches(m.requestId, generation)) {
      match m
      case Rejected(_, reason) => FailOk(cfg, p, f, reason, false, io, r, requested);
      case Hello(_, _, _, _, _, _) => HelloOk(cfg, p, f, m, io, r, requested);
      case Decision(_, _, _, _) => DecisionOk(cfg, p, f, m, io, r, requested);
      case Ready(_, _, _) => PreparedOk(cfg, p, f, m, io, r, requested);
      case Committed(_, _, _) => CommittedOk(cfg, p, f, m, io, r, requested);
    }
  }

  lemma PromptClosed(cfg: Config, p: Party, f: Flow, r: RequestId, requested: Scopes)
    requires Ok(cfg, p, f, r, requested) && f.active && f.promptVisible
    ensures var g := f.(promptVisible := false);
            && Sound(cfg, p, g, r, requested) && Engaged(cfg, p, g, g.history, r, requested)
            && g.Has(HelloReceived) && g.requested == requested
  {
    assert Engaged(cfg, p, f, f.history, r, requested);
  }

  lemma RespondOk(cfg: Config, p: Party, f: Flow, request: RequestId, accepted: bool, granted: Scopes, io: Io,
                  r: RequestId, requested: Scopes)
    requires Ok(cfg, p, f, r, requested)
    ensures var g := RespondPairing(f, request, accepted, granted, io);
            Ok(cfg, p, g, r, requested) && Grown(f.history, g.history, p, r)
  {
    if f.active && f.promptVisible && request == f.requestId {
      var g := f.(promptVisible := false);
      var permissions := if g.outgoing then g.requested else granted * g.requested;
      PromptClosed(cfg, p, f, r, requested);
      if !accepted || ViewScreen !in permissions {
        FailOk(cfg, p, g, PairingRejected, true, io, r, requested);
      } else {
        SendDecisionOk(cfg, p, g, permissions, io, r, requested);
      }
    }
  }

  lemma CancelOk(cfg: Config, p: Party, f: Flow, reason: Reason, notify: bool, emitOutcome: bool, io: Io,
                 r: RequestId, requested: Scopes)
    requires Ok(cfg, p, f, r, requested)
    ensures var g := Cancel(f, reason, notify, emitOutcome, io);
            Ok(cfg, p, g, r, requested) && Grown(f.history, g.history, p, r)
  {
    if f.active {
      RollbackOk(cfg, p, f, io.cancelRollbackOk, r, requested);
      var g := RollbackPairing(f, io.cancelRollbackOk);
      if emitOutcome {
        FailOk(cfg, p, g, reason, notify, io, r, requested);
      } else if notify && g.requestId != 0 {
        RejectOk(cfg, p, g, WireReason(reason), r, requested);
        var h := SendMessage(g, Rejected(r, WireReason(reason)));
        ClearOk(cfg, p, h, io.clearRollbackOk, r, requested);
        GrownTransitive(f.history, g.history, h.history, p, r);
        GrownTransitive(f.history, h.history, Clear(h, io.clearRollbackOk).history, p, r);
      } else {
        ClearOk(cfg, p, g, io.clearRollbackOk, r, requested);
      }
      GrownTransitive(f.history, g.history, Cancel(f, reason, notify, emitOutcome, io).history, p, r);
    }
  }

  lemma TimeoutOk(cfg: Config, p: Party, f: Flow, io: Io, r: RequestId, requested: Scopes)
    requires Ok(cfg, p, f, r, requested)
    ensures var g := Timeout(f, io); Ok(cfg, p, g, r, requested) && Grown(f.history, g.history, p, r)
  {
    if f.active {
      FailOk(cfg, p, f, AuthenticationTimeout, true, io, r, requested);
    }
  }

  // ---------- beginning a session ----------

  /** An endpoint that has not begun the session: whatever it was doing, its stores do not know
      the request. */
  ghost predicate NotBegun(cfg: Config, p: Party, f: Flow, r: RequestId, requested: Scopes) {
    && Sound(cfg, p, f, r, requested)
    && NoneOwn(f.history, p, r)
    && Fresh(f.trust.disk, r) && Fresh(f.trust.before, r)
  }

  lemma ClearedOk(cfg: Config, p: Party, f: Flow, saveOk: bool, r: RequestId, requested: Scopes)
    requires NotBegun(cfg, p, f, r, requested)
    ensures var g := Clear(f, saveOk);
            && NotBegun(cfg, p, g, r, requested) && Down(g) && !g.promptVisible
            && Grown(f.history, g.history, p, r)
  {
    ClearOk(cfg, p, f, saveOk, r, requested);
    var g := RollbackPairing(f, saveOk);
    if g != f {
      assert g.history == f.history + [Of(p, Saved(g.trust.disk))];
    }
  }

  /** The recovery save, when recovery changed something. */
  lemma RecoverySaved(cfg: Config, p: Party, f: Flow, t: Trust, r: RequestId, requested: Scopes)
    requires NotBegun(cfg, p, f, r, requested)
    requires t == Trust(Recover(f.trust.disk), [], 0, 0, Recover(f.trust.disk))
    ensures var h := AdoptTrust(f, t);
            && NotBegun(cfg, p, h, r, requested) && Quiet(h, r) && Grown(f.history, h.history, p, r)
            && h == f.(trust := t, history := h.history)
  {
    RecoverIsCanonical(f.trust.disk);
    DiskKnown(cfg, f.history, p);
    RecoveredKnown(cfg, f.history, f.trust.disk, r);
    if t.disk != f.trust.disk {
      Logged(cfg, p, f.(trust := t), Saved(t.disk), r, requested);
    }
  }

  lemma LoadLogged(cfg: Config, p: Party, f: Flow, r: RequestId, requested: Scopes)
    requires NotBegun(cfg, p, f, r, requested) && Quiet(f, r) && Canonical(f.trust.devices)
    ensures var g := Log(f, Loaded(f.trust.devices));
            NotBegun(cfg, p, g, r, requested) && Quiet(g, r) && Grown(f.history, g.history, p, r)
  {
    Logged(cfg, p, f, Loaded(f.trust.devices), r, requested);
  }

  lemma LoadOk(cfg: Config, p: Party, f: Flow, io: Io, r: RequestId, requested: Scopes)
    requires NotBegun(cfg, p, f, r, requested)
    ensures var (g, ok) := LoadTrust(f, io);
            && NotBegun(cfg, p, g, r, requested) && Grown(f.history, g.history, p, r)
            && g == f.(localId := g.localId, trust := g.trust, history := g.history)
            && (ok ==> Quiet(g, r) && g.localId == g.identity)
  {
    var (t, ok) := Load(f.trust, io.readOk, io.recoveryOk);
    if io.identityOk && ok {
      RecoverIsCanonical(f.trust.disk);
      var g := f.(localId := f.identity);
      RecoverySaved(cfg, p, g, t, r, requested);
      var h := AdoptTrust(g, t);
      LoadLogged(cfg, p, h, r, requested);
      GrownTransitive(f.history, h.history, Log(h, Loaded(t.devices)).history, p, r);
    }
  }

  lemma RecoveredKnown(cfg: Config, t: seq<Event>, ds: seq<Device>, r: RequestId)
    requires Good(cfg, t) && RecordsKnown(cfg, t, ds) && Fresh(ds, r)
    ensures RecordsKnown(cfg, t, Recover(ds)) && Fresh(Recover(ds), r)
  {
    RecoverIsCanonical(ds);
  }

  lemma BeginIncomingOk(cfg: Config, f: Flow, generation: nat, name: string, io: Io, r: RequestId, requested: Scopes)
    requires NotBegun(cfg, Controlled, f, r, requested) && generation != 0
    ensures var g := BeginIncoming(f, generation, name, io);
            Ok(cfg, Controlled, g, r, requested) && Grown(f.history, g.history, Controlled, r)
  {
    var p := Controlled;
    ClearedOk(cfg, p, f, io.clearRollbackOk, r, requested);
    var g := Clear(f, io.clearRollbackOk);
    if !io.rateLimited {
      LoadOk(cfg, p, g, io, r, requested);
      var (h, loaded) := LoadTrust(g, io);
      GrownTransitive(f.history, g.history, h.history, p, r);
      assert Down(h);
      if loaded {
        NewIncoming(cfg, h, generation, name, r, requested);
      }
    }
  }

  lemma NewIncoming(cfg: Config, h: Flow, generation: nat, name: string, r: RequestId, requested: Scopes)
    requires NotBegun(cfg, Controlled, h, r, requested) && Quiet(h, r) && h.localId == h.identity
    requires Down(h) && !h.promptVisible && generation != 0
    ensures var k := StartSession(h, false, generation, name);
            Ok(cfg, Controlled, k, r, requested) && k.history == h.history
  {
    var k := StartSession(h, false, generation, name);
    assert Waiting(Controlled, k, k.history, r);
  }

  lemma BeginOutgoingOk(cfg: Config, f: Flow, generation: nat, name: string, io: Io, r: RequestId, requested: Scopes)
    requires NotBegun(cfg, Controller, f, r, requested) && generation != 0
    ensures var g := BeginOutgoing(f, r, generation, name, requested, io);
            Ok(cfg, Controller, g, r, requested) && Grown(f.history, g.history, Controller, r)
  {
    var p := Controller;
    ClearedOk(cfg, p, f, io.clearRollbackOk, r, requested);
    var g := Clear(f, io.clearRollbackOk);
    if ViewScreen in requested {
      LoadOk(cfg, p, g, io, r, requested);
      var (h, loaded) := LoadTrust(g, io);
      GrownTransitive(f.history, g.history, h.history, p, r);
      assert Down(h);
      if loaded {
        var k := h.(remoteDeviceId := h.peer.deviceId, outgoing := true, active := true,
                    generation := generation, localName := Left(name, 128), requestId := r,
                    requested := requested, command := NoCommand.(transaction := Begin(r, generation)));
        NewTransaction(cfg, h, k, r, requested);
        SendHelloOk(cfg, p, k, r, requested);
        GrownTransitive(f.history, k.history, SendHello(k).history, p, r);
      }
    }
  }

  lemma NewTransaction(cfg: Config, h: Flow, k: Flow, r: RequestId, requested: Scopes)
    requires NotBegun(cfg, Controller, h, r, requested) && Quiet(h, r) && h.localId == h.identity
    requires !h.authenticated && !h.promptVisible
    requires k == h.(remoteDeviceId := h.peer.deviceId, outgoing := true, active := true,
                     generation := k.generation, localName := k.localName, requestId := r,
                     requested := requested, command := NoCommand.(transaction := Begin(r, k.generation)))
    requires k.generation != 0
    ensures Sound(cfg, Controller, k, r, requested) && Core(cfg, Controller, k, k.history, r, requested)
    ensures Quiet(k, r)
  {
    forall n | Of(Controller, Sent(n)) in k.history ensures n.requestId != r {
      assert !Mentions(Of(Controller, Sent(n)), r);
    }
    forall tr, own, theirs ensures Of(Controller, Chosen(r, tr, own, theirs)) !in k.history {
      assert Mentions(Of(Controller, Chosen(r, tr, own, theirs)), r);
    }
    forall ps, tr ensures Of(Controller, Finished(r, ps, tr)) !in k.history {
      assert Mentions(Of(Controller, Finished(r, ps, tr)), r);
    }
  }

  // ---------- what the entry points keep, for every session ----------

  /** In any session whose invariant held, it still holds, and only own events were added. */
  ghost predicate Keeps(f: Flow, g: Flow) {
    forall cfg, r, requested :: Ok(cfg, f.self, f, r, requested) ==>
      Ok(cfg, f.self, g, r, requested) && Grown(f.history, g.history, f.self, r)
  }

  /** The same for a message that the peer originated in the session. */
  ghost predicate KeepsOn(f: Flow, m: Message, g: Flow) {
    forall cfg, r, requested :: Ok(cfg, f.self, f, r, requested) && FromPeer(f.history, f.self, m, r) ==>
      Ok(cfg, f.self, g, r, requested) && Grown(f.history, g.history, f.self, r)
  }

  /** The same for the beginning of a session the endpoint has not begun. */
  ghost predicate Begins(f: Flow, p: Party, r: RequestId, requested: Scopes, g: Flow) {
    forall cfg :: NotBegun(cfg, p, f, r, requested) ==>
      Ok(cfg, p, g, r, requested) && Grown(f.history, g.history, p, r)
  }

  lemma MessageKeeps(f: Flow, m: Message, generation: nat, io: Io)
    ensures KeepsOn(f, m, HandleMessage(f, m, generation, io))
  {
    forall cfg, r, requested | Ok(cfg, f.self, f, r, requested) && FromPeer(f.history, f.self, m, r)
      ensures var g := HandleMessage(f, m, generation, io);
              Ok(cfg, f.self, g, r, requested) && Grown(f.history, g.history, f.self, r)
    {
      MessageOk(cfg, f.self, f, m, generation, io, r, requested);
    }
  }

  lemma RespondKeeps(f: Flow, request: RequestId, accepted: bool, granted: Scopes, io: Io)
    ensures Keeps(f, RespondPairing(f, request, accepted, granted, io))
  {
    forall cfg, r, requested | Ok(cfg, f.self, f, r, requested)
      ensures var g := RespondPairing(f, request, accepted, granted, io);
              Ok(cfg, f.self, g, r, requested) && Grown(f.history, g.history, f.self, r)
    {
      RespondOk(cfg, f.self, f, request, accepted, granted, io, r, requested);
    }
  }

  lemma CancelKeeps(f: Flow, reason: Reason, notify: bool, emitOutcome: bool, io: Io)
    ensures Keeps(f, Cancel(f, reason, notify, emitOutcome, io))
  {
    forall cfg, r, requested | Ok(cfg, f.self, f, r, requested)
      ensures var g := Cancel(f, reason, notify, emitOutcome, io);
              Ok(cfg, f.self, g, r, requested) && Grown(f.history, g.history, f.self, r)
    {
      CancelOk(cfg, f.self, f, reason, notify, emitOutcome, io, r, requested);
    }
  }

  lemma BeginOutgoingKeeps(f: Flow, r: RequestId, generation: nat, name: string, requested: Scopes, io: Io)
    requires generation != 0
    ensures Begins(f, Controller, r, requested, BeginOutgoing(f, r, generation, name, requested, io))
  {
    forall cfg | NotBegun(cfg, Controller, f, r, requested)
      ensures var g := BeginOutgoing(f, r, generation, name, requested, io);
              Ok(cfg, Controller, g, r, requested) && Grown(f.history, g.history, Controller, r)
    {
      BeginOutgoingOk(cfg, f, generation, name, io, r, requested);
    }
  }

  lemma BeginIncomingKeeps(f: Flow, generation: nat, name: string, io: Io)
    requires generation != 0
    ensures forall r, requested :: Begins(f, Controlled, r, requested, BeginIncoming(f, generation, name, io))
  {
    forall cfg, r, requested | NotBegun(cfg, Controlled, f, r, requested)
      ensures var g := BeginIncoming(f, generation, name, io);
              Ok(cfg, Controlled, g, r, requested) && Grown(f.history, g.history, Controlled, r)
    {
      BeginIncomingOk(cfg, f, generation, name, io, r, requested);
    }
  }
}
