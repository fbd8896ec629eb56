/** What the handlers of KDeviceAuthenticationFlow compute, as functions on the flow's state.
    Every save that succeeds, every message and every outcome is appended to `history`. */
module AuthenticationFlow {
  import opened Wrappers
  import opened PairingTypes
  import opened TrustedDevices
  import opened PairingTransactions

  datatype Party = Controller | Controlled

  datatype Effect =
    | Loaded(devices: seq<Device>)
    | Saved(devices: seq<Device>)
    | Chosen(requestId: RequestId, trusted: bool, ownCommitId: RequestId, peerCommitId: RequestId)
    | Sent(message: Message)
    | Replayed(message: Message)
    | Finished(requestId: RequestId, permissions: Scopes, trusted: bool)

  datatype Event =
    | Connected(requestId: RequestId, requested: Scopes)
    | Of(party: Party, effect: Effect)

  /** What the outside answers during one call: the identity provider, each save at its call
      site, the keying-material exporter, the rate limiter and the clock. */
  datatype Io = Io(
    identityOk: bool, readOk: bool, recoveryOk: bool, certificateOk: bool,
    prepareOk: bool, commitOk: bool, metadataOk: bool, completeOk: bool,
    cancelRollbackOk: bool, failRollbackOk: bool, clearRollbackOk: bool,
    verificationOk: bool, rateLimited: bool, now: int)

  datatype Flow = Flow(
    self: Party,                 // whose events these are
    identity: DeviceId,          // what the identity provider answers
    outgoing: bool,
    active: bool,
    authenticated: bool,
    promptVisible: bool,
    generation: nat,
    requestId: RequestId,        // m_context, from here ...
    remoteDeviceId: DeviceId,
    remoteName: string,
    requested: Scopes,
    effective: Scopes,
    trusted: bool,
    withinTrust: bool,           // ... to here
    localId: DeviceId,
    localName: string,
    peer: Peer,
    command: Command,
    trust: Trust,
    history: seq<Event>)
  {
    function Tx(): Transaction { command.transaction }

    predicate Has(flag: Flag) { flag in command.transaction.progress }

    /** The permissions both sides will use: the controlled side's decision. */
    function Effective(): Scopes {
      if outgoing then Tx().remotePermissions else Tx().localPermissions
    }
  }

  function WithTx(f: Flow, t: Transaction): Flow {
    f.(command := f.command.(transaction := t))
  }

  function Log(f: Flow, e: Effect): Flow {
    f.(history := f.history + [Of(f.self, e)])
  }

  function SendMessage(f: Flow, m: Message): Flow {
    Log(f.(command := f.command.Cache(m)), Sent(m))
  }

  function RollbackPairing(f: Flow, saveOk: bool): Flow {
    if !HasTransaction(f.trust, f.requestId) || !saveOk then f
    else
      var t := Rollback(f.trust, f.requestId, true).0;
      Log(f.(trust := t), Saved(t.disk))
  }

  function Forget(f: Flow): Flow {
    f.(
      requestId := 0, remoteDeviceId := 0, remoteName := "", requested := {}, effective := {},
      trusted := false, withinTrust := false, localId := 0, localName := "", command := NoCommand,
      generation := 0, outgoing := false, active := false, authenticated := false, promptVisible := false)
  }

  function Clear(f: Flow, saveOk: bool): Flow {
    Forget(RollbackPairing(f, saveOk))
  }

  function Fail(f: Flow, reason: Reason, notifyRemote: bool, io: Io): Flow {
    var g := RollbackPairing(f, io.failRollbackOk);
    var h := WithTx(g, g.Tx().MarkFailed());
    var k := if notifyRemote && h.requestId != 0 then SendMessage(h, Rejected(h.requestId, WireReason(reason)))
             else h;
    Clear(k, io.clearRollbackOk)
  }

  /** The refreshed metadata of an already trusted device; a failed save is only traced. */
  function RefreshMetadata(f: Flow, io: Io): Flow {
    var (t, ok) := UpdateAuthenticated(f.trust, f.remoteDeviceId, f.remoteName, f.peer.certificate,
                                       io.now, io.metadataOk);
    if f.trusted && ok then Log(f.(trust := t), Saved(t.disk)) else f
  }

  function Cleanup(f: Flow, io: Io): Flow {
    var t := Complete(f.trust, f.requestId, io.completeOk).0;
    if CleanupSaves(f.trust, f.requestId, io.completeOk) then Log(f.(trust := t), Saved(t.disk))
    else f.(trust := t)
  }

  function Succeed(f: Flow, effective: Scopes, wasTrusted: bool): Flow {
    Log(f.(trusted := true, withinTrust := true, authenticated := true, active := false,
           promptVisible := false),
        Finished(f.requestId, effective, wasTrusted))
  }

  function Finish(f: Flow, io: Io): Flow {
    Succeed(Cleanup(f, io), f.effective, f.trusted)
  }

  function TryComplete(f: Flow, io: Io): Flow {
    if !f.Tx().CommittedComplete() || f.authenticated then f
    else
      var g := RefreshMetadata(f, io);
      var (t, ok) := g.Tx().MarkCompleted();
      if !ok then g else Finish(WithTx(g, t), io)
  }

  function TryCommit(f: Flow, io: Io): Flow {
    if !f.Tx().PreparedComplete() || f.Has(LocalCommitted) then f
    else
      var (t, saved) := if f.trusted then (f.trust, true)
                        else Commit(f.trust, f.requestId, f.remoteName, f.peer.certificate, io.now, io.commitOk);
      if !saved then Fail(f.(trust := t), IdentityUnavailable, true, io)
      else AnnounceCommitted(if f.trusted then f else Log(f.(trust := t), Saved(t.disk)), io)
  }

  function AnnounceCommitted(f: Flow, io: Io): Flow {
    var (t, ok) := f.Tx().Mark(LocalCommitted);
    if !ok then f
    else TryComplete(SendMessage(WithTx(f, t), Committed(f.requestId, f.localId, f.effective)), io)
  }

  function TryPrepare(f: Flow, io: Io): Flow {
    if !f.Tx().DecisionsComplete() || f.Has(LocalPrepared) then f
    else if ViewScreen !in f.Effective() then Fail(f, PairingRejected, true, io)
    else PrepareAndAnnounce(f.(effective := f.Effective()), io)
  }

  function PrepareAndAnnounce(f: Flow, io: Io): Flow {
    var (t, saved) := if f.trusted then (f.trust, true)
                      else Prepare(f.trust, f.requestId, f.peer, f.remoteName, f.effective, io.now, io.prepareOk);
    if !saved then Fail(f.(trust := t), IdentityUnavailable, true, io)
    else AnnounceReady(if f.trusted then f else Log(f.(trust := t), Saved(t.disk)), io)
  }

  function AnnounceReady(f: Flow, io: Io): Flow {
    var (t, ok) := f.Tx().Mark(LocalPrepared);
    if !ok then f
    else TryComplete(TryCommit(SendMessage(WithTx(f, t), Ready(f.requestId, f.localId, f.effective)), io), io)
  }

  function SendDecision(f: Flow, permissions: Scopes, io: Io): Flow {
    var (t, ok) := f.Tx().MarkLocalDecision(permissions);
    var g := WithTx(f, t);
    if !ok then g
    else TryPrepare(SendMessage(g, Decision(g.requestId, g.localId, true, permissions)), io)
  }

  function SendHello(f: Flow): Flow {
    var (t, ok) := f.Tx().Mark(HelloSent);
    if !ok then f
    else
      SendMessage(WithTx(f, t),
        Hello(f.requestId, f.localId, f.localName, true,
              MutualCommitId(f.trust.devices, f.remoteDeviceId, f.peer.spki), f.requested))
  }

  function InspectPeerTrust(f: Flow, peerCommitId: RequestId): (Flow, Option<Reason>) {
    var k := Find(f.trust.devices, f.remoteDeviceId);
    if k < 0 then (f.(trusted := false, withinTrust := false), None)
    else if f.trust.devices[k].revoked then (f, Some(DeviceRevoked))
    else if f.trust.devices[k].spki != f.peer.spki then (f, Some(DeviceKeyChanged))
    else
      var trusted := IsMutuallyTrusted(f.trust.devices, f.remoteDeviceId, f.peer.spki, peerCommitId);
      var within := (f.requested - {FileTransfer}) <= f.trust.devices[k].permissionLimit;
      (f.(trusted := trusted, withinTrust := trusted && within), None)
  }

  function BeginPairingOrAutomaticDecision(f: Flow, io: Io): Flow {
    var k := Find(f.trust.devices, f.remoteDeviceId);
    if !f.Has(HelloReceived) || f.Tx().localPermissions != {} || f.promptVisible then f
    else if f.trusted && k >= 0 then
      SendDecision(f, if f.outgoing then f.requested else f.trust.devices[k].permissionLimit * f.requested, io)
    else if !io.verificationOk then Fail(f, ChannelBindingUnavailable, true, io)
    else f.(promptVisible := true)
  }

  function Named(f: Flow, m: Message): Flow
    requires m.Hello?
  {
    f.(command := f.command.(remoteHello := Some(m)), remoteName := m.deviceName)
  }

  /** The choice between trust and a prompt enters the history. */
  function RecordChoice(f: Flow, theirs: RequestId): Flow {
    Log(f, Chosen(f.requestId, f.trusted, MutualCommitId(f.trust.devices, f.remoteDeviceId, f.peer.spki), theirs))
  }

  function ContinueHello(f: Flow, io: Io): Flow {
    BeginPairingOrAutomaticDecision(if f.Has(HelloSent) then f else SendHello(f), io)
  }

  /** A Hello that passed the checks on its sender. */
  function AcceptHello(f: Flow, m: Message, io: Io): Flow
    requires m.Hello?
  {
    var (g, refused) := InspectPeerTrust(Named(f, m), m.trustCommitId);
    if refused.Some? then Fail(g, refused.value, true, io)
    else ContinueHello(RecordChoice(g, m.trustCommitId), io)
  }

  /** The controlled side takes the request from the controller's Hello. */
  function AdoptRequest(f: Flow, m: Message): Flow
    requires m.Hello?
  {
    f.(requestId := m.requestId, requested := m.permissions,
       command := if f.Tx().Active() then f.command
                  else NoCommand.(transaction := Begin(m.requestId, f.generation)))
  }

  function HandleNewHello(f: Flow, m: Message, io: Io): Flow
    requires m.Hello?
  {
    if !m.standardMethod then Fail(f, ProtocolIncompatible, true, io)
    else if m.deviceId != f.peer.deviceId then Fail(f, DeviceKeyChanged, true, io)
    else if f.outgoing && !f.Tx().Matches(m.requestId, f.generation) then f
    else ReceiveHello(if f.outgoing then f else AdoptRequest(f, m), m, io)
  }

  function ReceiveHello(f: Flow, m: Message, io: Io): Flow
    requires m.Hello?
  {
    var (t, ok) := f.Tx().Mark(HelloReceived);
    if !ok then f else AcceptHello(WithTx(f, t), m, io)
  }

  function HandleHello(f: Flow, m: Message, io: Io): Flow
    requires m.Hello?
  {
    match f.command.ClassifyHello(m, f.generation)
    case ConflictingRequest => Log(f, Sent(Rejected(m.requestId, ProtocolIncompatible)))
    case ConflictingPayload => Fail(f, ProtocolIncompatible, true, io)
    case DuplicateHello =>
      var response := f.command.Replay();
      if response.Some? then Log(f, Replayed(response.value)) else f
    case NewHello => HandleNewHello(f, m, io)
  }

  function HandleDecision(f: Flow, m: Message, io: Io): Flow
    requires m.Decision?
  {
    if !f.Has(HelloReceived) || m.deviceId != f.peer.deviceId then f
    else if !m.accepted then Fail(f, PairingRejected, false, io)
    else
      var (t, ok) := f.Tx().MarkRemoteDecision(m.permissions);
      if !ok then WithTx(f, t) else TryPrepare(WithTx(f, t), io)
  }

  function HandlePrepared(f: Flow, m: Message, io: Io): Flow
    requires m.Ready?
  {
    if m.deviceId != f.peer.deviceId || m.permissions != f.Effective() then
      Fail(f, ProtocolIncompatible, true, io)
    else
      var (t, ok) := f.Tx().Mark(RemotePrepared);
      if !ok then f else TryCommit(TryPrepare(WithTx(f, t), io), io)
  }

  function HandleCommitted(f: Flow, m: Message, io: Io): Flow
    requires m.Committed?
  {
    if m.deviceId != f.peer.deviceId || m.permissions != f.effective then f
    else
      var (t, ok) := f.Tx().Mark(RemoteCommitted);
      if !ok then f else TryComplete(TryCommit(WithTx(f, t), io), io)
  }

  function HandleMessage(f: Flow, m: Message, generation: nat, io: Io): Flow {
    if !f.active || generation != f.generation then f
    else if !m.Hello? && !f.Tx().Matches(m.requestId, generation) then f
    else
      match m
      case Rejected(_, reason) => Fail(f, reason, false, io)
      case Hello(_, _, _, _, _, _) => HandleHello(f, m, io)
      case Decision(_, _, _, _) => HandleDecision(f, m, io)
      case Ready(_, _, _) => HandlePrepared(f, m, io)
      case Committed(_, _, _) => HandleCommitted(f, m, io)
  }

  function RespondPairing(f: Flow, request: RequestId, accepted: bool, granted: Scopes, io: Io): Flow {
    if !f.active || !f.promptVisible || request != f.requestId then f
    else
      var g := f.(promptVisible := false);
      var permissions := if g.outgoing then g.requested else granted * g.requested;
      if !accepted || ViewScreen !in permissions then Fail(g, PairingRejected, true, io)
      else SendDecision(g, permissions, io)
  }

  function Cancel(f: Flow, reason: Reason, notifyRemote: bool, emitOutcome: bool, io: Io): Flow {
    if !f.active then f
    else
      var g := RollbackPairing(f, io.cancelRollbackOk);
      if emitOutcome then Fail(g, reason, notifyRemote, io)
      else
        var h := if notifyRemote && g.requestId != 0 then SendMessage(g, Rejected(g.requestId, WireReason(reason)))
                 else g;
        Clear(h, io.clearRollbackOk)
  }

  /** The approval timer runs only while the flow is active. */
  function Timeout(f: Flow, io: Io): Flow {
    if f.active then Fail(f, AuthenticationTimeout, true, io) else f
  }

  /** The loaded trust memory; a recovery that changed the file was saved first. */
  function AdoptTrust(f: Flow, t: Trust): Flow {
    if t.disk != f.trust.disk then Log(f.(trust := t), Saved(t.disk)) else f.(trust := t)
  }

  function LoadStore(f: Flow, io: Io): (Flow, bool) {
    var (t, ok) := Load(f.trust, io.readOk, io.recoveryOk);
    if ok then (AdoptTrust(f, t), true) else (f, false)
  }

  function LoadTrust(f: Flow, io: Io): (Flow, bool) {
    if !io.identityOk then (f, false)
    else
      var (g, ok) := LoadStore(f.(localId := f.identity), io);
      if ok then (Log(g, Loaded(g.trust.devices)), io.certificateOk) else (g, false)
  }

  function Left(s: string, n: nat): string { if |s| <= n then s else s[..n] }

  function StartSession(f: Flow, outgoing: bool, generation: nat, name: string): Flow {
    f.(remoteDeviceId := f.peer.deviceId, outgoing := outgoing, active := true,
       generation := generation, localName := Left(name, 128))
  }

  function BeginOutgoing(f: Flow, request: RequestId, generation: nat, name: string, requested: Scopes,
                         io: Io): Flow
  {
    var g := Clear(f, io.clearRollbackOk);
    if request == 0 || ViewScreen !in requested then g
    else
      var (h, loaded) := LoadTrust(g, io);
      if !loaded || !h.peer.valid then h
      else
        OpenRequest(StartSession(h, true, generation, name), request, generation, requested)
  }

  /** The controller's request and its Hello. */
  function OpenRequest(f: Flow, request: RequestId, generation: nat, requested: Scopes): Flow {
    SendHello(f.(requestId := request, requested := requested,
                 command := NoCommand.(transaction := Begin(request, generation))))
  }

  function BeginIncoming(f: Flow, generation: nat, name: string, io: Io): Flow {
    var g := Clear(f, io.clearRollbackOk);
    if io.rateLimited then g
    else
      var (h, loaded) := LoadTrust(g, io);
      if !loaded || !h.peer.valid then h
      else
        StartSession(h, false, generation, name)
  }
}
