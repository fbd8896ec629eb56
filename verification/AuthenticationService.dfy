/** KDeviceAuthenticationFlow: the handlers that update the flow step by step, each proved to
    compute the function of AuthenticationFlow that bears its name. */
module AuthenticationService {
  import opened Wrappers
  import opened PairingTypes
  import T = TrustedDevices
  import P = PairingTransactions
  import F = AuthenticationFlow
  import H = PairingHandlers

  /** The value of a KDeviceAuthenticationContext. */
  datatype Context = Context(
    requestId: RequestId,
    remoteDeviceId: DeviceId,
    remoteName: string,
    requested: Scopes,
    effective: Scopes,
    trusted: bool,
    withinTrust: bool)

  const NoContext := Context(0, 0, "", {}, {}, false, false)

  class DeviceAuthenticationFlow {
    const command: P.PairingCommand
    const trustService: T.TrustedDeviceService
    const identity: DeviceId
    const self: F.Party
    /** What has left the flow: saves, messages and outcomes, in order. */
    var history: seq<F.Event>
    var outgoing: bool
    var active: bool
    var authenticated: bool
    var promptVisible: bool
    var generation: nat
    var context: Context
    var localId: DeviceId
    var localName: string
    var securePeer: Peer

    ghost function View(): F.Flow
      reads this, command, command.transaction, trustService
    {
      F.Flow(self, identity, outgoing, active, authenticated, promptVisible, generation,
             context.requestId, context.remoteDeviceId, context.remoteName, context.requested,
             context.effective, context.trusted, context.withinTrust, localId, localName, securePeer,
             command.View(), trustService.View(), history)
    }

    constructor (self: F.Party, identity: DeviceId, content: seq<Device>)
      ensures View().command == P.NoCommand
      ensures View().trust == T.Trust([], [], 0, 0, content)
      ensures !active && !authenticated && context.requestId == 0 && history == []
      ensures this.self == self && this.identity == identity
      ensures fresh(command) && fresh(command.transaction) && fresh(trustService)
    {
      this.self, this.identity := self, identity;
      command := new P.PairingCommand();
      trustService := new T.TrustedDeviceService(content);
      history := [];
      outgoing, active, authenticated, promptVisible, generation := false, false, false, false, 0;
      context, localId, localName := NoContext, 0, "";
      securePeer := Peer(0, 0, 0, false);
    }

    method SetSecurePeerIdentity(peer: Peer)
      modifies this`securePeer
      ensures View() == old(View()).(peer := peer)
    {
      securePeer := peer;
    }

    method SendPairingMessage(m: Message, cache: bool)
      modifies this`history, command
      ensures View() == if cache then F.SendMessage(old(View()), m) else F.Log(old(View()), F.Sent(m))
    {
      if cache {
        command.CacheResponse(m);
      }
      history := history + [F.Of(self, F.Sent(m))];
    }

    method RollbackPairing(saveOk: bool)
      modifies this`history, trustService
      ensures View() == F.RollbackPairing(old(View()), saveOk)
    {
      if trustService.transactionId == 0 || context.requestId != trustService.transactionId {
        return;
      }
      var ok := trustService.RollbackTransaction(context.requestId, saveOk);
      if ok {
        history := history + [F.Of(self, F.Saved(trustService.disk))];
      }
    }

    method ResetSession()
      modifies this`generation, this`outgoing, this`active, this`authenticated, this`promptVisible
      ensures View() == old(View()).(generation := 0, outgoing := false, active := false,
                                     authenticated := false, promptVisible := false)
    {
      generation := 0;
      outgoing := false;
      active := false;
      authenticated := false;
      promptVisible := false;
    }

    method ResetContext()
      modifies this, command, command.transaction
      ensures View() == F.Forget(old(View()))
    {
      context := NoContext;
      localId := 0;
      localName := "";
      command.Reset();
      ResetSession();
    }

    method Clear(saveOk: bool)
      modifies this, command, command.transaction, trustService
      ensures View() == F.Clear(old(View()), saveOk)
    {
      RollbackPairing(saveOk);
      ResetContext();
    }

    method MarkFailed()
      modifies command.transaction
      ensures View() == F.WithTx(old(View()), old(View()).Tx().MarkFailed())
    {
      command.transaction.Abandon();
    }

    method MarkProgress(flag: P.Flag) returns (ok: bool)
      modifies command.transaction
      ensures (View().Tx(), ok) == old(View()).Tx().Mark(flag)
      ensures View() == F.WithTx(old(View()), View().Tx())
    {
      ok := command.transaction.MarkFlag(flag);
    }

    method Fail(reason: Reason, notifyRemote: bool, io: F.Io)
      modifies this, command, command.transaction, trustService
      ensures View() == F.Fail(old(View()), reason, notifyRemote, io)
    {
      RollbackPairing(io.failRollbackOk);
      MarkFailed();
      if notifyRemote && context.requestId != 0 {
        SendPairingMessage(Rejected(context.requestId, WireReason(reason)), true);
      }
      Clear(io.clearRollbackOk);
    }

    method RefreshMetadata(io: F.Io)
      modifies this`history, trustService
      ensures View() == F.RefreshMetadata(old(View()), io)
    {
      if !context.trusted {
        return;
      }
      var saved := trustService.UpdateAuthenticatedDevice(context.remoteDeviceId, context.remoteName,
                                                          securePeer.certificate,
                                                          io.now, io.metadataOk);
      if saved {
        history := history + [F.Of(self, F.Saved(trustService.disk))];
      }
    }

    method CompleteTrust(io: F.Io)
      modifies this`history, trustService
      ensures View() == F.Cleanup(old(View()), io)
    {
      var saves := T.CleanupSaves(trustService.View(), context.requestId, io.completeOk);
      var cleaned := trustService.CompleteTransaction(context.requestId, io.completeOk);
      if saves {
        history := history + [F.Of(self, F.Saved(trustService.disk))];
      }
    }

    method Succeed()
      modifies this
      ensures View() == F.Succeed(old(View()), old(context.effective), old(context.trusted))
    {
      history := history + [F.Of(self, F.Finished(context.requestId, context.effective, context.trusted))];
      context := context.(trusted := true, withinTrust := true);
      authenticated := true;
      active := false;
      promptVisible := false;
    }

    method MarkCompleted() returns (ok: bool)
      modifies command.transaction
      ensures (View().Tx(), ok) == old(View()).Tx().MarkCompleted()
      ensures View() == F.WithTx(old(View()), View().Tx())
    {
      ok := command.transaction.Finish();
    }

    method TryComplete(io: F.Io)
      modifies this, command, command.transaction, trustService
      ensures View() == F.TryComplete(old(View()), io)
    {
      if !command.transaction.View().CommittedComplete() || authenticated {
        return;
      }
      RefreshMetadata(io);
      var completed := MarkCompleted();
      if completed {
        CompleteTrust(io);
        Succeed();
      }
    }

    /** The save that makes the record Mutual; context.trusted devices need none. */
    method CommitTrust(io: F.Io) returns (saved: bool)
      modifies this`history, trustService
      ensures var f := old(View());
              var (t, ok) := if f.trusted then (f.trust, true)
                             else T.Commit(f.trust, f.requestId, f.remoteName, f.peer.certificate, io.now, io.commitOk);
              && saved == ok
              && View() == if !ok then f.(trust := t)
                           else if f.trusted then f else F.Log(f.(trust := t), F.Saved(t.disk))
    {
      if context.trusted {
        return true;
      }
      saved := trustService.CommitRecord(context.requestId, context.remoteName, securePeer.certificate, io.now,
                                           io.commitOk);
      if saved {
        history := history + [F.Of(self, F.Saved(trustService.disk))];
      }
    }

    method AnnounceCommitted(io: F.Io)
      modifies this, command, command.transaction, trustService
      ensures View() == F.AnnounceCommitted(old(View()), io)
    {
      var ok := MarkProgress(P.LocalCommitted);
      if ok {
        SendPairingMessage(Committed(context.requestId, localId, context.effective), true);
        TryComplete(io);
      }
    }

    method TryCommit(io: F.Io)
      modifies this, command, command.transaction, trustService
      ensures View() == F.TryCommit(old(View()), io)
    {
      if !command.transaction.View().PreparedComplete() || P.LocalCommitted in command.transaction.progress {
        return;
      }
      var saved := CommitTrust(io);
      if !saved {
        Fail(IdentityUnavailable, true, io);
        return;
      }
      AnnounceCommitted(io);
    }

    /** The save of the Pending record; context.trusted devices need none. */
    method PrepareTrust(io: F.Io) returns (saved: bool)
      modifies this`history, trustService
      ensures var f := old(View());
              var (t, ok) := if f.trusted then (f.trust, true)
                             else T.Prepare(f.trust, f.requestId, f.peer, f.remoteName, f.effective, io.now,
                                             io.prepareOk);
              && saved == ok
              && View() == if !ok then f.(trust := t)
                           else if f.trusted then f else F.Log(f.(trust := t), F.Saved(t.disk))
    {
      if context.trusted {
        return true;
      }
      saved := trustService.PrepareRecord(context.requestId, securePeer, context.remoteName, context.effective,
                                            io.now, io.prepareOk);
      if saved {
        history := history + [F.Of(self, F.Saved(trustService.disk))];
      }
    }

    method AnnounceReady(io: F.Io)
      modifies this, command, command.transaction, trustService
      ensures View() == F.AnnounceReady(old(View()), io)
    {
      var ok := MarkProgress(P.LocalPrepared);
      if ok {
        SendPairingMessage(Ready(context.requestId, localId, context.effective), true);
        TryCommit(io);
        TryComplete(io);
      }
    }

    method PrepareAndAnnounce(io: F.Io)
      modifies this, command, command.transaction, trustService
      ensures View() == F.PrepareAndAnnounce(old(View()), io)
    {
      var saved := PrepareTrust(io);
      if !saved {
        Fail(IdentityUnavailable, true, io);
        return;
      }
      AnnounceReady(io);
    }

    method TryPrepare(io: F.Io)
      modifies this, command, command.transaction, trustService
      ensures View() == F.TryPrepare(old(View()), io)
    {
      if !command.transaction.View().DecisionsComplete() || P.LocalPrepared in command.transaction.progress {
        return;
      }
      var decided := if outgoing then command.transaction.remotePermissions
                     else command.transaction.localPermissions;
      if ViewScreen !in decided {
        Fail(PairingRejected, true, io);
        return;
      }
      context := context.(effective := decided);
      PrepareAndAnnounce(io);
    }

    method SendPairingDecision(permissions: Scopes, io: F.Io)
      modifies this, command, command.transaction, trustService
      ensures View() == F.SendDecision(old(View()), permissions, io)
    {
      var ok := command.transaction.MarkLocalDecided(permissions);
      if !ok {
        return;
      }
      SendPairingMessage(Decision(context.requestId, localId, true, permissions), true);
      TryPrepare(io);
    }

    method SendHello()
      modifies this, command, command.transaction
      ensures View() == F.SendHello(old(View()))
    {
      var commitId := trustService.GetMutualCommitId(context.remoteDeviceId, securePeer.spki);
      var hello := Hello(context.requestId, localId, localName, true, commitId, context.requested);
      var ok := command.transaction.MarkFlag(P.HelloSent);
      if !ok {
        return;
      }
      SendPairingMessage(hello, true);
    }

    method InspectPeerTrust(peerCommitId: RequestId) returns (refused: Option<Reason>)
      modifies this`context
      ensures (View(), refused) == F.InspectPeerTrust(old(View()), peerCommitId)
    {
      var k := trustService.FindDevice(context.remoteDeviceId);
      if k < 0 {
        context := context.(trusted := false, withinTrust := false);
        return None;
      }
      var record := trustService.devices[k];
      if record.revoked {
        return Some(DeviceRevoked);
      }
      if record.spki != securePeer.spki {
        return Some(DeviceKeyChanged);
      }
      var mutual := trustService.GetMutuallyTrusted(context.remoteDeviceId, securePeer.spki, peerCommitId);
      var access := context.requested - {FileTransfer};
      var within := mutual && access - record.permissionLimit == {};
      context := context.(trusted := mutual, withinTrust := within);
      refused := None;
    }

    method BeginPairingOrAutomaticDecision(io: F.Io)
      modifies this, command, command.transaction, trustService
      ensures View() == F.BeginPairingOrAutomaticDecision(old(View()), io)
    {
      if P.HelloReceived !in command.transaction.progress
         || command.transaction.localPermissions != {} || promptVisible {
        return;
      }
      var k := trustService.FindDevice(context.remoteDeviceId);
      if context.trusted && k >= 0 {
        var permissions := if outgoing then context.requested
                           else trustService.devices[k].permissionLimit * context.requested;
        SendPairingDecision(permissions, io);
        return;
      }
      if !io.verificationOk {
        Fail(ChannelBindingUnavailable, true, io);
        return;
      }
      promptVisible := true;
    }

    method ReplayCurrentPairingResponse()
      modifies this`history
      ensures View() == var r := old(View()).command.Replay();
                        if r.Some? then F.Log(old(View()), F.Replayed(r.value)) else old(View())
    {
      var response := command.ReplayResponse();
      if response.Some? {
        history := history + [F.Of(self, F.Replayed(response.value))];
      }
    }

    method KeepHello(m: Message)
      requires m.Hello?
      modifies this`context, command
      ensures View() == F.Named(old(View()), m)
    {
      command.AcceptHello(m);
      context := context.(remoteName := m.deviceName);
    }

    method RecordChoice(theirs: RequestId)
      modifies this`history
      ensures View() == F.RecordChoice(old(View()), theirs)
    {
      var own := T.MutualCommitId(trustService.devices, context.remoteDeviceId, securePeer.spki);
      history := history + [F.Of(self, F.Chosen(context.requestId, context.trusted, own, theirs))];
    }

    method ContinueHello(io: F.Io)
      modifies this, command, command.transaction, trustService
      ensures View() == F.ContinueHello(old(View()), io)
    {
      if P.HelloSent !in command.transaction.progress {
        SendHello();
      }
      BeginPairingOrAutomaticDecision(io);
    }

    /** The part of `handleHello` behind the checks on duplicates and on the sender. */
    method AcceptHello(m: Message, io: F.Io)
      requires m.Hello?
      modifies this, command, command.transaction, trustService
      ensures View() == F.AcceptHello(old(View()), m, io)
    {
      KeepHello(m);
      var refused := InspectPeerTrust(m.trustCommitId);
      if refused.Some? {
        Fail(refused.value, true, io);
        return;
      }
      RecordChoice(m.trustCommitId);
      ContinueHello(io);
    }

    method AdoptRequest(m: Message)
      requires m.Hello?
      modifies this`context, command, command.transaction
      ensures View() == F.AdoptRequest(old(View()), m)
    {
      context := context.(requestId := m.requestId, requested := m.permissions);
      if !command.transaction.View().Active() {
        command.Start(m.requestId, generation);
      }
    }

    method HandleNewHello(m: Message, io: F.Io)
      requires m.Hello?
      modifies this, command, command.transaction, trustService
      ensures View() == F.HandleNewHello(old(View()), m, io)
    {
      if !m.standardMethod {
        Fail(ProtocolIncompatible, true, io);
        return;
      }
      if m.deviceId != securePeer.deviceId {
        Fail(DeviceKeyChanged, true, io);
        return;
      }
      if !outgoing {
        AdoptRequest(m);
      } else if !command.transaction.View().Matches(m.requestId, generation) {
        return;
      }
      ReceiveHello(m, io);
    }

    method ReceiveHello(m: Message, io: F.Io)
      requires m.Hello?
      modifies this, command, command.transaction, trustService
      ensures View() == F.ReceiveHello(old(View()), m, io)
    {
      var ok := MarkProgress(P.HelloReceived);
      if ok {
        AcceptHello(m, io);
      }
    }

    method HandleHello(m: Message, io: F.Io)
      requires m.Hello?
      modifies this, command, command.transaction, trustService
      ensures View() == F.HandleHello(old(View()), m, io)
    {
      var disposition := command.Classify(m, generation);
      match disposition
      case ConflictingRequest => SendPairingMessage(Rejected(m.requestId, ProtocolIncompatible), false);
      case ConflictingPayload => Fail(ProtocolIncompatible, true, io);
      case DuplicateHello => ReplayCurrentPairingResponse();
      case NewHello => HandleNewHello(m, io);
    }

    method HandlePairingDecision(m: Message, io: F.Io)
      requires m.Decision?
      modifies this, command, command.transaction, trustService
      ensures View() == F.HandleDecision(old(View()), m, io)
    {
      if P.HelloReceived !in command.transaction.progress || m.deviceId != securePeer.deviceId {
        return;
      }
      if !m.accepted {
        Fail(PairingRejected, false, io);
        return;
      }
      var ok := command.transaction.MarkRemoteDecided(m.permissions);
      if ok {
        TryPrepare(io);
      }
    }

    method HandlePrepared(m: Message, io: F.Io)
      requires m.Ready?
      modifies this, command, command.transaction, trustService
      ensures View() == F.HandlePrepared(old(View()), m, io)
    {
      var decided := if outgoing then command.transaction.remotePermissions
                     else command.transaction.localPermissions;
      if m.deviceId != securePeer.deviceId || m.permissions != decided {
        Fail(ProtocolIncompatible, true, io);
        return;
      }
      var ok := command.transaction.MarkFlag(P.RemotePrepared);
      if ok {
        TryPrepare(io);
        TryCommit(io);
      }
    }

    method HandleCommitted(m: Message, io: F.Io)
      requires m.Committed?
      modifies this, command, command.transaction, trustService
      ensures View() == F.HandleCommitted(old(View()), m, io)
    {
      if m.deviceId != securePeer.deviceId || m.permissions != context.effective {
        return;
      }
      var ok := command.transaction.MarkFlag(P.RemoteCommitted);
      if ok {
        TryCommit(io);
        TryComplete(io);
      }
    }

    method HandleMessage(m: Message, gen: nat, io: F.Io)
      modifies this, command, command.transaction, trustService
      ensures View() == F.HandleMessage(old(View()), m, gen, io) && H.KeepsOn(old(View()), m, View())
    {
      H.MessageKeeps(View(), m, gen, io);
      if !active || gen != generation {
        return;
      }
      if !m.Hello? && !command.transaction.View().Matches(m.requestId, gen) {
        return;
      }
      match m
      case Rejected(_, reason) => Fail(reason, false, io);
      case Hello(_, _, _, _, _, _) => HandleHello(m, io);
      case Decision(_, _, _, _) => HandlePairingDecision(m, io);
      case Ready(_, _, _) => HandlePrepared(m, io);
      case Committed(_, _, _) => HandleCommitted(m, io);
    }

    method RespondPairing(request: RequestId, accepted: bool, granted: Scopes, io: F.Io)
      modifies this, command, command.transaction, trustService
      ensures View() == F.RespondPairing(old(View()), request, accepted, granted, io)
      ensures H.Keeps(old(View()), View())
    {
      H.RespondKeeps(View(), request, accepted, granted, io);
      AnswerPrompt(request, accepted, granted, io);
    }

    method AnswerPrompt(request: RequestId, accepted: bool, granted: Scopes, io: F.Io)
      modifies this, command, command.transaction, trustService
      ensures View() == F.RespondPairing(old(View()), request, accepted, granted, io)
    {
      if !active || !promptVisible || request != context.requestId {
        return;
      }
      promptVisible := false;
      if !accepted {
        Fail(PairingRejected, true, io);
        return;
      }
      var permissions := if outgoing then context.requested else granted * context.requested;
      if ViewScreen !in permissions {
        Fail(PairingRejected, true, io);
        return;
      }
      SendPairingDecision(permissions, io);
    }

    method Cancel(reason: Reason, notifyRemote: bool, emitOutcome: bool, io: F.Io)
      modifies this, command, command.transaction, trustService
      ensures View() == F.Cancel(old(View()), reason, notifyRemote, emitOutcome, io)
      ensures H.Keeps(old(View()), View())
    {
      H.CancelKeeps(View(), reason, notifyRemote, emitOutcome, io);
      if !active {
        return;
      }
      RollbackPairing(io.cancelRollbackOk);
      if emitOutcome {
        Fail(reason, notifyRemote, io);
        return;
      }
      if notifyRemote && context.requestId != 0 {
        SendPairingMessage(Rejected(context.requestId, WireReason(reason)), true);
      }
      Clear(io.clearRollbackOk);
    }

    method LoadTrust(io: F.Io) returns (ok: bool)
      modifies this`localId, this`history, trustService
      ensures (View(), ok) == F.LoadTrust(old(View()), io)
    {
      if !io.identityOk {
        return false;
      }
      localId := identity;
      ok := LoadStore(io);
      if ok {
        history := history + [F.Of(self, F.Loaded(trustService.devices))];
        ok := io.certificateOk;
      }
    }

    /** The recovered store, saved if the recovery changed it. */
    method LoadStore(io: F.Io) returns (ok: bool)
      modifies this`history, trustService
      ensures (View(), ok) == F.LoadStore(old(View()), io)
    {
      var before := trustService.disk;
      ok := trustService.LoadDevices(io.readOk, io.recoveryOk);
      if ok && trustService.disk != before {
        history := history + [F.Of(self, F.Saved(trustService.disk))];
      }
    }

    method StartSession(out: bool, gen: nat, name: string)
      modifies this
      ensures View() == F.StartSession(old(View()), out, gen, name)
    {
      context := context.(remoteDeviceId := securePeer.deviceId);
      outgoing := out;
      active := true;
      generation := gen;
      localName := F.Left(name, 128);
    }

    method BeginOutgoing(request: RequestId, gen: nat, name: string, scopes: Scopes, io: F.Io)
      modifies this, command, command.transaction, trustService
      ensures View() == F.BeginOutgoing(old(View()), request, gen, name, scopes, io)
      ensures gen != 0 ==> H.Begins(old(View()), F.Controller, request, scopes, View())
    {
      if gen != 0 {
        H.BeginOutgoingKeeps(View(), request, gen, name, scopes, io);
      }
      OpenOutgoing(request, gen, name, scopes, io);
    }

    method OpenOutgoing(request: RequestId, gen: nat, name: string, scopes: Scopes, io: F.Io)
      modifies this, command, command.transaction, trustService
      ensures View() == F.BeginOutgoing(old(View()), request, gen, name, scopes, io)
    {
      Clear(io.clearRollbackOk);
      if request == 0 || ViewScreen !in scopes {
        return;
      }
      var loaded := LoadTrust(io);
      if !loaded || !securePeer.valid {
        return;
      }
      StartSession(true, gen, name);
      OpenRequest(request, gen, scopes);
    }

    method OpenRequest(request: RequestId, gen: nat, scopes: Scopes)
      modifies this, command, command.transaction
      ensures View() == F.OpenRequest(old(View()), request, gen, scopes)
    {
      context := context.(requestId := request, requested := scopes);
      command.Start(request, gen);
      SendHello();
    }

    method BeginIncoming(gen: nat, name: string, io: F.Io)
      modifies this, command, command.transaction, trustService
      ensures View() == F.BeginIncoming(old(View()), gen, name, io)
      ensures gen != 0 ==> forall r, requested :: H.Begins(old(View()), F.Controlled, r, requested, View())
    {
      if gen != 0 {
        H.BeginIncomingKeeps(View(), gen, name, io);
      }
      OpenIncoming(gen, name, io);
    }

    method OpenIncoming(gen: nat, name: string, io: F.Io)
      modifies this, command, command.transaction, trustService
      ensures View() == F.BeginIncoming(old(View()), gen, name, io)
    {
      Clear(io.clearRollbackOk);
      if io.rateLimited {
        return;
      }
      var loaded := LoadTrust(io);
      if !loaded || !securePeer.valid {
        return;
      }
      StartSession(false, gen, name);
    }
  }
}
