/** The progress of one pairing transaction, and the duplicate handling around it:
    KPairingTransaction and KPairingCommand. */
module PairingTransactions {
  import opened Wrappers
  import opened PairingTypes

  datatype State = Inactive | ExchangingHello | AwaitingDecision | Preparing | Committing | Completed | Failed

  datatype Flag =
    | HelloSent | HelloReceived | LocalDecision | RemoteDecision
    | LocalPrepared | RemotePrepared | LocalCommitted | RemoteCommitted

  /** The value of a KPairingTransaction; the progress word is the set of its bits. */
  datatype Transaction = Transaction(
    requestId: RequestId,
    generation: nat,
    progress: set<Flag>,
    localPermissions: Scopes,
    remotePermissions: Scopes,
    state: State)
  {
    predicate Matches(request: RequestId, gen: nat) {
      && !state.Inactive? && !state.Failed?
      && request == requestId && gen == generation
    }

    predicate Active() { !state.Inactive? && !state.Completed? && !state.Failed? }

    predicate DecisionsComplete() { LocalDecision in progress && RemoteDecision in progress }

    predicate PreparedComplete() { LocalPrepared in progress && RemotePrepared in progress }

    predicate CommittedComplete() { LocalCommitted in progress && RemoteCommitted in progress }

    /** `markProgress` accepts the flag. */
    predicate Accepts(flag: Flag) { Active() && flag !in progress }

    predicate Guard(flag: Flag) {
      match flag
      case LocalPrepared => DecisionsComplete()
      case RemotePrepared => DecisionsComplete()
      case LocalCommitted => PreparedComplete()
      case RemoteCommitted => PreparedComplete()
      case _ => true
    }

    /** `updateState`: the furthest phase the flags have reached. */
    function Phase(): State {
      if CommittedComplete() || PreparedComplete() || LocalCommitted in progress then Committing
      else if DecisionsComplete() || LocalPrepared in progress then Preparing
      else if HelloSent in progress && HelloReceived in progress then AwaitingDecision
      else ExchangingHello
    }

    function Mark(flag: Flag): (Transaction, bool) {
      if Guard(flag) && Accepts(flag) then
        var next := this.(progress := progress + {flag});
        (next.(state := next.Phase()), true)
      else (this, false)
    }

    function MarkLocalDecision(permissions: Scopes): (Transaction, bool) {
      if LocalDecision in progress then (this, false)
      else this.(localPermissions := permissions).Mark(LocalDecision)
    }

    function MarkRemoteDecision(permissions: Scopes): (Transaction, bool) {
      if RemoteDecision in progress then (this, false)
      else this.(remotePermissions := permissions).Mark(RemoteDecision)
    }

    function MarkCompleted(): (Transaction, bool) {
      if !CommittedComplete() || state.Completed? then (this, false)
      else (this.(state := Completed), true)
    }

    function MarkFailed(): Transaction {
      if state.Completed? then this else this.(state := Failed)
    }

    /** The flags respect the order of the phases. */
    predicate Ordered() {
      && (LocalPrepared in progress || RemotePrepared in progress ==> DecisionsComplete())
      && (LocalCommitted in progress || RemoteCommitted in progress ==> PreparedComplete())
      && (state.Inactive? ==> progress == {})
      && (state.Completed? ==> CommittedComplete())
      && (Active() ==> state == Phase())
    }

    /** How many of the eight bits are still clear. */
    function Remaining(): int { 8 - |progress| }
  }

  const NoTransaction := Transaction(0, 0, {}, {}, {}, Inactive)

  function Begin(request: RequestId, generation: nat): Transaction {
    if request == 0 || generation == 0 then NoTransaction.(state := Failed)
    else NoTransaction.(requestId := request, generation := generation, state := ExchangingHello)
  }

  /** Every mark keeps the phase order, sets exactly its own bit, and sets it once: a second
      mark of the same flag is refused and changes nothing. */
  lemma MarkOnce(t: Transaction, flag: Flag)
    requires t.Ordered()
    ensures var (next, ok) := t.Mark(flag);
            && next.Ordered()
            && (ok ==> next.progress == t.progress + {flag} && flag !in t.progress
                       && next.Remaining() == t.Remaining() - 1)
            && (!ok ==> next == t)
            && next.Mark(flag) == (next, false)
  {
  }

  /** Completion needs all four exchanges on both sides. */
  lemma CompletedImpliesAllPhases(t: Transaction)
    requires t.Ordered() && t.MarkCompleted().1
    ensures {LocalDecision, RemoteDecision, LocalPrepared, RemotePrepared, LocalCommitted,
             RemoteCommitted} <= t.progress
    ensures t.MarkCompleted().0.Ordered()
    ensures t.MarkCompleted().0.MarkCompleted() == (t.MarkCompleted().0, false)
  {
  }

  /** `markCompleted` looks at the flags only: it also completes a transaction marked failed. */
  lemma FailedCanStillComplete(t: Transaction)
    requires !t.state.Completed?
    ensures t.MarkFailed().MarkCompleted().1 <==> t.CommittedComplete()
  {
  }

  class PairingTransaction {
    var requestId: RequestId
    var generation: nat
    var progress: set<Flag>
    var localPermissions: Scopes
    var remotePermissions: Scopes
    var state: State

    constructor ()
      ensures View() == NoTransaction
    {
      requestId, generation, progress, localPermissions, remotePermissions, state := 0, 0, {}, {}, {}, Inactive;
    }

    function View(): Transaction
      reads this
    {
      Transaction(requestId, generation, progress, localPermissions, remotePermissions, state)
    }

    method Reset()
      modifies this
      ensures View() == NoTransaction
    {
      requestId, generation, progress := 0, 0, {};
      localPermissions, remotePermissions, state := {}, {}, Inactive;
    }

    method Start(request: RequestId, gen: nat)
      modifies this
      ensures View() == Begin(request, gen)
    {
      Reset();
      if request == 0 || gen == 0 {
        state := Failed;
        return;
      }
      requestId, generation, state := request, gen, ExchangingHello;
    }

    method UpdateState()
      modifies this`state
      ensures state == View().Phase()
    {
      if LocalCommitted in progress && RemoteCommitted in progress {
        state := Committing;
      } else if (LocalPrepared in progress && RemotePrepared in progress) || LocalCommitted in progress {
        state := Committing;
      } else if (LocalDecision in progress && RemoteDecision in progress) || LocalPrepared in progress {
        state := Preparing;
      } else if HelloSent in progress && HelloReceived in progress {
        state := AwaitingDecision;
      } else {
        state := ExchangingHello;
      }
    }

    /** The flag-only marks and the guarded ones. */
    method MarkFlag(flag: Flag) returns (ok: bool)
      modifies this
      ensures (View(), ok) == old(View()).Mark(flag)
    {
      if !View().Guard(flag) {
        return false;
      }
      if state.Inactive? || state.Completed? || state.Failed? || flag in progress {
        return false;
      }
      progress := progress + {flag};
      UpdateState();
      ok := true;
    }

    method MarkLocalDecided(permissions: Scopes) returns (ok: bool)
      modifies this
      ensures (View(), ok) == old(View()).MarkLocalDecision(permissions)
    {
      if LocalDecision in progress {
        return false;
      }
      localPermissions := permissions;
      ok := MarkFlag(LocalDecision);
    }

    method MarkRemoteDecided(permissions: Scopes) returns (ok: bool)
      modifies this
      ensures (View(), ok) == old(View()).MarkRemoteDecision(permissions)
    {
      if RemoteDecision in progress {
        return false;
      }
      remotePermissions := permissions;
      ok := MarkFlag(RemoteDecision);
    }

    method Finish() returns (ok: bool)
      modifies this
      ensures (View(), ok) == old(View()).MarkCompleted()
    {
      if !(LocalCommitted in progress && RemoteCommitted in progress) || state.Completed? {
        return false;
      }
      state := Completed;
      ok := true;
    }

    method Abandon()
      modifies this
      ensures View() == old(View()).MarkFailed()
    {
      if !state.Completed? {
        state := Failed;
      }
    }
  }

  // ---------- duplicates and replays ----------

  datatype Disposition = NewHello | DuplicateHello | ConflictingRequest | ConflictingPayload

  /** The value of a KPairingCommand. */
  datatype Command = Command(
    transaction: Transaction,
    remoteHello: Option<Message>,
    cached: map<MessageType, Message>)
  {
    function ClassifyHello(message: Message, generation: nat): Disposition {
      if !transaction.Active() then NewHello
      else if !transaction.Matches(message.requestId, generation) then ConflictingRequest
      else if HelloReceived !in transaction.progress then NewHello
      else if remoteHello == Some(message) then DuplicateHello
      else ConflictingPayload
    }

    function Replay(): Option<Message> {
      if RejectedType in cached then Some(cached[RejectedType])
      else if CommittedType in cached then Some(cached[CommittedType])
      else if ReadyType in cached then Some(cached[ReadyType])
      else if DecisionType in cached then Some(cached[DecisionType])
      else None
    }

    function Cache(m: Message): Command { this.(cached := cached[TypeOf(m) := m]) }
  }

  const NoCommand := Command(NoTransaction, None, map[])

  class PairingCommand {
    const transaction: PairingTransaction
    var remoteHello: Option<Message>
    var cached: map<MessageType, Message>

    constructor ()
      ensures View() == NoCommand && fresh(transaction)
    {
      transaction := new PairingTransaction();
      remoteHello, cached := None, map[];
    }

    function View(): Command
      reads this, transaction
    {
      Command(transaction.View(), remoteHello, cached)
    }

    method Reset()
      modifies this, transaction
      ensures View() == NoCommand
    {
      transaction.Reset();
      remoteHello, cached := None, map[];
    }

    method Start(request: RequestId, generation: nat)
      modifies this, transaction
      ensures View() == NoCommand.(transaction := Begin(request, generation))
    {
      Reset();
      transaction.Start(request, generation);
    }

    method Classify(message: Message, generation: nat) returns (d: Disposition)
      ensures d == View().ClassifyHello(message, generation)
    {
      if !transaction.View().Active() {
        return NewHello;
      }
      if !transaction.View().Matches(message.requestId, generation) {
        return ConflictingRequest;
      }
      if HelloReceived !in transaction.progress {
        return NewHello;
      }
      d := if remoteHello == Some(message) then DuplicateHello else ConflictingPayload;
    }

    method AcceptHello(message: Message)
      modifies this
      ensures View() == old(View()).(remoteHello := Some(message))
    {
      remoteHello := Some(message);
    }

    method CacheResponse(message: Message)
      modifies this
      ensures View() == old(View()).Cache(message)
    {
      cached := cached[TypeOf(message) := message];
    }

    /** The search of `replayResponse`, latest phase first. */
    method ReplayResponse() returns (r: Option<Message>)
      ensures r == View().Replay()
    {
      var order := [RejectedType, CommittedType, ReadyType, DecisionType];
      for i := 0 to |order|
        invariant i > 0 ==> RejectedType !in cached
        invariant i > 1 ==> CommittedType !in cached
        invariant i > 2 ==> ReadyType !in cached
        invariant i > 3 ==> DecisionType !in cached
      {
        if order[i] in cached {
          return Some(cached[order[i]]);
        }
      }
      r := None;
    }
  }
}
