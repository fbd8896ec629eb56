/** Runs of one transfer attempt: every interleaving of the data channel, the control path, the
    reads, the receiver's worker and its callbacks, pauses, refused sends and failing jobs. */
module TransferAttempt {
  import opened Wrappers
  import opened FileTransfer
  import opened TransferWindow

  datatype Attempt = Attempt(
    source: seq<Byte>,
    s: Sender,
    r: Receiver,
    opening: bool,     // the receiver's `beginWrite` job is outstanding
    delivered: nat,    // frames the receiver has been handed
    accepted: nat,     // frames it queued for writing
    completed: nat,    // FileComplete messages it has been handed
    heard: bool)       // the sender has had an Ack

  datatype Step =
    | Opened(outcome: AckOutcome)
    | OpenFails
    | Pumped(io: Io)
    | SenderPaused
    | SenderResumed(io: Io)
    | ReadFinished(ok: bool, io: Io)
    | FrameArrives
    | WorkerStep(bytes: nat, systemOk: bool)
    | Callback(outcome: AckOutcome)
    | AckFlushed
    | AckArrives(io: Io)
    | CompletionArrives
    | ReceiverPaused
    | ReceiverResumed
    | SenderStops
    | ReceiverStops
    | TaskCompleteArrives

  predicate Enabled(a: Attempt, step: Step) {
    match step
    case Opened(_) => a.opening
    case OpenFails => a.opening
    case ReadFinished(_, _) => a.s.reading.Some? && a.s.reading.value <= |a.source|
    case FrameArrives => a.delivered < |a.s.frames|
    case WorkerStep(_, _) => |a.r.outcomes| < |a.r.jobs|
    case Callback(_) => a.r.done < |a.r.outcomes| <= |a.r.jobs|
    case AckArrives(_) => a.r.acks.wire != []
    case CompletionArrives => a.completed < |a.s.completions|
    case TaskCompleteArrives => a.r.phase.Finished?
    case _ => true
  }

  /** One step of the sending side alone. */
  function SenderStep(a: Attempt, step: Step): Sender
    requires Enabled(a, step)
  {
    match step
    case Pumped(io) => Pump(a.s, io)
    case SenderPaused => PauseSender(a.s)
    case SenderResumed(io) => ResumeSender(a.s, io)
    case ReadFinished(ok, io) =>
      var (data, complete) := ReadChunk(a.source, a.s.reading.value);
      ReadDone(a.s, ok, data, complete, io)
    case AckArrives(io) => HandleAck(a.s, a.r.acks.wire[0], io)
    case SenderStops => FailSender(a.s, RemoteError)
    case TaskCompleteArrives => FinishSender(a.s)
    case _ => a.s
  }

  /** One step of the receiving side alone. */
  function ReceiverStep(a: Attempt, step: Step): Receiver
    requires Enabled(a, step)
  {
    match step
    case Opened(outcome) => WriteOpened(a.r, outcome)
    case OpenFails => WriteNotOpened(a.r)
    case FrameArrives => AppendReceived(a.r, a.s.frames[a.delivered])
    case WorkerStep(bytes, systemOk) => WorkerRuns(a.r, bytes, systemOk)
    case Callback(outcome) => JobDone(a.r, outcome)
    case AckFlushed => a.r.(acks := FlushAck(a.r.acks))
    case AckArrives(_) => a.r.(acks := a.r.acks.(wire := a.r.acks.wire[1..]))
    case CompletionArrives => HandleCompletion(a.r, a.s.completions[a.completed])
    case ReceiverPaused => PauseReceiver(a.r)
    case ReceiverResumed => ResumeReceiver(a.r)
    case ReceiverStops => FailReceiver(a.r, RemoteError)
    case _ => a.r
  }

  function Next(a: Attempt, step: Step): Attempt
    requires Enabled(a, step)
  {
    Attempt(a.source, SenderStep(a, step), ReceiverStep(a, step),
            a.opening && !step.Opened? && !step.OpenFails?,
            if step.FrameArrives? then a.delivered + 1 else a.delivered,
            if step.FrameArrives? && Fits(a.r, a.s.frames[a.delivered]) then a.accepted + 1 else a.accepted,
            if step.CompletionArrives? then a.completed + 1 else a.completed,
            a.heard || step.AckArrives?)
  }

  function Start(source: seq<Byte>): Attempt {
    Attempt(source, NewSender(|source|), NewReceiver(|source|), true, 0, 0, 0, false)
  }

  /** The steps can be taken one after the other. */
  predicate Runs(a: Attempt, steps: seq<Step>)
    decreases |steps|
  {
    steps == [] || (Enabled(a, steps[0]) && Runs(Next(a, steps[0]), steps[1..]))
  }

  function After(a: Attempt, steps: seq<Step>): Attempt
    requires Runs(a, steps)
    decreases |steps|
  {
    if steps == [] then a else After(Next(a, steps[0]), steps[1..])
  }

  predicate Fresh(a: Attempt) {
    && !a.r.writeReady && a.r.jobs == [] && a.accepted == 0 && a.r.lastAck == 0
    && a.s.acked == 0 && a.r.acks == AckPath([], None)
  }

  predicate Linked(a: Attempt) {
    && a.accepted <= a.delivered <= |a.s.frames|
    && a.completed <= |a.s.completions|
    && (a.r.writeReady ==> a.accepted == a.delivered)
    && (a.opening ==> Fresh(a) && (a.delivered > 0 ==> !Active(a.r.phase)))
    && (a.s.phase.Finished? ==> a.r.file.published)
  }

  predicate Inv(a: Attempt) {
    && SenderInv(a.source, a.s) && ReceiverInv(a.source, a.r, a.accepted)
    && AcksOk(|a.source|, a.s.acked, a.r) && Linked(a)
  }

  /** A frame is refused exactly when the receiver's write session is not open. */
  lemma FrameFits(a: Attempt)
    requires Inv(a) && a.delivered < |a.s.frames|
    ensures Fits(a.r, a.s.frames[a.delivered]) <==> a.r.writeReady
  {
    if a.r.writeReady {
      var n := a.accepted;
      var f := FrameAt(a.source, n);
      assert a.s.frames[n] == f;
      NextChunk(a.source, n);
      PosMonotone(|a.source|, n + 1, |a.s.frames|);
      AckedBelow(a);
    }
  }

  lemma AckedBelow(a: Attempt)
    requires Inv(a)
    ensures a.s.acked <= a.r.lastAck
  {
    var c := Chain(a.s.acked, a.r.acks);
    assert c[0] <= a.r.lastAck;
  }

  /** The Ack at the head of the channel is one the sender can take. */
  lemma AckFits(a: Attempt)
    requires Inv(a) && a.r.acks.wire != []
    ensures a.s.acked <= a.r.acks.wire[0] <= a.s.sent && Aligned(|a.source|, a.r.acks.wire[0])
  {
    var c := Chain(a.s.acked, a.r.acks);
    assert c[1] == a.r.acks.wire[0] && c[0] <= c[1];
    assert c[1] <= a.r.lastAck;
    PosMonotone(|a.source|, a.accepted, |a.s.frames|);
  }

  /** Every state of every run keeps the offsets in order and inside the window, and the two
      tasks never report each other's frames or Acks as invalid while the write session is open. */
  lemma WindowHolds(a: Attempt)
    requires Inv(a)
    ensures a.s.acked <= a.r.lastAck <= a.r.written <= a.r.queued <= a.s.sent <= a.s.acked + WINDOW
    ensures a.s.phase != Failed(InvalidAck) && a.s.phase != Failed(InvalidSourceOffset)
    ensures a.r.phase != Failed(InvalidCompletion)
    ensures a.delivered < |a.s.frames| ==> (Fits(a.r, a.s.frames[a.delivered]) <==> a.r.writeReady)
  {
    AckedBelow(a);
    PosMonotone(|a.source|, a.accepted, |a.s.frames|);
    if a.delivered < |a.s.frames| {
      FrameFits(a);
    }
  }

  // ---------- every step keeps the invariant ----------

  lemma SenderStepInv(a: Attempt, step: Step)
    requires Inv(a) && Enabled(a, step) && !step.AckArrives?
    ensures SenderInv(a.source, SenderStep(a, step)) && Extends(a.s, SenderStep(a, step))
  {
    match step
    case Pumped(io) => PumpInv(a.source, a.s, io);
    case SenderResumed(io) =>
      if a.s.phase.Paused? {
        PumpInv(a.source, a.s.(phase := Transferring), io);
      }
    case ReadFinished(ok, io) => ReadDoneInv(a.source, a.s, ok, io);
    case SenderStops => FailSenderInv(a.source, a.s, RemoteError);
    case _ =>
  }

  lemma FrameArrivesInv(a: Attempt)
    requires Inv(a) && Enabled(a, FrameArrives)
    ensures ReceiverInv(a.source, ReceiverStep(a, FrameArrives), Next(a, FrameArrives).accepted)
    ensures AcksOk(|a.source|, a.s.acked, ReceiverStep(a, FrameArrives))
  {
    FrameFits(a);
    if a.r.writeReady {
      AppendReceivedInv(a.source, a.r, a.accepted);
    } else {
      FailReceiverInv(a.source, a.r, a.accepted, InvalidOffset);
    }
  }

  lemma CallbackInv(a: Attempt, outcome: AckOutcome)
    requires Inv(a) && Enabled(a, Callback(outcome))
    ensures ReceiverInv(a.source, JobDone(a.r, outcome), a.accepted)
    ensures AcksOk(|a.source|, a.s.acked, JobDone(a.r, outcome))
  {
    JobDoneKeepsOrder(a.source, a.s.acked, a.r, a.accepted, outcome);
    if a.r.jobs[a.r.done].Append? {
      WriteDoneInv(a.source, a.r, a.accepted, outcome);
    } else {
      FinalizeDoneInv(a.source, a.r, a.accepted, outcome);
    }
  }

  /** The phase of a receiver that is neither writing nor finished. */
  lemma PauseInv(source: seq<Byte>, r: Receiver, n: nat)
    requires ReceiverInv(source, r, n)
    ensures ReceiverInv(source, PauseReceiver(r), n) && ReceiverInv(source, ResumeReceiver(r), n)
  {
  }

  lemma ReceiverStepInv(a: Attempt, step: Step)
    requires Inv(a) && Enabled(a, step) && !step.AckArrives? && !step.AckFlushed?
    ensures ReceiverInv(a.source, ReceiverStep(a, step), Next(a, step).accepted)
    ensures AcksOk(|a.source|, a.s.acked, ReceiverStep(a, step))
  {
    if step.FrameArrives? {
      FrameArrivesInv(a);
    } else {
      QuietStepInv(a, step);
    }
  }

  lemma QuietStepInv(a: Attempt, step: Step)
    requires Inv(a) && Enabled(a, step) && !step.AckArrives? && !step.AckFlushed? && !step.FrameArrives?
    ensures ReceiverInv(a.source, ReceiverStep(a, step), a.accepted)
    ensures AcksOk(|a.source|, a.s.acked, ReceiverStep(a, step))
  {
    match step
    case Opened(outcome) => WriteOpenedInv(a.source, a.s.acked, a.r, outcome);
    case Callback(outcome) => CallbackInv(a, outcome);
    case _ => SameAcksStepInv(a, step);
  }

  lemma SameAcksStepInv(a: Attempt, step: Step)
    requires Inv(a) && Enabled(a, step) && !step.AckArrives? && !step.AckFlushed? && !step.FrameArrives?
    requires !step.Opened? && !step.Callback?
    ensures ReceiverInv(a.source, ReceiverStep(a, step), a.accepted)
    ensures SameAcks(a.r, ReceiverStep(a, step))
  {
    match step
    case OpenFails => FailReceiverInv(a.source, a.r, a.accepted, DestinationOpenFailed);
    case WorkerStep(bytes, systemOk) => WorkerRunsInv(a.source, a.r, a.accepted, bytes, systemOk);
    case CompletionArrives => HandleCompletionInv(a.source, a.r, a.accepted);
    case ReceiverStops => FailReceiverInv(a.source, a.r, a.accepted, RemoteError);
    case _ => PauseInv(a.source, a.r, a.accepted);
  }

  lemma ChainTail(total: nat, acked: nat, p: AckPath, last: nat)
    requires ChainOk(total, Chain(acked, p), last)
    ensures ChainOk(total, Chain(acked, FlushAck(p)), last)
    ensures p.wire != [] ==> ChainOk(total, Chain(p.wire[0], p.(wire := p.wire[1..])), last)
  {
    var c := Chain(acked, p);
    assert Chain(acked, FlushAck(p)) == c;
    if p.wire != [] {
      assert Chain(p.wire[0], p.(wire := p.wire[1..])) == c[1..];
    }
  }

  lemma AcksOnly(source: seq<Byte>, r: Receiver, n: nat, acks: AckPath)
    requires ReceiverInv(source, r, n)
    ensures ReceiverInv(source, r.(acks := acks), n)
  {
  }

  lemma FlushInv(a: Attempt)
    requires Inv(a)
    ensures Inv(Next(a, AckFlushed))
  {
    ChainTail(|a.source|, a.s.acked, a.r.acks, a.r.lastAck);
    AcksOnly(a.source, a.r, a.accepted, FlushAck(a.r.acks));
  }

  lemma AckArrivesInv(a: Attempt, io: Io)
    requires Inv(a) && Enabled(a, AckArrives(io))
    ensures Inv(Next(a, AckArrives(io)))
  {
    var offset := a.r.acks.wire[0];
    AckFits(a);
    HandleAckInv(a.source, a.s, offset, io);
    ChainTail(|a.source|, a.s.acked, a.r.acks, a.r.lastAck);
    AcksOnly(a.source, a.r, a.accepted, a.r.acks.(wire := a.r.acks.wire[1..]));
    var t := HandleAck(a.s, offset, io);
    AckKeepsPhase(a.s, offset, io);
    assert Next(a, AckArrives(io)).s == t && t.acked == offset;
  }

  lemma AckKeepsPhase(s: Sender, offset: nat, io: Io)
    ensures HandleAck(s, offset, io).phase.Finished? <==> s.phase.Finished?
  {
  }

  predicate OnSender(step: Step) {
    || step.Pumped? || step.SenderPaused? || step.SenderResumed? || step.ReadFinished?
    || step.SenderStops? || step.TaskCompleteArrives?
  }

  lemma PumpNeverFinishes(s: Sender, io: Io)
    ensures Pump(s, io).phase.Finished? ==> s.phase.Finished?
    ensures SendPending(s, io).phase.Finished? ==> s.phase.Finished?
  {
  }

  /** Only the receiver's TaskComplete finishes the sender. */
  lemma SenderFinishes(a: Attempt, step: Step)
    requires Enabled(a, step) && SenderStep(a, step).phase.Finished?
    ensures a.s.phase.Finished? || step.TaskCompleteArrives?
  {
    match step
    case Pumped(io) => PumpNeverFinishes(a.s, io);
    case SenderResumed(io) => PumpNeverFinishes(a.s.(phase := Transferring), io);
    case ReadFinished(ok, io) => ReadNeverFinishes(a, step);
    case AckArrives(io) => AckKeepsPhase(a.s, a.r.acks.wire[0], io);
    case _ =>
  }

  lemma ReadNeverFinishes(a: Attempt, step: Step)
    requires Enabled(a, step) && step.ReadFinished? && SenderStep(a, step).phase.Finished?
    ensures a.s.phase.Finished?
  {
    var (data, complete) := ReadChunk(a.source, a.s.reading.value);
    PumpNeverFinishes(a.s.(reading := None, readPending := false, pending := data,
                           pendingOffset := a.s.reading.value, pendingComplete := complete), step.io);
  }

  lemma SenderSideInv(a: Attempt, step: Step)
    requires Inv(a) && Enabled(a, step) && OnSender(step)
    ensures Inv(Next(a, step))
  {
    SenderStepInv(a, step);
    var b := Next(a, step);
    assert b.r == a.r;
    if b.s.phase.Finished? {
      SenderFinishes(a, step);
    }
  }

  /** What a receiver's step does to the facts that link the two tasks. */
  lemma ReceiverLinks(a: Attempt, step: Step)
    requires Inv(a) && Enabled(a, step) && !OnSender(step) && !step.AckArrives? && !step.AckFlushed?
    ensures Linked(Next(a, step))
  {
    match step
    case FrameArrives => FrameArrivesLinks(a, step);
    case Callback(outcome) => CallbackLinks(a, outcome);
    case _ =>
  }

  lemma CallbackLinks(a: Attempt, outcome: AckOutcome)
    requires Inv(a) && Enabled(a, Callback(outcome))
    ensures Linked(Next(a, Callback(outcome)))
  {
    CallbackFrame(a.r, outcome);
    assert !a.opening;
  }

  lemma CallbackFrame(r: Receiver, outcome: AckOutcome)
    requires r.done < |r.outcomes| <= |r.jobs|
    ensures var q := JobDone(r, outcome);
            q.file == r.file && (q.writeReady ==> r.writeReady)
  {
    if r.jobs[r.done].Append? {
      ChunkDone(r, outcome);
      ChunkWrittenFrame(r.(done := r.done + 1), |r.jobs[r.done].data|, outcome);
    } else {
      OtherJobDone(r, outcome);
    }
  }

  lemma ChunkWrittenFrame(r: Receiver, size: nat, outcome: AckOutcome)
    ensures var q := ChunkWritten(r, size, outcome);
            q.file == r.file && (q.writeReady ==> r.writeReady)
  {
    var q := Acknowledge(r.(written := r.written + size), outcome);
    assert q.file == r.file && q.writeReady == r.writeReady;
  }

  lemma FrameArrivesLinks(a: Attempt, step: Step)
    requires Inv(a) && Enabled(a, step) && step.FrameArrives?
    ensures Linked(Next(a, step))
  {
    FrameFits(a);
  }

  lemma StepInv(a: Attempt, step: Step)
    requires Inv(a) && Enabled(a, step)
    ensures Inv(Next(a, step))
  {
    if OnSender(step) {
      SenderSideInv(a, step);
    } else if step.AckArrives? {
      AckArrivesInv(a, step.io);
    } else if step.AckFlushed? {
      FlushInv(a);
    } else {
      ReceiverStepInv(a, step);
      ReceiverLinks(a, step);
    }
  }

  lemma StartInv(source: seq<Byte>)
    ensures Inv(Start(source))
  {
    assert source[..0] == [];
    assert Chain(0, AckPath([], None)) == [0];
  }

  lemma {:induction false} RunInv(a: Attempt, steps: seq<Step>)
    requires Inv(a) && Runs(a, steps)
    ensures Inv(After(a, steps)) && After(a, steps).source == a.source
    decreases |steps|
  {
    if steps != [] {
      StepInv(a, steps[0]);
      RunInv(Next(a, steps[0]), steps[1..]);
    }
  }

  // ---------- what holds in every run ----------

  /** In every run the offsets are ordered and inside the window, no Ack and no pending chunk is
      ever invalid, and a frame is refused exactly when the write session is not open. */
  lemma EveryRunKeepsWindow(source: seq<Byte>, steps: seq<Step>)
    requires Runs(Start(source), steps)
    ensures var a := After(Start(source), steps);
            && a.s.acked <= a.r.lastAck <= a.r.written <= a.r.queued <= a.s.sent <= a.s.acked + WINDOW
            && a.s.phase != Failed(InvalidAck) && a.s.phase != Failed(InvalidSourceOffset)
            && a.r.phase != Failed(InvalidCompletion)
            && (a.delivered < |a.s.frames| ==> (Fits(a.r, a.s.frames[a.delivered]) <==> a.r.writeReady))
  {
    StartInv(source);
    RunInv(Start(source), steps);
    WindowHolds(After(Start(source), steps));
  }

  predicate IsFinalization(r: Receiver, i: nat)
    requires i < |r.jobs|
  {
    r.jobs[i].Finalize?
  }

  /** Exact delivery: the frames are the source's chunks in order, none twice and none skipped, the
      destination is a prefix of the source, the announced digest is the source's, finalization is
      asked for at most once and only when everything is written, and what is published is the source. */
  lemma ExactDelivery(source: seq<Byte>, steps: seq<Step>)
    requires Runs(Start(source), steps)
    ensures var a := After(Start(source), steps);
            && (forall i :: 0 <= i < |a.s.frames| ==> i * CHUNK < |source| && a.s.frames[i] == FrameAt(source, i))
            && a.r.file.content <= source
            && a.r.written <= |a.r.file.content|
            && (forall i :: 0 <= i < |a.s.completions| ==> a.s.completions[i] == Completion(|source|, Sha256(source)))
            && (forall i, j | 0 <= i < |a.r.jobs| && 0 <= j < |a.r.jobs| ::
                  IsFinalization(a.r, i) && IsFinalization(a.r, j) ==> i == j)
            && (Active(a.r.phase) && a.r.finalizing ==> a.r.written == |source| && a.r.file.content == source)
            && (a.r.file.published ==> a.r.file.content == source)
            && (a.s.phase.Finished? || a.r.phase.Finished? ==> a.r.file.published)
  {
    StartInv(source);
    RunInv(Start(source), steps);
    var a := After(Start(source), steps);
    FinalizingHasAll(a);
  }

  lemma FinalizingHasAll(a: Attempt)
    requires Inv(a)
    ensures Active(a.r.phase) && a.r.finalizing ==> a.r.file.content == a.source
  {
  }
}
