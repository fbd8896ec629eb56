/** When an attempt can still complete. For every run in which the sender is first pumped after the
    receiver's Ack(0), and whatever the control path refused, an attempt at rest can complete if and
    only if the destination is still being opened, or Ack(0) has arrived and the window leaves room
    for the next Ack; and then a number of steps linear in what is left of the file completes it. */
module TransferLiveness {
  import opened Wrappers
  import opened FileTransfer
  import opened TransferWindow
  import opened TransferAttempt
  import opened TransferProgress

  // ---------- reaching a state ----------

  /** At most k steps lead from a to b, none of them a pump before the first Ack. */
  ghost predicate Reaches(a: Attempt, b: Attempt, k: nat) {
    exists steps: seq<Step> :: |steps| <= k && Runs(a, steps) && PromptedRun(a, steps) && After(a, steps) == b
  }

  /** Both tasks have finished and the published file is the source. */
  predicate Completed(a: Attempt) {
    a.s.phase.Finished? && a.r.phase.Finished? && a.r.file.published && a.r.file.content == a.source
  }

  ghost predicate CompletesWithin(a: Attempt, k: nat) {
    exists b :: Reaches(a, b, k) && Completed(b)
  }

  /** Some continuation finishes the sender. */
  ghost predicate CanFinish(a: Attempt) {
    exists b, k :: Reaches(a, b, k) && b.s.phase.Finished?
  }

  lemma Stay(a: Attempt)
    ensures Reaches(a, a, 0)
  {
    var none: seq<Step> := [];
    assert Runs(a, none) && PromptedRun(a, none) && After(a, none) == a;
  }

  lemma Through(a: Attempt, b: Attempt, c: Attempt, j: nat, k: nat)
    requires Reaches(a, b, j) && Reaches(b, c, k)
    ensures Reaches(a, c, j + k)
  {
    var first :| |first| <= j && Runs(a, first) && PromptedRun(a, first) && After(a, first) == b;
    var second :| |second| <= k && Runs(b, second) && PromptedRun(b, second) && After(b, second) == c;
    Concatenate(a, first, second);
    assert |first + second| <= j + k;
  }

  lemma OneStep(a: Attempt, step: Step)
    requires Enabled(a, step) && Prompted(a, step)
    ensures Reaches(a, Next(a, step), 1)
  {
    Prepend(a, step, []);
    assert |[step] + []| <= 1;
  }

  lemma ThenStep(a: Attempt, b: Attempt, k: nat, step: Step)
    requires Reaches(a, b, k) && Enabled(b, step) && Prompted(b, step)
    ensures Reaches(a, Next(b, step), k + 1)
  {
    OneStep(b, step);
    Through(a, b, Next(b, step), k, 1);
  }

  lemma CompletesLater(a: Attempt, b: Attempt, j: nat, k: nat)
    requires Reaches(a, b, j) && CompletesWithin(b, k)
    ensures CompletesWithin(a, j + k)
  {
    var c :| Reaches(b, c, k) && Completed(c);
    Through(a, b, c, j, k);
  }

  lemma CompletesSooner(a: Attempt, j: nat, k: nat)
    requires CompletesWithin(a, j) && j <= k
    ensures CompletesWithin(a, k)
  {
    var b :| Reaches(a, b, j) && Completed(b);
    assert Reaches(a, b, k);
  }

  // ---------- the invariant ----------

  /** Finalization rests on an announced digest that has arrived, and the sender's end on the
      receiver's. */
  predicate Announced(a: Attempt) {
    && (a.r.completionReceived ==> a.completed > 0)
    && (a.r.finalizing ==> a.r.completionReceived)
    && (a.r.phase.Finished? ==> a.r.finalizing)
    && (a.s.phase.Finished? ==> a.r.phase.Finished?)
  }

  predicate FullInv(a: Attempt) {
    PromptInv(a) && EagerInv(a) && Announced(a)
  }

  lemma CallbackAnnounced(r: Receiver, outcome: AckOutcome)
    requires r.done < |r.outcomes| <= |r.jobs|
    requires (r.finalizing ==> r.completionReceived) && (r.phase.Finished? ==> r.finalizing)
    ensures var q := JobDone(r, outcome);
            && q.completionReceived == r.completionReceived
            && (q.finalizing ==> q.completionReceived)
            && (q.phase.Finished? ==> q.finalizing)
            && (r.phase.Finished? ==> q.phase.Finished?)
  {
    if r.jobs[r.done].Append? {
      ChunkDone(r, outcome);
      ChunkAnnounced(r.(done := r.done + 1), |r.jobs[r.done].data|, outcome);
    } else {
      OtherJobDone(r, outcome);
    }
  }

  lemma ChunkAnnounced(r: Receiver, size: nat, outcome: AckOutcome)
    requires r.finalizing ==> r.completionReceived
    ensures var q := ChunkWritten(r, size, outcome);
            && q.completionReceived == r.completionReceived && q.phase == r.phase
            && (q.finalizing ==> q.completionReceived) && (r.finalizing ==> q.finalizing)
  {
  }

  lemma StepAnnounced(a: Attempt, step: Step)
    requires Enabled(a, step) && Announced(a)
    ensures Announced(Next(a, step))
  {
    match step
    case Callback(outcome) => CallbackAnnounced(a.r, outcome);
    case _ => FinishedTogether(a, step);
  }

  lemma FinishedTogether(a: Attempt, step: Step)
    requires Enabled(a, step) && Announced(a) && !step.Callback?
    ensures Next(a, step).s.phase.Finished? ==> Next(a, step).r.phase.Finished?
  {
    if Next(a, step).s.phase.Finished? {
      if step.AckArrives? {
        AckKeepsPhase(a.s, a.r.acks.wire[0], step.io);
      } else if OnSender(step) {
        SenderFinishes(a, step);
      }
    }
  }

  lemma FullStep(a: Attempt, step: Step)
    requires FullInv(a) && Enabled(a, step) && Prompted(a, step)
    ensures FullInv(Next(a, step))
  {
    StepPrompt(a, step);
    StepEager(a, step);
    StepAnnounced(a, step);
  }

  lemma {:induction false} FullRun(a: Attempt, steps: seq<Step>)
    requires FullInv(a) && Runs(a, steps) && PromptedRun(a, steps)
    ensures FullInv(After(a, steps)) && After(a, steps).source == a.source
    decreases |steps|
  {
    if steps != [] {
      FullStep(a, steps[0]);
      FullRun(Next(a, steps[0]), steps[1..]);
    }
  }

  lemma FullStart(source: seq<Byte>)
    ensures FullInv(Start(source))
  {
    StartPrompt(source);
  }

  // ---------- attempts that cannot complete ----------

  /** How far the window lets the sender go when no further Ack arrives. */
  function Limit(a: Attempt): nat { a.s.acked + WINDOW }

  /** The sender has not heard from the receiver, and the write session will not be opened. */
  predicate NeverOpens(a: Attempt) {
    !a.opening && !a.heard && a.r.acks == AckPath([], None) && !a.s.phase.Finished?
  }

  /** No Ack is on its way, none falls due within the window, and the window ends before the file. */
  predicate OutOfAcks(a: Attempt) {
    && a.r.acks == AckPath([], None) && !a.s.phase.Finished? && !a.opening
    && Limit(a) < |a.source|
    && (Limit(a) - a.r.lastAck < ACK_INTERVAL || a.r.written == Limit(a))
  }

  lemma NotFinished(a: Attempt)
    requires FullInv(a) && a.s.completions == []
    ensures !a.r.phase.Finished?
  {
  }

  /** A sender that has not sent everything has announced nothing. */
  lemma NothingAnnounced(a: Attempt)
    requires FullInv(a) && Limit(a) < |a.source|
    ensures a.s.completions == []
  {
  }

  lemma NeverOpensStays(a: Attempt, step: Step)
    requires FullInv(a) && NeverOpens(a) && Enabled(a, step) && Prompted(a, step)
    ensures NeverOpens(Next(a, step))
  {
    NotFinished(a);
    match step
    case Callback(outcome) =>
      SilentOffsets(a);
      assert !a.r.jobs[a.r.done].Append?;
      OtherJobsKeepAcks(a.r, outcome);
    case AckFlushed =>
    case AckArrives(_) =>
    case Opened(_) =>
    case FrameArrives =>
    case _ => QuietSender(a, step);
  }

  /** Only TaskComplete finishes the sender, and only the receiver's callbacks and Acks move the
      Acks. */
  lemma QuietSender(a: Attempt, step: Step)
    requires Enabled(a, step) && !step.Callback? && !step.AckFlushed? && !step.AckArrives? && !step.Opened?
    requires a.completed <= |a.s.completions|
    ensures Next(a, step).r.acks == a.r.acks && Next(a, step).r.lastAck == a.r.lastAck
    ensures Next(a, step).r.written == a.r.written
    ensures Next(a, step).s.acked == a.s.acked
    ensures Next(a, step).s.phase.Finished? ==> a.s.phase.Finished? || a.r.phase.Finished?
  {
    QuietReceiver(a, step);
    AckedStays(a, step);
    if OnSender(step) && Next(a, step).s.phase.Finished? {
      SenderFinishes(a, step);
    }
  }

  lemma QuietReceiver(a: Attempt, step: Step)
    requires Enabled(a, step) && !step.Callback? && !step.AckFlushed? && !step.AckArrives? && !step.Opened?
    requires a.completed <= |a.s.completions|
    ensures ReceiverStep(a, step).acks == a.r.acks && ReceiverStep(a, step).lastAck == a.r.lastAck
    ensures ReceiverStep(a, step).written == a.r.written
  {
  }

  lemma AckedStays(a: Attempt, step: Step)
    requires Enabled(a, step) && !step.AckArrives?
    ensures SenderStep(a, step).acked == a.s.acked
  {
    match step
    case Pumped(io) => PumpKeepsAcked(a.s, io);
    case SenderResumed(io) => PumpKeepsAcked(a.s.(phase := Transferring), io);
    case ReadFinished(ok, io) =>
      var (data, complete) := ReadChunk(a.source, a.s.reading.value);
      PumpKeepsAcked(a.s.(reading := None, readPending := false, pending := data,
                          pendingOffset := a.s.reading.value, pendingComplete := complete), io);
    case _ =>
  }

  lemma PumpKeepsAcked(s: Sender, io: Io)
    ensures Pump(s, io).acked == s.acked && SendPending(s, io).acked == s.acked
  {
  }

  lemma OutOfAcksStays(a: Attempt, step: Step)
    requires FullInv(a) && OutOfAcks(a) && Enabled(a, step) && Prompted(a, step)
    ensures OutOfAcks(Next(a, step))
  {
    NothingAnnounced(a);
    NotFinished(a);
    match step
    case Callback(outcome) => CallbackOutOfAcks(a, outcome);
    case AckFlushed =>
    case AckArrives(_) =>
    case Opened(_) =>
    case _ => QuietSender(a, step);
  }

  /** A written chunk does not make an Ack due. */
  lemma CallbackOutOfAcks(a: Attempt, outcome: AckOutcome)
    requires FullInv(a) && OutOfAcks(a) && Enabled(a, Callback(outcome))
    ensures OutOfAcks(Next(a, Callback(outcome)))
  {
    if a.r.jobs[a.r.done].Append? && a.r.outcomes[a.r.done] && Active(a.r.phase) {
      CallbackOffsets(a);
      ChunkDone(a.r, outcome);
      ChunkWrittenFields(a.r.(done := a.r.done + 1), |a.r.jobs[a.r.done].data|, outcome);
    } else {
      OtherJobsKeepAcks(a.r, outcome);
      OtherJobsKeepLastAck(a.r, outcome);
    }
  }

  lemma OtherJobsKeepLastAck(r: Receiver, outcome: AckOutcome)
    requires r.done < |r.outcomes| <= |r.jobs|
    requires !(r.jobs[r.done].Append? && r.outcomes[r.done] && Active(r.phase))
    ensures JobDone(r, outcome).lastAck == r.lastAck
  {
  }

  lemma {:induction false} NeverFinishes(a: Attempt, steps: seq<Step>)
    requires FullInv(a) && (NeverOpens(a) || OutOfAcks(a)) && Runs(a, steps) && PromptedRun(a, steps)
    ensures !After(a, steps).s.phase.Finished?
    decreases |steps|
  {
    if steps != [] {
      FullStep(a, steps[0]);
      if NeverOpens(a) {
        NeverOpensStays(a, steps[0]);
      } else {
        OutOfAcksStays(a, steps[0]);
      }
      NeverFinishes(Next(a, steps[0]), steps[1..]);
    }
  }

  lemma CannotFinish(a: Attempt)
    requires FullInv(a) && (NeverOpens(a) || OutOfAcks(a))
    ensures !CanFinish(a)
  {
    forall b: Attempt, k: nat | Reaches(a, b, k) ensures !b.s.phase.Finished? {
      var steps :| |steps| <= k && Runs(a, steps) && PromptedRun(a, steps) && After(a, steps) == b;
      NeverFinishes(a, steps);
    }
  }

  // ---------- the end of an attempt ----------

  /** Everything is sent and written, and the announced digest is on its way. */
  predicate Ending(a: Attempt) {
    && FullInv(a) && Active(a.s.phase) && Active(a.r.phase) && a.s.completionSent && a.completed == 0
    && a.r.writeReady && a.delivered == |a.s.frames|
    && a.r.done == |a.r.outcomes| == |a.r.jobs|
  }

  lemma CompletionStep(a: Attempt)
    requires Ending(a)
    ensures Enabled(a, CompletionArrives)
    ensures var b := Next(a, CompletionArrives);
            && FullInv(b) && Active(b.s.phase) && Active(b.r.phase) && b.r.finalizing
            && |b.r.outcomes| == b.r.done == |b.r.jobs| - 1
            && b.r.jobs[b.r.done] == Finalize(Sha256(a.source))
            && b.r.written == |a.source|
  {
    assert !a.r.completionReceived && !a.r.finalizing && a.r.written == |a.source|;
    FullStep(a, CompletionArrives);
  }

  lemma FinalizeStep(b: Attempt)
    requires FullInv(b) && Active(b.r.phase) && b.r.finalizing
    requires |b.r.outcomes| == b.r.done == |b.r.jobs| - 1 && b.r.jobs[b.r.done] == Finalize(Sha256(b.source))
    ensures var c := Next(b, WorkerStep(0, true));
            && FullInv(c) && c.r.file.published && c.r.file.content == b.source
            && c.r == b.r.(file := c.r.file, outcomes := b.r.outcomes + [true])
  {
    FullStep(b, WorkerStep(0, true));
    NotPublishedBefore(b);
    FinalizingHasAll(b);
  }

  lemma FinishStep(c: Attempt)
    requires FullInv(c) && Active(c.s.phase) && Active(c.r.phase) && c.r.finalizing
    requires c.r.done < |c.r.outcomes| <= |c.r.jobs| && c.r.outcomes[c.r.done] && c.r.jobs[c.r.done].Finalize?
    requires c.r.file.published && c.r.file.content == c.source
    ensures var d := Next(c, Callback(Direct));
            Enabled(d, TaskCompleteArrives) && Completed(Next(d, TaskCompleteArrives))
  {
  }

  lemma EndingCompletes(a: Attempt)
    requires Ending(a)
    ensures CompletesWithin(a, 4)
  {
    CompletionStep(a);
    var b := Next(a, CompletionArrives);
    FinalizeStep(b);
    var c := Next(b, WorkerStep(0, true));
    FinishStep(c);
    var d := Next(c, Callback(Direct));
    OneStep(a, CompletionArrives);
    ThenStep(a, b, 1, WorkerStep(0, true));
    ThenStep(a, c, 2, Callback(Direct));
    ThenStep(a, d, 3, TaskCompleteArrives);
  }

  // ---------- one chunk further ----------

  /** The channel is not ready, so a chunk that was read stays pending. */
  const STALL := Io(false, false, false, true, true, true)

  /** The pending chunk goes out; behind it the channel is full. */
  const SEND := Io(false, true, false, true, true, true)

  /** The channel is full. */
  const HOLD := Io(false, true, true, true, true, true)

  /** Nothing is under way, both tasks transfer, and the end of the file has not been announced. */
  predicate Rest(a: Attempt) {
    && FullInv(a) && a.heard && Quiescent(a) && a.s.phase.Transferring? && a.r.phase.Transferring?
    && !a.s.completionSent
  }

  /** The window leaves room for the next Ack, or for the rest of the file. */
  predicate Roomy(a: Attempt) {
    Limit(a) >= |a.source| || (Limit(a) - a.r.lastAck >= ACK_INTERVAL && a.r.written < Limit(a))
  }

  lemma RestFacts(a: Attempt)
    requires Rest(a)
    ensures a.s.completions == [] && a.completed == 0 && !a.r.completionReceived && !a.r.finalizing
    ensures a.r.writeReady && a.accepted == a.delivered == |a.s.frames| == |a.r.jobs| == a.r.done
    ensures a.r.written == a.s.sent && !a.s.readPending && a.s.open
    ensures !a.s.HasPending() ==> a.s.pending == [] && !a.s.pendingComplete
  {
    QuiescentOffsets(a);
  }

  lemma RoomyUnblocked(a: Attempt)
    requires Rest(a) && Roomy(a)
    ensures !a.s.Blocked()
  {
    RestFacts(a);
  }

  /** Reads the next chunk and leaves it pending. */
  lemma FillPending(a: Attempt) returns (b: Attempt)
    requires Rest(a) && Roomy(a) && !a.s.HasPending()
    ensures Rest(b) && Roomy(b) && b.s.HasPending() && b.source == a.source && b.s.sent == a.s.sent
    ensures Reaches(a, b, 2)
  {
    RestFacts(a);
    RoomyUnblocked(a);
    FullStep(a, Pumped(SEND));
    var c := Next(a, Pumped(SEND));
    assert c.s == a.s.(readPending := true, reading := Some(a.s.sent)) && c.r == a.r;
    FullStep(c, ReadFinished(true, STALL));
    b := Next(c, ReadFinished(true, STALL));
    OneStep(a, Pumped(SEND));
    ThenStep(a, c, 1, ReadFinished(true, STALL));
  }

  /** The n-th frame is on its way to the file: sent, then queued, then written. */
  predicate OnItsWay(a: Attempt, arrived: bool, ran: bool) {
    && FullInv(a) && a.heard && a.s.phase.Transferring? && a.r.phase.Transferring?
    && a.s.reading.None? && !a.s.HasPending() && a.r.writeReady && !a.r.finalizing && a.completed == 0
    && a.r.acks == AckPath([], None)
    && |a.s.frames| > 0 && (ran ==> arrived)
    && a.delivered == |a.s.frames| - (if arrived then 0 else 1) == |a.r.jobs|
    && a.r.done == |a.s.frames| - 1
    && |a.r.outcomes| == |a.s.frames| - (if ran then 0 else 1)
    && (ran ==> a.r.outcomes[a.r.done])
  }

  lemma SendStep(a: Attempt)
    requires Rest(a) && a.s.HasPending() && a.s.pending != []
    ensures var b := Next(a, Pumped(SEND));
            && OnItsWay(b, false, false) && b.r == a.r && b.s.sent == a.s.sent + |a.s.pending|
            && b.s.acked == a.s.acked && b.s.completionSent == a.s.pendingComplete
  {
    RestFacts(a);
    FullStep(a, Pumped(SEND));
    assert Pump(a.s, SEND) == AfterSend(FrameSent(a.s), SEND);
  }

  lemma ArriveStep(a: Attempt)
    requires OnItsWay(a, false, false)
    ensures var b := Next(a, FrameArrives);
            && OnItsWay(b, true, false) && b.s == a.s && b.r.lastAck == a.r.lastAck && b.r.written == a.r.written
  {
    FullStep(a, FrameArrives);
    FrameFits(a);
  }

  lemma RunStep(a: Attempt)
    requires OnItsWay(a, true, false)
    ensures var b := Next(a, WorkerStep(CHUNK, true));
            && OnItsWay(b, true, true) && b.s == a.s && b.r.lastAck == a.r.lastAck && b.r.written == a.r.written
  {
    FullStep(a, WorkerStep(CHUNK, true));
    NotFailedYet(a);
    NextChunk(a.source, a.r.done);
  }

  /** The callback, with its Ack if one is due. */
  lemma CallStep(a: Attempt)
    requires OnItsWay(a, true, true)
    ensures var b := Next(a, Callback(Direct));
            && FullInv(b) && b.heard && b.s == a.s && b.r.phase == a.r.phase && b.completed == 0
            && b.r.writeReady && !b.r.finalizing
            && b.delivered == |b.s.frames| && b.r.done == |b.r.outcomes| == |b.r.jobs| == |b.s.frames|
            && b.r.written == b.s.sent
            && (if AckDueAt(|a.source|, b.r.written, a.r.lastAck)
                then b.r.acks == AckPath([b.r.written], None) && b.r.lastAck == b.r.written
                else b.r.acks == AckPath([], None) && b.r.lastAck == a.r.lastAck)
  {
    FullStep(a, Callback(Direct));
    ChunkDone(a.r, Direct);
    ChunkWrittenFields(a.r.(done := a.r.done + 1), |a.r.jobs[a.r.done].data|, Direct);
    NoFinalization(a.r.(done := a.r.done + 1), |a.r.jobs[a.r.done].data|);
  }

  /** Without an announced digest a written chunk queues nothing. */
  lemma NoFinalization(r: Receiver, size: nat)
    requires !r.completionReceived
    ensures var q := ChunkWritten(r, size, Direct);
            q == r.(written := q.written, acks := q.acks, lastAck := q.lastAck)
  {
  }

  /** A written chunk, its Ack on the way if one was due. */
  predicate Arrived(a: Attempt, last: nat) {
    && FullInv(a) && a.heard && a.s.phase.Transferring? && a.r.phase.Transferring?
    && a.s.reading.None? && !a.s.HasPending() && a.completed == 0 && a.r.writeReady && !a.r.finalizing
    && a.delivered == |a.s.frames| && a.r.done == |a.r.outcomes| == |a.r.jobs| && a.r.written == a.s.sent
    && (if AckDueAt(|a.source|, a.r.written, last)
        then a.r.acks == AckPath([a.r.written], None) && a.r.lastAck == a.r.written
        else a.r.acks == AckPath([], None) && a.r.lastAck == last)
  }

  lemma ChunkDelivered(a: Attempt) returns (b: Attempt)
    requires Rest(a) && a.s.HasPending() && a.s.pending != []
    ensures Arrived(b, a.r.lastAck) && b.source == a.source && b.s.sent == a.s.sent + |a.s.pending|
    ensures b.s.acked == a.s.acked && b.s.completionSent == a.s.pendingComplete
    ensures Reaches(a, b, 4)
  {
    SendStep(a);
    var c := Next(a, Pumped(SEND));
    ArriveStep(c);
    var d := Next(c, FrameArrives);
    RunStep(d);
    var e := Next(d, WorkerStep(CHUNK, true));
    CallStep(e);
    b := Next(e, Callback(Direct));
    OneStep(a, Pumped(SEND));
    ThenStep(a, c, 1, FrameArrives);
    ThenStep(a, d, 2, WorkerStep(CHUNK, true));
    ThenStep(a, e, 3, Callback(Direct));
  }

  /** The Ack of a written chunk arrives, if there is one. */
  lemma AckThrough(a: Attempt, f: Attempt) returns (b: Attempt)
    requires Rest(a) && Roomy(a) && Arrived(f, a.r.lastAck) && f.source == a.source && f.s.acked == a.s.acked
    requires !f.s.completionSent
    ensures Rest(b) && Roomy(b) && b.source == a.source && b.s.sent == f.s.sent
    ensures Reaches(f, b, 1)
  {
    if f.r.acks.wire == [] {
      b := f;
      Stay(f);
      LongerReach(f, f, 0, 1);
      RoomAfterChunk(a, f);
    } else {
      AckStep(f);
      OneStep(f, AckArrives(HOLD));
      b := Next(f, AckArrives(HOLD));
    }
  }

  /** One pending chunk is sent, written and, when it is due, acknowledged. */
  lemma ChunkThrough(a: Attempt) returns (b: Attempt)
    requires Rest(a) && Roomy(a) && a.s.HasPending() && a.s.pending != []
    ensures b.source == a.source && b.s.sent == a.s.sent + |a.s.pending|
    ensures if a.s.pendingComplete then Ending(b) else Rest(b) && Roomy(b)
    ensures Reaches(a, b, 5)
  {
    var f := ChunkDelivered(a);
    if a.s.pendingComplete {
      b := f;
      LongerReach(a, f, 4, 5);
    } else {
      b := AckThrough(a, f);
      Through(a, f, b, 4, 1);
    }
  }

  lemma LongerReach(a: Attempt, b: Attempt, j: nat, k: nat)
    requires Reaches(a, b, j) && j <= k
    ensures Reaches(a, b, k)
  {
  }

  lemma RoomAfterChunk(a: Attempt, b: Attempt)
    requires Rest(a) && Roomy(a) && b.source == a.source && b.s.acked == a.s.acked
    requires !AckDueAt(|a.source|, b.r.written, a.r.lastAck) && b.r.lastAck == a.r.lastAck
    ensures Roomy(b)
  {
  }

  /** The Ack arrives and opens the whole window again. */
  lemma AckStep(a: Attempt)
    requires FullInv(a) && a.heard && a.s.phase.Transferring? && a.r.phase.Transferring? && !a.s.completionSent
    requires a.r.acks == AckPath([a.r.written], None) && a.r.lastAck == a.r.written == a.s.sent
    requires a.s.reading.None? && a.delivered == |a.s.frames| && a.r.done == |a.r.outcomes| == |a.r.jobs|
    ensures var b := Next(a, AckArrives(HOLD)); Rest(b) && Roomy(b) && b.s.sent == a.s.sent
  {
    FullStep(a, AckArrives(HOLD));
    assert HandleAck(a.s, a.r.written, HOLD) == a.s.(acked := a.r.written);
  }

  /** A source that ends here, with nothing left to send: only its end is announced. */
  lemma EmptyThrough(a: Attempt) returns (b: Attempt)
    requires Rest(a) && a.s.HasPending() && a.s.pending == []
    ensures Ending(b) && Reaches(a, b, 1)
  {
    RestFacts(a);
    FullStep(a, Pumped(SEND));
    assert Pump(a.s, SEND) == AfterSend(a.s, SEND);
    b := Next(a, Pumped(SEND));
    OneStep(a, Pumped(SEND));
  }

  // ---------- the rest of the file ----------

  /** Chunks in so many bytes. */
  function Chunks(bytes: nat): nat { (bytes + CHUNK - 1) / CHUNK }

  /** What is left of the file, in chunks. */
  function ChunksLeft(a: Attempt): nat {
    Chunks(if a.s.sent <= |a.source| then |a.source| - a.s.sent else 0)
  }

  /** From rest with room in the window the attempt completes, seven steps a chunk. */
  lemma {:induction false} RestCompletes(a: Attempt)
    requires Rest(a) && Roomy(a)
    ensures CompletesWithin(a, 7 * ChunksLeft(a) + 11)
    decreases |a.source| - a.s.sent
  {
    if a.s.HasPending() {
      PendingCompletes(a);
      CompletesSooner(a, 7 * ChunksLeft(a) + 9, 7 * ChunksLeft(a) + 11);
    } else {
      var b := FillPending(a);
      SameLeft(a, b);
      PendingCompletes(b);
      CompletesLater(a, b, 2, 7 * ChunksLeft(a) + 9);
    }
  }

  lemma SameLeft(a: Attempt, b: Attempt)
    requires b.source == a.source && b.s.sent == a.s.sent
    ensures ChunksLeft(b) == ChunksLeft(a)
  {
  }

  lemma PendingSize(a: Attempt)
    requires Rest(a) && a.s.HasPending() && a.s.pending != []
    ensures 0 < |a.s.pending| <= |a.source| - a.s.sent
    ensures ChunksLeft(a) > 0
    ensures !a.s.pendingComplete ==>
              ChunksLeft(a) == Chunks(|a.source| - (a.s.sent + |a.s.pending|)) + 1
  {
    assert (a.s.pending, a.s.pendingComplete) == ReadChunk(a.source, a.s.sent);
  }

  lemma LessLeft(a: Attempt, b: Attempt)
    requires Rest(a) && a.s.HasPending() && a.s.pending != [] && !a.s.pendingComplete
    requires b.source == a.source && b.s.sent == a.s.sent + |a.s.pending|
    ensures ChunksLeft(b) == ChunksLeft(a) - 1
  {
    PendingSize(a);
  }

  /** The end goes out, alone or behind the last chunk. */
  lemma LastCompletes(a: Attempt)
    requires Rest(a) && Roomy(a) && a.s.HasPending() && (a.s.pending == [] || a.s.pendingComplete)
    ensures CompletesWithin(a, 9)
  {
    if a.s.pending == [] {
      var b := EmptyThrough(a);
      EndingCompletes(b);
      CompletesLater(a, b, 1, 4);
      CompletesSooner(a, 5, 9);
    } else {
      var b := ChunkThrough(a);
      EndingCompletes(b);
      CompletesLater(a, b, 5, 4);
    }
  }

  lemma {:induction false} PendingCompletes(a: Attempt)
    requires Rest(a) && Roomy(a) && a.s.HasPending()
    ensures CompletesWithin(a, 7 * ChunksLeft(a) + 9)
    decreases |a.source| - a.s.sent, 0
  {
    var n := ChunksLeft(a);
    if a.s.pending == [] || a.s.pendingComplete {
      LastCompletes(a);
      CompletesSooner(a, 9, 7 * n + 9);
    } else {
      PendingSize(a);
      var b := ChunkThrough(a);
      LessLeft(a, b);
      RestCompletes(b);
      CompletesLater(a, b, 5, 7 * (n - 1) + 11);
    }
  }

  // ---------- an attempt at rest ----------

  /** Exactly the attempts at rest that can complete: the sender is active, and the destination is
      still being opened, or Ack(0) has arrived and the file has been sent or the window leaves room
      for the next Ack. */
  predicate Live(a: Attempt) {
    Active(a.s.phase) && (a.opening || (a.heard && (a.s.completionSent || Roomy(a))))
  }

  lemma ResumeReceiverThrough(a: Attempt) returns (b: Attempt)
    requires FullInv(a) && Quiescent(a)
    ensures FullInv(b) && Quiescent(b) && b == a.(r := a.r.(phase := Transferring)) && Reaches(a, b, 1)
  {
    FullStep(a, ReceiverResumed);
    OneStep(a, ReceiverResumed);
    b := Next(a, ReceiverResumed);
    assert a.r.phase.Transferring? ==> a.r.(phase := Transferring) == a.r;
  }

  lemma ResumeSenderThrough(a: Attempt) returns (b: Attempt)
    requires FullInv(a) && Quiescent(a) && a.heard && Active(a.s.phase)
    ensures FullInv(b) && Quiescent(b) && b == a.(s := a.s.(phase := Transferring)) && Reaches(a, b, 1)
  {
    FullStep(a, SenderResumed(HOLD));
    OneStep(a, SenderResumed(HOLD));
    b := Next(a, SenderResumed(HOLD));
    assert a.s.phase.Transferring? ==> a.s.(phase := Transferring) == a.s;
  }

  lemma SentMeansEnding(a: Attempt)
    requires FullInv(a) && Quiescent(a) && Active(a.s.phase) && a.s.completionSent
    ensures Ending(a)
  {
    assert a.heard;
    if a.completed == |a.s.completions| {
      CompletionEnds(a);
    }
  }

  /** Ack(0) has arrived. */
  lemma HeardCompletes(a: Attempt)
    requires FullInv(a) && Quiescent(a) && a.heard && Active(a.s.phase) && (a.s.completionSent || Roomy(a))
    ensures CompletesWithin(a, 7 * ChunksLeft(a) + 13)
  {
    var n := 7 * ChunksLeft(a);
    if a.s.completionSent {
      SentMeansEnding(a);
      EndingCompletes(a);
      CompletesSooner(a, 4, n + 13);
    } else {
      var c := ResumeBoth(a);
      RestCompletes(c);
      CompletesLater(a, c, 2, n + 11);
    }
  }

  lemma ResumeBoth(a: Attempt) returns (c: Attempt)
    requires FullInv(a) && Quiescent(a) && a.heard && Active(a.s.phase) && !a.s.completionSent && Roomy(a)
    ensures Rest(c) && Roomy(c) && ChunksLeft(c) == ChunksLeft(a) && Reaches(a, c, 2)
  {
    var b := ResumeReceiverThrough(a);
    c := ResumeSenderThrough(b);
    Through(a, b, c, 1, 1);
    SameLeft(a, c);
  }

  /** The destination is opened and Ack(0) arrives. */
  lemma OpenThrough(a: Attempt) returns (b: Attempt)
    requires FullInv(a) && Quiescent(a) && a.opening && a.r.phase.Transferring? && Active(a.s.phase)
    ensures FullInv(b) && Quiescent(b) && b.heard && Active(b.s.phase) && Roomy(b)
    ensures b.source == a.source && b.s.sent == a.s.sent && Reaches(a, b, 2)
  {
    SilentOffsets(a);
    FullStep(a, Opened(Direct));
    var c := Next(a, Opened(Direct));
    OpenedNow(a);
    FullStep(c, AckArrives(HOLD));
    OneStep(a, Opened(Direct));
    ThenStep(a, c, 1, AckArrives(HOLD));
    assert HandleAck(c.s, 0, HOLD) == c.s;
    b := Next(c, AckArrives(HOLD));
  }

  lemma OpenedNow(a: Attempt)
    requires FullInv(a) && a.opening && a.r.phase.Transferring? && !a.heard
    ensures WriteOpened(a.r, Direct) == a.r.(writeHeld := true, writeReady := true, acks := AckPath([0], None))
  {
    assert a.s.completions == [] && !a.r.completionReceived;
  }

  lemma LiveCompletes(a: Attempt)
    requires FullInv(a) && Quiescent(a) && Live(a)
    ensures CompletesWithin(a, 7 * ChunksLeft(a) + 16)
  {
    var n := 7 * ChunksLeft(a);
    if a.opening {
      var b := ResumeReceiverThrough(a);
      var c := OpenThrough(b);
      HeardCompletes(c);
      CompletesLater(b, c, 2, n + 13);
      CompletesLater(a, b, 1, n + 15);
    } else {
      HeardCompletes(a);
      CompletesSooner(a, n + 13, n + 16);
    }
  }

  lemma {:induction false} FailedStays(a: Attempt, steps: seq<Step>)
    requires a.s.phase.Failed? && Runs(a, steps)
    ensures After(a, steps).s.phase.Failed?
    decreases |steps|
  {
    if steps != [] {
      FailedStep(a, steps[0]);
      FailedStays(Next(a, steps[0]), steps[1..]);
    }
  }

  lemma FailedStep(a: Attempt, step: Step)
    requires a.s.phase.Failed? && Enabled(a, step)
    ensures Next(a, step).s.phase.Failed?
  {
  }

  lemma DeadCannotFinish(a: Attempt)
    requires FullInv(a) && Quiescent(a) && !Live(a)
    ensures !CanFinish(a)
  {
    if a.s.phase.Failed? {
      forall b: Attempt, k: nat | Reaches(a, b, k) ensures !b.s.phase.Finished? {
        var steps :| |steps| <= k && Runs(a, steps) && PromptedRun(a, steps) && After(a, steps) == b;
        FailedStays(a, steps);
      }
    } else {
      if a.heard {
        AckedBelow(a);
        PosMonotone(|a.source|, a.accepted, |a.s.frames|);
      }
      CannotFinish(a);
    }
  }

  lemma CompletesFinishes(a: Attempt, k: nat)
    requires CompletesWithin(a, k)
    ensures CanFinish(a)
  {
    var b :| Reaches(a, b, k) && Completed(b);
  }

  /** For every run whose first pump follows Ack(0), with Acks refused or not: an attempt at rest can
      complete if and only if it is live, and then seven steps a chunk and sixteen more complete it. */
  lemma LiveExactly(source: seq<Byte>, steps: seq<Step>)
    requires Runs(Start(source), steps) && PromptedRun(Start(source), steps)
    requires Quiescent(After(Start(source), steps))
    ensures var a := After(Start(source), steps);
            && (CanFinish(a) <==> Live(a))
            && (Live(a) ==> CompletesWithin(a, 7 * ChunksLeft(a) + 16))
  {
    FullStart(source);
    FullRun(Start(source), steps);
    var a := After(Start(source), steps);
    if Live(a) {
      LiveCompletes(a);
      CompletesFinishes(a, 7 * ChunksLeft(a) + 16);
    } else {
      DeadCannotFinish(a);
    }
  }

  /** No deadlock: when the control path refuses no Ack of a written chunk, the window never blocks an
      attempt at rest, whatever was coalesced or dropped in favour of a waiting Ack; the attempt can
      complete if and only if the destination is still being opened or Ack(0) has arrived. */
  lemma NoDeadlock(source: seq<Byte>, steps: seq<Step>)
    requires Runs(Start(source), steps) && PromptedRun(Start(source), steps)
    requires forall i :: 0 <= i < |steps| ==> Accepting(steps[i])
    requires Quiescent(After(Start(source), steps))
    ensures var a := After(Start(source), steps);
            && !a.s.Blocked()
            && (Active(a.s.phase) ==> (CanFinish(a) <==> a.opening || a.heard))
            && (Active(a.s.phase) && (a.opening || a.heard) ==>
                  CompletesWithin(a, 7 * ChunksLeft(a) + 16))
            && (a.s.phase.Transferring? && !a.s.completionSent ==> Moves(a.s, Pump(a.s, GOOD)))
  {
    StartPrompt(source);
    RunClean(Start(source), steps);
    var a := After(Start(source), steps);
    QuiescentWindow(a);
    LiveExactly(source, steps);
    if a.heard {
      CleanIsRoomy(a);
    }
    if a.s.phase.Transferring? && !a.s.completionSent {
      UnblockedMoves(source, a.s);
    }
  }

  lemma CleanIsRoomy(a: Attempt)
    requires CleanInv(a) && Quiescent(a) && a.heard
    ensures Roomy(a)
  {
    QuiescentOffsets(a);
    assert Last(Chain(a.s.acked, a.r.acks)) == a.s.acked;
  }

  /** An attempt at rest whose FileComplete messages have arrived has not announced its end: it is
      waiting for its next pump if Ack(0) has arrived, for its write session if that is being opened,
      and for ever otherwise. */
  lemma RestMeansEnded(source: seq<Byte>, steps: seq<Step>)
    requires Runs(Start(source), steps) && PromptedRun(Start(source), steps)
    requires forall i :: 0 <= i < |steps| ==> Accepting(steps[i])
    requires var a := After(Start(source), steps);
             Quiescent(a) && a.completed == |a.s.completions| && a.s.phase.Transferring?
    ensures var a := After(Start(source), steps);
            && !a.s.completionSent && Moves(a.s, Pump(a.s, GOOD))
            && (a.heard ==> Prompted(a, Pumped(GOOD)))
            && (CanFinish(a) <==> a.opening || a.heard)
  {
    NoDeadlock(source, steps);
    FullStart(source);
    FullRun(Start(source), steps);
    CompletionEnds(After(Start(source), steps));
  }

  // ---------- the receiver's view ----------

  /** No Ack is refused, Ack(0) included. */
  predicate TakesAllAcks(step: Step) {
    Accepting(step) && (step.Opened? ==> !step.outcome.Refused?)
  }

  predicate FirstAckKept(a: Attempt) {
    a.r.writeReady ==> a.heard || a.r.acks != AckPath([], None)
  }

  lemma FirstAckStep(a: Attempt, step: Step)
    requires FirstAckKept(a) && Enabled(a, step) && TakesAllAcks(step) && a.completed <= |a.s.completions|
    ensures FirstAckKept(Next(a, step))
  {
    match step
    case Callback(outcome) => CallbackKeepsAcks(a.r, outcome);
    case _ =>
  }

  lemma CallbackKeepsAcks(r: Receiver, outcome: AckOutcome)
    requires r.done < |r.outcomes| <= |r.jobs|
    ensures var q := JobDone(r, outcome);
            && (q.writeReady ==> r.writeReady)
            && (r.acks != AckPath([], None) ==> q.acks != AckPath([], None))
  {
    CallbackFrame(r, outcome);
    if r.jobs[r.done].Append? && r.outcomes[r.done] && Active(r.phase) {
      ChunkDone(r, outcome);
      ChunkWrittenFields(r.(done := r.done + 1), |r.jobs[r.done].data|, outcome);
    } else {
      OtherJobsKeepAcks(r, outcome);
    }
  }

  lemma {:induction false} FirstAckRun(a: Attempt, steps: seq<Step>)
    requires Inv(a) && FirstAckKept(a) && Runs(a, steps)
    requires forall i :: 0 <= i < |steps| ==> TakesAllAcks(steps[i])
    ensures FirstAckKept(After(a, steps))
    decreases |steps|
  {
    if steps != [] {
      assert TakesAllAcks(steps[0]);
      StepInv(a, steps[0]);
      FirstAckStep(a, steps[0]);
      FirstAckRun(Next(a, steps[0]), steps[1..]);
    }
  }

  /** When the control path refuses no Ack at all, the receiver alone can tell: an attempt at rest can
      complete if and only if its write session is open or still being opened. */
  lemma LiveForReceiver(source: seq<Byte>, steps: seq<Step>)
    requires Runs(Start(source), steps) && PromptedRun(Start(source), steps)
    requires forall i :: 0 <= i < |steps| ==> TakesAllAcks(steps[i])
    requires var a := After(Start(source), steps); Quiescent(a) && Active(a.s.phase)
    ensures var a := After(Start(source), steps);
            CanFinish(a) <==> a.opening || a.r.writeReady
  {
    assert forall i :: 0 <= i < |steps| ==> TakesAllAcks(steps[i]) && Accepting(steps[i]);
    NoDeadlock(source, steps);
    FullStart(source);
    FullRun(Start(source), steps);
    FirstAckRun(Start(source), steps);
  }

  // ---------- a pause while the destination is opened ----------

  /** The receiver's write session was given up, and no other will be opened. */
  predicate Closed(a: Attempt) {
    !a.opening && !a.r.writeReady && !a.r.phase.Finished? && !a.s.phase.Finished?
  }

  lemma ClosedStays(a: Attempt, step: Step)
    requires Inv(a) && Closed(a) && Enabled(a, step)
    ensures Closed(Next(a, step))
  {
    match step
    case Callback(outcome) => ClosedCallback(a.source, a.r, a.accepted, outcome);
    case AckArrives(io) => AckKeepsPhase(a.s, a.r.acks.wire[0], io);
    case _ => ClosedQuiet(a, step);
  }

  lemma ClosedCallback(source: seq<Byte>, r: Receiver, n: nat, outcome: AckOutcome)
    requires ReceiverInv(source, r, n) && r.done < |r.outcomes| && !r.writeReady && !r.phase.Finished?
    ensures !JobDone(r, outcome).writeReady && !JobDone(r, outcome).phase.Finished?
  {
    if r.jobs[r.done].Append? {
      ChunkDone(r, outcome);
      ChunkWrittenPhase(r.(done := r.done + 1), |r.jobs[r.done].data|, outcome);
    }
  }

  lemma ClosedQuiet(a: Attempt, step: Step)
    requires Closed(a) && Enabled(a, step) && !step.Callback? && !step.AckArrives?
    ensures Closed(Next(a, step))
  {
    if Next(a, step).s.phase.Finished? {
      SenderFinishes(a, step);
    }
  }

  /** In the run a frame reaches the receiver while it is active. */
  predicate FrameMeets(a: Attempt, steps: seq<Step>)
    requires Runs(a, steps)
    decreases |steps|
  {
    steps != []
    && ((steps[0].FrameArrives? && Active(a.r.phase)) || FrameMeets(Next(a, steps[0]), steps[1..]))
  }

  lemma ClosedStep(a: Attempt, step: Step)
    requires Inv(a) && Closed(a) && Enabled(a, step)
    ensures Next(a, step).r.phase == Failed(InvalidOffset)
       <==> a.r.phase == Failed(InvalidOffset) || (step.FrameArrives? && Active(a.r.phase))
  {
    if step.Callback? {
      CallbackOffset(a.r, step.outcome);
    } else if step.FrameArrives? {
      ClosedFrame(a, step);
    } else {
      OffsetFailureStays(a, step);
    }
  }

  lemma CallbackOffset(r: Receiver, outcome: AckOutcome)
    requires r.done < |r.outcomes| <= |r.jobs|
    ensures JobDone(r, outcome).phase == Failed(InvalidOffset) <==> r.phase == Failed(InvalidOffset)
  {
    if r.jobs[r.done].Append? {
      ChunkDone(r, outcome);
      ChunkWrittenPhase(r.(done := r.done + 1), |r.jobs[r.done].data|, outcome);
    } else {
      OtherJobDone(r, outcome);
    }
  }

  lemma ClosedFrame(a: Attempt, step: Step)
    requires Inv(a) && Closed(a) && Enabled(a, step) && step.FrameArrives?
    ensures Next(a, step).r.phase == Failed(InvalidOffset)
       <==> a.r.phase == Failed(InvalidOffset) || Active(a.r.phase)
  {
    FrameFits(a);
  }

  lemma OffsetFailureStays(a: Attempt, step: Step)
    requires Enabled(a, step) && !step.Callback? && !step.FrameArrives? && a.completed <= |a.s.completions|
    ensures ReceiverStep(a, step).phase == Failed(InvalidOffset) <==> a.r.phase == Failed(InvalidOffset)
  {
    match step
    case Opened(outcome) => OpenedOffset(a.r, outcome);
    case CompletionArrives => CompletionOffset(a.r, a.s.completions[a.completed]);
    case _ =>
  }

  lemma OpenedOffset(r: Receiver, outcome: AckOutcome)
    ensures WriteOpened(r, outcome).phase == r.phase
  {
  }

  lemma CompletionOffset(r: Receiver, m: Completion)
    ensures HandleCompletion(r, m).phase == Failed(InvalidOffset) <==> r.phase == Failed(InvalidOffset)
  {
  }

  lemma {:induction false} FailedForGood(a: Attempt, steps: seq<Step>)
    requires Inv(a) && Closed(a) && Runs(a, steps) && !Active(a.r.phase)
    ensures !FrameMeets(a, steps) && After(a, steps).r.phase == a.r.phase
    decreases |steps|
  {
    if steps != [] {
      StepInv(a, steps[0]);
      ClosedStays(a, steps[0]);
      PhaseStays(a.r, a, steps[0]);
      FailedForGood(Next(a, steps[0]), steps[1..]);
    }
  }

  lemma PhaseStays(r: Receiver, a: Attempt, step: Step)
    requires a.r == r && Enabled(a, step) && !Active(r.phase)
    ensures ReceiverStep(a, step).phase == r.phase
  {
    if step.Callback? && r.jobs[r.done].Append? {
      ChunkDone(r, step.outcome);
    }
  }

  /** An attempt whose write session was given up never completes, whatever happens; and it fails with
      `invalid_offset` if and only if a frame reaches the receiver while that is active. */
  lemma {:induction false} ClosedExactly(a: Attempt, steps: seq<Step>)
    requires Inv(a) && Closed(a) && Active(a.r.phase) && Runs(a, steps)
    ensures var b := After(a, steps);
            && !b.s.phase.Finished? && !b.r.phase.Finished?
            && (b.r.phase == Failed(InvalidOffset) <==> FrameMeets(a, steps))
    decreases |steps|
  {
    if steps != [] {
      var b := Next(a, steps[0]);
      StepInv(a, steps[0]);
      ClosedStays(a, steps[0]);
      ClosedStep(a, steps[0]);
      ClosedRest(b, steps[1..]);
      if Active(b.r.phase) {
        ClosedExactly(b, steps[1..]);
      } else {
        FailedForGood(b, steps[1..]);
      }
    }
  }

  lemma {:induction false} ClosedRest(a: Attempt, steps: seq<Step>)
    requires Inv(a) && Closed(a) && Runs(a, steps)
    ensures Closed(After(a, steps))
    decreases |steps|
  {
    if steps != [] {
      StepInv(a, steps[0]);
      ClosedStays(a, steps[0]);
      ClosedRest(Next(a, steps[0]), steps[1..]);
    }
  }

  /** A pause of the receiver while its destination is being opened, mirrored by the sender, and the
      resume of both: the write session is given up, and the sender's resume pumps. */
  function PausedWhileOpening(): seq<Step> {
    BothPaused() + (SessionGivenUp() + BothResumed())
  }

  function BothPaused(): seq<Step> { [ReceiverPaused] + ([SenderPaused] + []) }

  function SessionGivenUp(): seq<Step> { [Opened(Direct)] + ([WorkerStep(0, true)] + ([Callback(Direct)] + [])) }

  function BothResumed(): seq<Step> {
    [ReceiverResumed] + ([SenderResumed(GOOD)] + ([ReadFinished(true, GOOD)] + []))
  }

  /** With the Pause and the Resume mirrored, the attempt ends aloud exactly when the source is not
      empty: its first frame fails the receiver with `invalid_offset`. An empty source has no frame;
      its digest is announced and nothing more happens, ever. */
  lemma MirroredPauseFails(source: seq<Byte>)
    ensures Runs(Start(source), PausedWhileOpening())
    ensures var a := After(Start(source), PausedWhileOpening());
            && (source != [] ==> Enabled(a, FrameArrives) && Next(a, FrameArrives).r.phase == Failed(InvalidOffset))
            && (source == [] ==>
                  && Enabled(a, CompletionArrives)
                  && var b := Next(a, CompletionArrives);
                  && Quiescent(b) && b.completed == |b.s.completions| == 1
                  && b.s.phase.Transferring? && b.r.phase.Transferring?)
            && (forall more: seq<Step> | Runs(a, more) ::
                  && !After(a, more).s.phase.Finished?
                  && (source == [] ==> After(a, more).r.phase != Failed(InvalidOffset)))
  {
    var a := GivenUpTogether(source);
    StartInv(source);
    RunInv(Start(source), PausedWhileOpening());
    if source != [] {
      FrameFits(a);
    }
    forall more: seq<Step> | Runs(a, more)
      ensures !After(a, more).s.phase.Finished?
      ensures source == [] ==> After(a, more).r.phase != Failed(InvalidOffset)
    {
      ClosedExactly(a, more);
      if source == [] {
        NoFrames(a, more);
      }
    }
  }

  lemma {:induction false} NoFrames(a: Attempt, steps: seq<Step>)
    requires Inv(a) && a.source == [] && Runs(a, steps)
    ensures !FrameMeets(a, steps)
    decreases |steps|
  {
    if steps != [] {
      StepInv(a, steps[0]);
      NoFrames(Next(a, steps[0]), steps[1..]);
    }
  }

  lemma {:induction false} JoinRuns(a: Attempt, first: seq<Step>, second: seq<Step>)
    requires Runs(a, first) && Runs(After(a, first), second)
    ensures Runs(a, first + second) && After(a, first + second) == After(After(a, first), second)
    decreases |first|
  {
    if first == [] {
      assert first + second == second;
    } else {
      JoinRuns(Next(a, first[0]), first[1..], second);
      Prepend(a, first[0], first[1..] + second);
      Regroup(first, second);
    }
  }

  lemma PausesRun(a: Attempt)
    requires a.s.phase.Transferring? && a.r.phase.Transferring?
    ensures Runs(a, BothPaused())
    ensures After(a, BothPaused()) == a.(s := a.s.(phase := Paused), r := a.r.(phase := Paused))
  {
    var b := Next(a, ReceiverPaused);
    Prepend(b, SenderPaused, []);
    Prepend(a, ReceiverPaused, [SenderPaused] + []);
  }

  lemma GivingUpRuns(a: Attempt)
    requires a.opening && a.r.phase.Paused? && a.r.jobs == [] && a.r.outcomes == [] && a.r.done == 0
    ensures Runs(a, SessionGivenUp()) && PromptedRun(a, SessionGivenUp())
    ensures var b := After(a, SessionGivenUp());
            && b == a.(r := b.r, opening := false)
            && b.r == a.r.(jobs := [Abort], outcomes := [true], done := 1, file := a.r.file.(open := false))
  {
    var b := Next(a, Opened(Direct));
    assert b.r.jobs == [Abort];
    var c := Next(b, WorkerStep(0, true));
    assert c.r.outcomes == [true];
    Prepend(c, Callback(Direct), []);
    Prepend(b, WorkerStep(0, true), [Callback(Direct)] + []);
    Prepend(a, Opened(Direct), [WorkerStep(0, true)] + ([Callback(Direct)] + []));
  }

  lemma ResumesRun(a: Attempt)
    requires a.s == NewSender(|a.source|).(phase := Paused) && a.r.phase.Paused?
    ensures Runs(a, BothResumed())
    ensures var b := After(a, BothResumed());
            && b == a.(s := b.s, r := a.r.(phase := Transferring)) && b.s.phase.Transferring?
            && (a.source != [] ==> |b.s.frames| > 0)
            && (a.source == [] ==> b.s.reading.None? && b.s.frames == [] && |b.s.completions| == 1
                                   && b.s.completions[0] == Completion(0, Sha256([])))
  {
    var b := Next(a, ReceiverResumed);
    var c := Next(b, SenderResumed(GOOD));
    assert c.s.reading == Some(0);
    ReadAtStart(a.source, c.s);
    Prepend(c, ReadFinished(true, GOOD), []);
    Prepend(b, SenderResumed(GOOD), [ReadFinished(true, GOOD)] + []);
    Prepend(a, ReceiverResumed, [SenderResumed(GOOD)] + ([ReadFinished(true, GOOD)] + []));
  }

  lemma ReadAtStart(source: seq<Byte>, s: Sender)
    requires s == NewSender(|source|).(readPending := true, reading := Some(0))
    ensures var (data, complete) := ReadChunk(source, 0);
            var t := ReadDone(s, true, data, complete, GOOD);
            && t.phase.Transferring? && (source != [] ==> |t.frames| > 0)
            && (source == [] ==> t.reading.None? && t.frames == [] && |t.completions| == 1
                                 && t.completions[0] == Completion(0, Sha256([])))
  {
  }

  lemma GivenUpTogether(source: seq<Byte>) returns (a: Attempt)
    ensures Runs(Start(source), PausedWhileOpening()) && a == After(Start(source), PausedWhileOpening())
    ensures a.source == source && Closed(a) && Active(a.r.phase)
    ensures source != [] ==> a.delivered < |a.s.frames|
    ensures source == [] ==> Enabled(a, CompletionArrives)
    ensures source == [] ==>
              var b := Next(a, CompletionArrives);
              && Quiescent(b) && b.completed == |b.s.completions| == 1
              && b.s.phase.Transferring? && b.r.phase.Transferring?
  {
    PausesRun(Start(source));
    var c := After(Start(source), BothPaused());
    GivingUpRuns(c);
    var d := After(c, SessionGivenUp());
    ResumesRun(d);
    JoinRuns(c, SessionGivenUp(), BothResumed());
    JoinRuns(Start(source), BothPaused(), SessionGivenUp() + BothResumed());
    a := After(d, BothResumed());
  }

  /** The same pause when the control path refuses to send it. */
  function PauseRefused(): seq<Step> {
    [ReceiverPaused] + (SessionGivenUp() + ([ReceiverResumed] + []))
  }

  lemma PauseRefusedSteps()
    ensures PauseRefused() == [ReceiverPaused, Opened(Direct), WorkerStep(0, true), Callback(Direct), ReceiverResumed]
  {
  }

  /** Then the sender neither pauses nor resumes: Ack(0) is never sent, nobody pumps, and after the
      resume both tasks transfer, nothing has failed, and the attempt never completes. */
  lemma PausedOpenStalls(source: seq<Byte>)
    ensures Runs(Start(source), PauseRefused()) && PromptedRun(Start(source), PauseRefused())
    ensures forall i :: 0 <= i < |PauseRefused()| ==> TakesAllAcks(PauseRefused()[i])
    ensures var a := After(Start(source), PauseRefused());
            && Quiescent(a) && a.s.phase.Transferring? && a.r.phase.Transferring?
            && !CanFinish(a)
  {
    PauseRefusedRuns(source);
    PauseRefusedSteps();
    LiveExactly(source, PauseRefused());
  }

  lemma PauseRefusedRuns(source: seq<Byte>)
    ensures Runs(Start(source), PauseRefused()) && PromptedRun(Start(source), PauseRefused())
    ensures var a := After(Start(source), PauseRefused());
            Quiescent(a) && a.s.phase.Transferring? && a.r.phase.Transferring? && !a.opening && !a.heard
  {
    var b := Next(Start(source), ReceiverPaused);
    GivingUpRuns(b);
    var d := After(b, SessionGivenUp());
    Prepend(d, ReceiverResumed, []);
    Concatenate(b, SessionGivenUp(), [ReceiverResumed] + []);
    Prepend(Start(source), ReceiverPaused, SessionGivenUp() + ([ReceiverResumed] + []));
  }
}
