/** Runs in which the sender first pumps after the receiver's Ack(0): what they keep, and what an
    early pump or a refused Ack does. Whether an attempt can still complete is the subject of
    TransferLiveness. */
module TransferProgress {
  import opened Wrappers
  import opened FileTransfer
  import opened TransferWindow
  import opened TransferAttempt

  /** The sender is pumped, by a low watermark or a resume, only after it has had an Ack. */
  predicate Prompted(a: Attempt, step: Step) {
    step.Pumped? || step.SenderResumed? ==> a.heard
  }

  predicate PromptedRun(a: Attempt, steps: seq<Step>)
    requires Runs(a, steps)
    decreases |steps|
  {
    steps == [] || (Prompted(a, steps[0]) && PromptedRun(Next(a, steps[0]), steps[1..]))
  }

  // ---------- the spread of the Acks ----------

  function Last(c: seq<nat>): nat
    requires c != []
  {
    c[|c| - 1]
  }

  predicate Increasing(c: seq<nat>) {
    forall i, j :: 0 <= i < j < |c| ==> c[i] < c[j]
  }

  /** How far the receiver's last Ack may be ahead of the newest offset that is still on its way
      or has arrived, when none was refused: the control queue can keep an older offset although
      it answers true. */
  predicate Spread(total: nat, acked: nat, p: AckPath, written: nat, last: nat) {
    var newest := Last(Chain(acked, p));
    && newest <= last <= written
    && last - newest < WINDOW
    && ((last - newest) % ACK_INTERVAL == 0 || last == total)
    && written - last < ACK_INTERVAL
  }

  predicate AckDueAt(total: nat, written: nat, last: nat) {
    written - last >= ACK_INTERVAL || written == total
  }

  /** The next Ack falls due exactly one interval after the last, or at the end. */
  lemma DueExactly(total: nat, before: nat, written: nat, last: nat)
    requires Aligned(total, before) && Aligned(total, written) && Aligned(total, last)
    requires last <= before < written <= total && written <= before + CHUNK
    requires before - last < ACK_INTERVAL <= written - last && written != total
    ensures written - last == ACK_INTERVAL
  {
    assert ACK_INTERVAL % CHUNK == 0;
  }

  lemma PutAckSpreads(total: nat, acked: nat, p: AckPath, before: nat, written: nat, last: nat, outcome: AckOutcome)
    requires Spread(total, acked, p, before, last) && Increasing(Chain(acked, p))
    requires Aligned(total, before) && Aligned(total, written) && Aligned(total, last)
    requires before < written <= total && written <= before + CHUNK && written <= acked + WINDOW
    requires AckDueAt(total, written, last) && !outcome.Refused?
    ensures Spread(total, acked, PutAck(p, written, outcome), written, written)
    ensures Increasing(Chain(acked, PutAck(p, written, outcome)))
  {
    PutAckChain(acked, p, written, outcome);
    if p.waiting.Some? && outcome.KeptOld? {
      assert Chain(acked, p)[0] < Last(Chain(acked, p));
      if written != total {
        DueExactly(total, before, written, last);
      }
    }
  }

  /** The offset is the newest then, unless a waiting one is kept in its place. */
  lemma PutAckChain(acked: nat, p: AckPath, offset: nat, outcome: AckOutcome)
    requires Increasing(Chain(acked, p)) && Last(Chain(acked, p)) < offset && !outcome.Refused?
    ensures Increasing(Chain(acked, PutAck(p, offset, outcome)))
    ensures if p.waiting.Some? && outcome.KeptOld? then PutAck(p, offset, outcome) == p
            else Last(Chain(acked, PutAck(p, offset, outcome))) == offset
  {
    var c := Chain(acked, p);
    var d := Chain(acked, PutAck(p, offset, outcome));
    NewestMoves(c, offset);
    if p.waiting.Some? {
      assert Last(c) == p.waiting.value;
      assert d == c || d == c[..|c| - 1] + [offset];
    } else {
      assert d == c + [offset];
    }
  }

  lemma NewestMoves(c: seq<nat>, offset: nat)
    requires c != [] && Increasing(c) && Last(c) < offset
    ensures Increasing(c + [offset]) && Last(c + [offset]) == offset
    ensures Increasing(c[..|c| - 1] + [offset]) && Last(c[..|c| - 1] + [offset]) == offset
  {
  }

  // ---------- the invariant of prompted runs ----------

  /** Before its first Ack the sender has done nothing. */
  predicate Silent(a: Attempt) {
    && a.s.frames == [] && a.s.completions == [] && a.s.acked == 0
    && !a.s.readPending && a.s.reading.None? && !a.s.HasPending()
    && (a.r.acks == AckPath([], None) || a.r.acks == AckPath([0], None) || a.r.acks == AckPath([], Some(0)))
  }

  /** An Ack exists only once the write session is open. */
  predicate SessionOpen(a: Attempt) {
    a.heard || a.r.acks != AckPath([], None) ==> !a.opening && (Active(a.r.phase) ==> a.r.writeReady)
  }

  predicate Spreading(a: Attempt) {
    && Increasing(Chain(a.s.acked, a.r.acks))
    && Spread(|a.source|, a.s.acked, a.r.acks, a.r.written, a.r.lastAck)
  }

  predicate PromptInv(a: Attempt) {
    && Inv(a)
    && (!a.heard ==> Silent(a))
    && SessionOpen(a)
    && a.r.phase != Failed(InvalidOffset)
  }

  lemma SilentOffsets(a: Attempt)
    requires Inv(a) && Silent(a)
    ensures a.accepted == 0 && a.r.written == 0 && a.r.lastAck == 0 && a.s.sent == 0
  {
  }

  lemma SenderSidePrompt(a: Attempt, step: Step)
    requires PromptInv(a) && Enabled(a, step) && OnSender(step) && Prompted(a, step)
    ensures PromptInv(Next(a, step))
  {
    SenderSideInv(a, step);
    SenderStepInv(a, step);
    assert Next(a, step).r == a.r;
  }

  lemma FlushPrompt(a: Attempt)
    requires PromptInv(a)
    ensures PromptInv(Next(a, AckFlushed))
  {
    FlushInv(a);
    FlushedShapes(a.r.acks);
  }

  lemma FlushedShapes(p: AckPath)
    ensures p == AckPath([], None) || p == AckPath([0], None) ==> FlushAck(p) == p
    ensures p == AckPath([], Some(0)) ==> FlushAck(p) == AckPath([0], None)
    ensures p != AckPath([], None) ==> FlushAck(p) != AckPath([], None)
    ensures FlushAck(p) != AckPath([], None) ==> p != AckPath([], None)
  {
  }

  lemma AckArrivesPrompt(a: Attempt, io: Io)
    requires PromptInv(a) && Enabled(a, AckArrives(io))
    ensures PromptInv(Next(a, AckArrives(io)))
  {
    AckArrivesInv(a, io);
    var b := Next(a, AckArrives(io));
    AckFits(a);
    HandleAckInv(a.source, a.s, a.r.acks.wire[0], io);
    assert b.s.acked == a.r.acks.wire[0];
  }

  lemma FrameArrivesPrompt(a: Attempt)
    requires PromptInv(a) && Enabled(a, FrameArrives)
    ensures PromptInv(Next(a, FrameArrives))
  {
    StepInv(a, FrameArrives);
    FrameFits(a);
  }

  lemma CallbackPhase(r: Receiver, outcome: AckOutcome)
    requires r.done < |r.outcomes| <= |r.jobs|
    ensures var q := JobDone(r, outcome);
            && (Active(q.phase) ==> Active(r.phase) && q.writeReady == r.writeReady)
            && (q.phase == Failed(InvalidOffset) ==> r.phase == q.phase)
  {
    if r.jobs[r.done].Append? {
      ChunkDone(r, outcome);
      ChunkWrittenPhase(r.(done := r.done + 1), |r.jobs[r.done].data|, outcome);
    } else {
      OtherJobDone(r, outcome);
    }
  }

  lemma ChunkWrittenPhase(r: Receiver, size: nat, outcome: AckOutcome)
    ensures var q := ChunkWritten(r, size, outcome);
            q.phase == r.phase && q.writeReady == r.writeReady
  {
  }

  lemma CallbackPrompt(a: Attempt, outcome: AckOutcome)
    requires PromptInv(a) && Enabled(a, Callback(outcome))
    ensures PromptInv(Next(a, Callback(outcome)))
  {
    StepInv(a, Callback(outcome));
    CallbackPhase(a.r, outcome);
    if !a.heard {
      SilentOffsets(a);
      assert !a.r.jobs[a.r.done].Append?;
      OtherJobsKeepAcks(a.r, outcome);
    }
  }

  lemma OpenedPrompt(a: Attempt, outcome: AckOutcome)
    requires PromptInv(a) && Enabled(a, Opened(outcome)) && Inv(Next(a, Opened(outcome)))
    ensures PromptInv(Next(a, Opened(outcome)))
  {
    assert !a.heard && a.r.acks == AckPath([], None);
    OpenedFields(a.r, outcome);
  }

  lemma OpenedFields(r: Receiver, outcome: AckOutcome)
    requires r.acks == AckPath([], None)
    ensures var q := WriteOpened(r, outcome);
            && (q.acks == AckPath([], None) || q.acks == AckPath([0], None) || q.acks == AckPath([], Some(0)))
            && q.phase == r.phase
            && (q.acks != AckPath([], None) ==> q.writeReady)
  {
  }

  lemma OtherFields(r: Receiver, a: Attempt, step: Step)
    requires a.r == r && Enabled(a, step) && a.completed <= |a.s.completions|
    requires step.WorkerStep? || step.CompletionArrives? || step.ReceiverPaused?
             || step.ReceiverResumed? || step.ReceiverStops? || step.OpenFails?
    ensures var q := ReceiverStep(a, step);
            && q.acks == r.acks && q.lastAck == r.lastAck && q.written == r.written
            && (Active(q.phase) ==> Active(r.phase) && q.writeReady == r.writeReady)
            && (q.phase == Failed(InvalidOffset) ==> q.phase == r.phase)
  {
  }

  lemma OtherPrompt(a: Attempt, step: Step)
    requires PromptInv(a) && Enabled(a, step) && Inv(Next(a, step))
    requires step.WorkerStep? || step.CompletionArrives? || step.ReceiverPaused?
             || step.ReceiverResumed? || step.ReceiverStops? || step.OpenFails?
    ensures PromptInv(Next(a, step))
  {
    OtherFields(a.r, a, step);
    assert Next(a, step).s == a.s;
  }

  lemma StepPrompt(a: Attempt, step: Step)
    requires PromptInv(a) && Enabled(a, step) && Prompted(a, step)
    ensures PromptInv(Next(a, step))
  {
    if OnSender(step) {
      SenderSidePrompt(a, step);
    } else {
      match step
      case AckArrives(io) => AckArrivesPrompt(a, io);
      case AckFlushed => FlushPrompt(a);
      case FrameArrives => FrameArrivesPrompt(a);
      case Callback(outcome) => CallbackPrompt(a, outcome);
      case Opened(outcome) =>
        StepInv(a, step);
        OpenedPrompt(a, outcome);
      case _ =>
        StepInv(a, step);
        OtherPrompt(a, step);
    }
  }

  lemma {:induction false} RunPrompt(a: Attempt, steps: seq<Step>)
    requires PromptInv(a) && Runs(a, steps) && PromptedRun(a, steps)
    ensures PromptInv(After(a, steps)) && After(a, steps).source == a.source
    decreases |steps|
  {
    if steps != [] {
      StepPrompt(a, steps[0]);
      RunPrompt(Next(a, steps[0]), steps[1..]);
    }
  }

  // ---------- runs in which no Ack is refused ----------

  predicate Accepting(step: Step) {
    step.Callback? ==> !step.outcome.Refused?
  }

  predicate CleanInv(a: Attempt) {
    PromptInv(a) && (a.heard ==> Spreading(a))
  }

  lemma TailSpreads(total: nat, acked: nat, p: AckPath, written: nat, last: nat)
    requires Increasing(Chain(acked, p)) && Spread(total, acked, p, written, last) && p.wire != []
    ensures Increasing(Chain(p.wire[0], p.(wire := p.wire[1..])))
    ensures Spread(total, p.wire[0], p.(wire := p.wire[1..]), written, last)
  {
    var c := Chain(acked, p);
    assert Chain(p.wire[0], p.(wire := p.wire[1..])) == c[1..];
    assert Last(c) == Last(c[1..]);
  }

  lemma ChunkWrittenFields(r: Receiver, size: nat, outcome: AckOutcome)
    ensures var q := ChunkWritten(r, size, outcome);
            var due := r.written + size - r.lastAck >= ACK_INTERVAL || r.written + size == r.total;
            && q.written == r.written + size
            && q.acks == (if due then PutAck(r.acks, q.written, outcome) else r.acks)
            && q.lastAck == (if due && !outcome.Refused? then q.written else r.lastAck)
  {
  }

  lemma CallbackOffsets(a: Attempt)
    requires Inv(a) && a.r.done < |a.r.outcomes|
    requires a.r.jobs[a.r.done].Append? && a.r.outcomes[a.r.done] && Active(a.r.phase)
    ensures var written := a.r.written + |a.r.jobs[a.r.done].data|;
            && a.r.written < written <= a.r.written + CHUNK && written <= |a.source|
            && written <= a.s.acked + WINDOW
            && Aligned(|a.source|, written) && Aligned(|a.source|, a.r.written) && Aligned(|a.source|, a.r.lastAck)
  {
    ChunkCounts(a.source, a.r, a.accepted);
    PosMonotone(|a.source|, a.accepted, |a.s.frames|);
    assert |FrameAt(a.source, a.r.done).payload| > 0;
  }

  /** A chunk that reached the file, with its Ack. */
  lemma ChunkWrittenSpreads(a: Attempt, outcome: AckOutcome)
    requires Inv(a) && Spreading(a) && a.r.done < |a.r.outcomes| && !outcome.Refused?
    requires a.r.jobs[a.r.done].Append? && a.r.outcomes[a.r.done] && Active(a.r.phase)
    ensures var q := JobDone(a.r, outcome);
            && Increasing(Chain(a.s.acked, q.acks))
            && Spread(|a.source|, a.s.acked, q.acks, q.written, q.lastAck)
  {
    CallbackOffsets(a);
    NextSpreads(a.source, a.s.acked, a.r, outcome);
  }

  lemma NextSpreads(source: seq<Byte>, acked: nat, r: Receiver, outcome: AckOutcome)
    requires r.done < |r.outcomes| <= |r.jobs| && r.total == |source| && !outcome.Refused?
    requires r.jobs[r.done].Append? && r.outcomes[r.done] && Active(r.phase)
    requires Increasing(Chain(acked, r.acks)) && Spread(|source|, acked, r.acks, r.written, r.lastAck)
    requires var written := r.written + |r.jobs[r.done].data|;
             && r.written < written <= r.written + CHUNK && written <= |source| && written <= acked + WINDOW
             && Aligned(|source|, written) && Aligned(|source|, r.written) && Aligned(|source|, r.lastAck)
    ensures var q := JobDone(r, outcome);
            && Increasing(Chain(acked, q.acks))
            && Spread(|source|, acked, q.acks, q.written, q.lastAck)
  {
    ChunkDone(r, outcome);
    ChunkSpreads(|source|, acked, r.(done := r.done + 1), |r.jobs[r.done].data|, outcome);
  }

  lemma ChunkSpreads(total: nat, acked: nat, r: Receiver, size: nat, outcome: AckOutcome)
    requires r.total == total && !outcome.Refused?
    requires Increasing(Chain(acked, r.acks)) && Spread(total, acked, r.acks, r.written, r.lastAck)
    requires 0 < size <= CHUNK && r.written + size <= total && r.written + size <= acked + WINDOW
    requires Aligned(total, r.written) && Aligned(total, r.written + size) && Aligned(total, r.lastAck)
    ensures var q := ChunkWritten(r, size, outcome);
            && Increasing(Chain(acked, q.acks))
            && Spread(total, acked, q.acks, q.written, q.lastAck)
  {
    ChunkWrittenFields(r, size, outcome);
    if AckDueAt(total, r.written + size, r.lastAck) {
      PutAckSpreads(total, acked, r.acks, r.written, r.written + size, r.lastAck, outcome);
    }
  }

  lemma CallbackClean(a: Attempt, outcome: AckOutcome)
    requires CleanInv(a) && Enabled(a, Callback(outcome)) && !outcome.Refused?
    ensures a.heard ==> Spreading(Next(a, Callback(outcome)))
  {
    if a.heard {
      if a.r.jobs[a.r.done].Append? && a.r.outcomes[a.r.done] && Active(a.r.phase) {
        ChunkWrittenSpreads(a, outcome);
      } else {
        OtherJobsKeepAcks(a.r, outcome);
      }
    }
  }

  lemma AckArrivesClean(a: Attempt, io: Io)
    requires CleanInv(a) && Enabled(a, AckArrives(io))
    ensures Spreading(Next(a, AckArrives(io)))
  {
    var b := Next(a, AckArrives(io));
    AckFits(a);
    HandleAckInv(a.source, a.s, a.r.acks.wire[0], io);
    assert b.s.acked == a.r.acks.wire[0];
    if a.heard {
      TailSpreads(|a.source|, a.s.acked, a.r.acks, a.r.written, a.r.lastAck);
    } else {
      SilentOffsets(a);
      assert Chain(0, AckPath([], None)) == [0];
    }
  }

  lemma FlushClean(a: Attempt, step: Step)
    requires CleanInv(a) && step.AckFlushed?
    ensures a.heard ==> Spreading(Next(a, step))
  {
    assert Chain(a.s.acked, FlushAck(a.r.acks)) == Chain(a.s.acked, a.r.acks);
  }

  lemma OtherClean(a: Attempt, step: Step)
    requires CleanInv(a) && Enabled(a, step) && Prompted(a, step)
    requires !step.Callback? && !step.AckArrives? && !step.AckFlushed? && !step.Opened?
    ensures Next(a, step).heard ==> Spreading(Next(a, step))
  {
    if OnSender(step) {
      SenderStepInv(a, step);
    } else if !step.FrameArrives? {
      OtherFields(a.r, a, step);
    }
  }

  lemma StepClean(a: Attempt, step: Step)
    requires CleanInv(a) && Enabled(a, step) && Prompted(a, step) && Accepting(step)
    ensures CleanInv(Next(a, step))
  {
    StepPrompt(a, step);
    if step.Callback? {
      CallbackClean(a, step.outcome);
    } else if step.AckArrives? {
      AckArrivesClean(a, step.io);
    } else if step.AckFlushed? {
      FlushClean(a, step);
    } else if !step.Opened? {
      OtherClean(a, step);
    }
  }

  lemma {:induction false} RunClean(a: Attempt, steps: seq<Step>)
    requires CleanInv(a) && Runs(a, steps) && PromptedRun(a, steps)
    requires forall i :: 0 <= i < |steps| ==> Accepting(steps[i])
    ensures CleanInv(After(a, steps)) && After(a, steps).source == a.source
    decreases |steps|
  {
    if steps != [] {
      assert Accepting(steps[0]);
      StepClean(a, steps[0]);
      RunClean(Next(a, steps[0]), steps[1..]);
    }
  }

  // ---------- what holds in prompted runs ----------

  lemma StartPrompt(source: seq<Byte>)
    ensures PromptInv(Start(source))
  {
    StartInv(source);
  }

  /** When the first pump follows Ack(0), no frame of an active receiver is ever refused. */
  lemma PromptedRunsRefuseNothing(source: seq<Byte>, steps: seq<Step>)
    requires Runs(Start(source), steps) && PromptedRun(Start(source), steps)
    ensures var a := After(Start(source), steps);
            && a.r.phase != Failed(InvalidOffset)
            && (a.delivered < |a.s.frames| && Active(a.r.phase) ==> Fits(a.r, a.s.frames[a.delivered]))
  {
    StartPrompt(source);
    RunPrompt(Start(source), steps);
    var a := After(Start(source), steps);
    if a.delivered < |a.s.frames| {
      FrameFits(a);
    }
  }

  /** Nothing is under way: every frame was written and called back, every accepted Ack arrived. */
  predicate Quiescent(a: Attempt) {
    && a.delivered == |a.s.frames|
    && a.r.done == |a.r.outcomes| == |a.r.jobs|
    && a.r.acks == AckPath([], None)
    && a.s.reading.None?
    && Active(a.r.phase)
  }

  const GOOD := Io(false, true, false, true, false, true)

  /** The sender asks for the next chunk, sends one, or announces the end of the file. */
  predicate Moves(s: Sender, t: Sender) {
    (s.reading.None? && t.reading.Some?) || |t.frames| > |s.frames| || (t.completionSent && !s.completionSent)
  }

  lemma UnblockedMoves(source: seq<Byte>, s: Sender)
    requires SenderInv(source, s) && s.phase.Transferring? && s.reading.None? && !s.completionSent && !s.Blocked()
    ensures Moves(s, Pump(s, GOOD))
  {
  }

  /** Everything sent has been written when nothing is under way. */
  lemma QuiescentOffsets(a: Attempt)
    requires PromptInv(a) && Quiescent(a)
    ensures a.r.written == a.s.sent
  {
    if a.heard {
      assert a.r.writeReady && a.accepted == |a.s.frames|;
    } else {
      SilentOffsets(a);
    }
  }

  lemma QuiescentWindow(a: Attempt)
    requires CleanInv(a) && Quiescent(a)
    ensures !a.s.Blocked()
  {
    QuiescentOffsets(a);
    if a.heard {
      assert Last(Chain(a.s.acked, a.r.acks)) == a.s.acked;
    } else {
      SilentOffsets(a);
    }
  }

  /** With refused Acks allowed: a quiescent attempt is stuck exactly when the last Ack that arrived
      is a whole window behind what the receiver has written. */
  lemma StuckExactly(source: seq<Byte>, steps: seq<Step>)
    requires Runs(Start(source), steps) && PromptedRun(Start(source), steps)
    requires var a := After(Start(source), steps);
             Quiescent(a) && a.s.phase.Transferring? && !a.s.completionSent
    ensures var a := After(Start(source), steps);
            Moves(a.s, Pump(a.s, GOOD)) <==> a.r.written - a.s.acked < WINDOW
  {
    StartPrompt(source);
    RunPrompt(Start(source), steps);
    var a := After(Start(source), steps);
    QuiescentOffsets(a);
    if !a.s.Blocked() {
      UnblockedMoves(source, a.s);
    }
  }

  /** An attempt that finalizes does so on the whole source: the digest check passes, and the
      outcome is the file system's alone. */
  lemma FinalizationVerifies(source: seq<Byte>, steps: seq<Step>, bytes: nat, systemOk: bool)
    requires Runs(Start(source), steps)
    requires var r := After(Start(source), steps).r;
             |r.outcomes| < |r.jobs| && r.jobs[|r.outcomes|].Finalize? && Active(r.phase)
    ensures var r := After(Start(source), steps).r;
            var q := WorkerRuns(r, bytes, systemOk);
            q.outcomes == r.outcomes + [systemOk] && q.file.content == source && q.file.published == systemOk
  {
    StartInv(source);
    RunInv(Start(source), steps);
    var a := After(Start(source), steps);
    FinalizingHasAll(a);
    NotPublishedBefore(a);
  }

  lemma NotPublishedBefore(a: Attempt)
    requires Inv(a) && |a.r.outcomes| < |a.r.jobs| && a.r.jobs[|a.r.outcomes|].Finalize?
    ensures !a.r.file.published && a.r.file.open
    ensures Active(a.r.phase) ==> !a.r.file.failed
  {
  }

  // ---------- an attempt at rest has ended ----------

  /** Finalization is asked for as soon as it may be, and its callback ends the task. */
  predicate Eager(r: Receiver, n: nat) {
    && (r.completionReceived ==> r.expected.Some?)
    && (r.writeReady && r.completionReceived && r.written == r.total ==> r.finalizing)
    && (r.finalizing && r.done > n ==> !Active(r.phase))
  }

  predicate EagerInv(a: Attempt) {
    Eager(a.r, a.accepted) && (a.completed > 0 && Active(a.r.phase) ==> a.r.completionReceived)
  }

  lemma TryFinalizeEager(r: Receiver, n: nat)
    requires (r.completionReceived ==> r.expected.Some?) && !(r.finalizing && r.done > n && Active(r.phase))
    requires r.done <= n || !MayFinalize(r)
    ensures Eager(TryFinalize(r), n)
  {
  }

  lemma CallbackEager(source: seq<Byte>, r: Receiver, n: nat, outcome: AckOutcome)
    requires ReceiverInv(source, r, n) && Eager(r, n) && r.done < |r.outcomes|
    ensures Eager(JobDone(r, outcome), n)
    ensures JobDone(r, outcome).completionReceived == r.completionReceived
    ensures Active(JobDone(r, outcome).phase) ==> Active(r.phase)
  {
    if r.jobs[r.done].Append? && r.outcomes[r.done] && Active(r.phase) {
      WrittenChunkDone(r, outcome);
      ChunkEager(source, r, n, outcome);
    } else {
      OtherCallbackEager(source, r, n, outcome);
    }
  }

  lemma ChunkEager(source: seq<Byte>, r: Receiver, n: nat, outcome: AckOutcome)
    requires ReceiverInv(source, r, n) && Eager(r, n) && r.done < |r.outcomes|
    requires r.jobs[r.done].Append? && r.outcomes[r.done] && Active(r.phase)
    ensures var q := TryFinalize(Acknowledge(Counted(r), outcome));
            Eager(q, n) && q.completionReceived == r.completionReceived && q.phase == r.phase
  {
    ChunkCounts(source, r, n);
    WrittenEager(Counted(r), n, outcome);
  }

  lemma WrittenEager(q: Receiver, n: nat, outcome: AckOutcome)
    requires (q.completionReceived ==> q.expected.Some?) && !(q.finalizing && q.done > n && Active(q.phase))
    requires q.done <= n || !MayFinalize(q)
    ensures var t := TryFinalize(Acknowledge(q, outcome));
            Eager(t, n) && t.completionReceived == q.completionReceived && t.phase == q.phase
  {
    TryFinalizeEager(Acknowledge(q, outcome), n);
  }

  lemma OtherCallbackEager(source: seq<Byte>, r: Receiver, n: nat, outcome: AckOutcome)
    requires ReceiverInv(source, r, n) && Eager(r, n) && r.done < |r.outcomes|
    requires !(r.jobs[r.done].Append? && r.outcomes[r.done] && Active(r.phase))
    ensures Eager(JobDone(r, outcome), n)
    ensures JobDone(r, outcome).completionReceived == r.completionReceived
    ensures Active(JobDone(r, outcome).phase) ==> Active(r.phase)
  {
    OtherJobsKeepAcks(r, outcome);
    if !r.jobs[r.done].Append? {
      OtherJobDone(r, outcome);
    }
  }

  lemma EagerStep(a: Attempt, step: Step)
    requires Inv(a) && EagerInv(a) && Enabled(a, step) && !step.Callback? && !step.FrameArrives?
    ensures EagerInv(Next(a, step))
  {
    if step.CompletionArrives? {
      TryFinalizeEager(a.r.(expected := Some(a.s.completions[a.completed].digest), completionReceived := true),
                       a.accepted);
    } else {
      QuietEager(a, step);
    }
  }

  lemma QuietEager(a: Attempt, step: Step)
    requires Inv(a) && EagerInv(a) && Enabled(a, step)
    requires !step.Callback? && !step.FrameArrives? && !step.CompletionArrives?
    ensures Eager(ReceiverStep(a, step), a.accepted)
    ensures a.r.completionReceived ==> ReceiverStep(a, step).completionReceived
    ensures Active(ReceiverStep(a, step).phase) ==> Active(a.r.phase)
  {
  }

  lemma StepEager(a: Attempt, step: Step)
    requires Inv(a) && EagerInv(a) && Enabled(a, step)
    ensures EagerInv(Next(a, step))
  {
    if step.Callback? {
      CallbackEager(a.source, a.r, a.accepted, step.outcome);
    } else if step.FrameArrives? {
      FrameEager(a, step);
    } else {
      EagerStep(a, step);
    }
  }

  lemma FrameEager(a: Attempt, step: Step)
    requires Inv(a) && EagerInv(a) && Enabled(a, step) && step.FrameArrives?
    ensures EagerInv(Next(a, step))
  {
    FrameFits(a);
  }

  lemma CompletionEnds(a: Attempt)
    requires PromptInv(a) && EagerInv(a) && Quiescent(a) && a.completed == |a.s.completions|
    ensures !a.s.completionSent
  {
  }

  // ---------- what goes wrong otherwise ----------

  /** A pump before Ack(0), on a low watermark say, can reach the receiver before its write session
      is open, and then the attempt fails although nothing was lost. */
  lemma EarlyPumpFails(source: seq<Byte>)
    requires source != []
    ensures var steps := [Pumped(GOOD), ReadFinished(true, GOOD), FrameArrives];
            && Runs(Start(source), steps)
            && After(Start(source), steps).r.phase == Failed(InvalidOffset)
  {
    var a := Start(source);
    var b := Next(a, Pumped(GOOD));
    assert b.s.reading == Some(0);
    var c := Next(b, ReadFinished(true, GOOD));
    assert |c.s.frames| == 1 && !c.r.writeReady;
    var d := Next(c, FrameArrives);
    assert d.r.phase == Failed(InvalidOffset);
    var steps := [Pumped(GOOD), ReadFinished(true, GOOD), FrameArrives];
    Prepend(c, FrameArrives, []);
    Prepend(b, ReadFinished(true, GOOD), [FrameArrives]);
    Prepend(a, Pumped(GOOD), [ReadFinished(true, GOOD), FrameArrives]);
    assert steps == [Pumped(GOOD)] + [ReadFinished(true, GOOD), FrameArrives];
  }

  lemma Prepend(a: Attempt, step: Step, rest: seq<Step>)
    requires Enabled(a, step) && Runs(Next(a, step), rest)
    ensures Runs(a, [step] + rest) && After(a, [step] + rest) == After(Next(a, step), rest)
    ensures Prompted(a, step) && PromptedRun(Next(a, step), rest) ==> PromptedRun(a, [step] + rest)
  {
    assert ([step] + rest)[1..] == rest;
  }

  /** n chunks are sent and `arrived`, `ran`, `called` of them got that far; no Ack was taken. */
  predicate Stage(a: Attempt, n: nat, reading: bool, arrived: nat, ran: nat, called: nat) {
    && PromptInv(a) && a.heard && a.s.phase.Transferring? && a.r.phase.Transferring?
    && |a.s.frames| == n && a.s.acked == 0 && a.s.reading.Some? == reading && !a.s.HasPending()
    && !a.r.completionReceived && a.r.writeReady && !a.r.finalizing
    && a.accepted == a.delivered == arrived && |a.r.jobs| == arrived
    && |a.r.outcomes| == ran && a.r.done == called
    && a.r.acks == AckPath([], None) && a.r.lastAck == 0
  }

  lemma StageReads(a: Attempt, n: nat)
    requires Stage(a, n, true, n, n, n) && n < 32 && WINDOW < |a.source|
    ensures Stage(Next(a, ReadFinished(true, GOOD)), n + 1, n < 31, n, n, n)
  {
    StepPrompt(a, ReadFinished(true, GOOD));
  }

  lemma StageArrives(a: Attempt, n: nat, reading: bool)
    requires Stage(a, n + 1, reading, n, n, n)
    ensures Stage(Next(a, FrameArrives), n + 1, reading, n + 1, n, n)
  {
    StepPrompt(a, FrameArrives);
    FrameFits(a);
  }

  lemma StageRuns(a: Attempt, n: nat, reading: bool)
    requires Stage(a, n + 1, reading, n + 1, n, n)
    ensures Stage(Next(a, WorkerStep(CHUNK, true)), n + 1, reading, n + 1, n + 1, n)
    ensures Next(a, WorkerStep(CHUNK, true)).r.outcomes[n]
  {
    StepPrompt(a, WorkerStep(CHUNK, true));
    NotFailedYet(a);
    NextChunk(a.source, n);
  }

  lemma NotFailedYet(a: Attempt)
    requires Inv(a) && Active(a.r.phase) && a.r.done == |a.r.outcomes|
    ensures !a.r.file.failed
  {
  }

  lemma StageRefuses(a: Attempt, n: nat, reading: bool)
    requires Stage(a, n + 1, reading, n + 1, n + 1, n) && a.r.outcomes[n]
    ensures Stage(Next(a, Callback(Refused)), n + 1, reading, n + 1, n + 1, n + 1)
  {
    StepPrompt(a, Callback(Refused));
    ChunkDone(a.r, Refused);
    assert a.r.jobs[n].Append?;
  }

  function Round(): seq<Step> {
    [ReadFinished(true, GOOD)] + ([FrameArrives] + ([WorkerStep(CHUNK, true)] + ([Callback(Refused)] + [])))
  }

  lemma OneRound(a: Attempt, n: nat) returns (b: Attempt)
    requires Stage(a, n, true, n, n, n) && n < 32 && WINDOW < |a.source|
    ensures Stage(b, n + 1, n < 31, n + 1, n + 1, n + 1) && b.source == a.source
    ensures Runs(a, Round()) && PromptedRun(a, Round()) && After(a, Round()) == b
  {
    var reading := n < 31;
    StageReads(a, n);
    var c := Next(a, ReadFinished(true, GOOD));
    StageArrives(c, n, reading);
    var d := Next(c, FrameArrives);
    StageRuns(d, n, reading);
    var e := Next(d, WorkerStep(CHUNK, true));
    StageRefuses(e, n, reading);
    b := Next(e, Callback(Refused));
    Prepend(e, Callback(Refused), []);
    Prepend(d, WorkerStep(CHUNK, true), [Callback(Refused)] + []);
    Prepend(c, FrameArrives, [WorkerStep(CHUNK, true)] + ([Callback(Refused)] + []));
    Prepend(a, ReadFinished(true, GOOD),
            [FrameArrives] + ([WorkerStep(CHUNK, true)] + ([Callback(Refused)] + [])));
  }

  lemma Unfold(a: Attempt, steps: seq<Step>) returns (b: Attempt)
    requires steps != [] && Runs(a, steps) && PromptedRun(a, steps)
    ensures Enabled(a, steps[0]) && Prompted(a, steps[0]) && b == Next(a, steps[0])
    ensures Runs(b, steps[1..]) && PromptedRun(b, steps[1..]) && After(b, steps[1..]) == After(a, steps)
  {
    b := Next(a, steps[0]);
  }

  lemma {:induction false} Concatenate(a: Attempt, first: seq<Step>, second: seq<Step>)
    requires Runs(a, first) && Runs(After(a, first), second)
    requires PromptedRun(a, first) && PromptedRun(After(a, first), second)
    ensures Runs(a, first + second) && PromptedRun(a, first + second)
    ensures After(a, first + second) == After(After(a, first), second)
    decreases |first|
  {
    if first == [] {
      assert first + second == second;
    } else {
      var b := Unfold(a, first);
      Concatenate(b, first[1..], second);
      Prepend(a, first[0], first[1..] + second);
      Regroup(first, second);
    }
  }

  lemma Regroup(first: seq<Step>, second: seq<Step>)
    requires first != []
    ensures first + second == [first[0]] + (first[1..] + second)
  {
  }

  lemma {:induction false} Rounds(a: Attempt, n: nat) returns (steps: seq<Step>)
    requires Stage(a, n, true, n, n, n) && n < 32 && WINDOW < |a.source|
    ensures Runs(a, steps) && PromptedRun(a, steps)
    ensures Stage(After(a, steps), 32, false, 32, 32, 32)
    decreases 32 - n
  {
    var b := OneRound(a, n);
    if n == 31 {
      steps := Round();
    } else {
      var rest := Rounds(b, n + 1);
      Concatenate(a, Round(), rest);
      steps := Round() + rest;
    }
  }

  lemma FirstAck(source: seq<Byte>) returns (a: Attempt, steps: seq<Step>)
    requires source != []
    ensures Runs(Start(source), steps) && PromptedRun(Start(source), steps)
    ensures a == After(Start(source), steps) && a.source == source && Stage(a, 0, true, 0, 0, 0)
  {
    StartPrompt(source);
    var o := Next(Start(source), Opened(Direct));
    StepPrompt(Start(source), Opened(Direct));
    assert o.r.acks == AckPath([0], None);
    a := Next(o, AckArrives(GOOD));
    StepPrompt(o, AckArrives(GOOD));
    Prepend(o, AckArrives(GOOD), []);
    Prepend(Start(source), Opened(Direct), [AckArrives(GOOD)] + []);
    steps := [Opened(Direct)] + ([AckArrives(GOOD)] + []);
  }

  /** When the control path refuses every Ack after the first, the window of a file larger than
      1 MiB closes for good: nothing is under way and no pump moves the sender. */
  lemma RefusedAcksBlockForever(source: seq<Byte>) returns (steps: seq<Step>)
    requires |source| > WINDOW
    ensures Runs(Start(source), steps) && PromptedRun(Start(source), steps)
    ensures var a := After(Start(source), steps);
            && Quiescent(a) && a.s.Blocked() && a.s.phase.Transferring? && !a.s.completionSent
            && (forall io: Io :: Pump(a.s, io) == a.s)
  {
    var a, first := FirstAck(source);
    var rest := Rounds(a, 0);
    Concatenate(Start(source), first, rest);
    steps := first + rest;
    var b := After(a, rest);
    RunPrompt(Start(source), steps);
    assert b.s.sent == WINDOW;
  }
}
