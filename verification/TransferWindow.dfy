/** The sending and the receiving task of one attempt, joined by a FIFO data channel, a control
    path each way and the receiver's FIFO file worker. In every run the offsets respect the
    window, the destination is a prefix of the source, and a finished sender means that the whole
    source was published. */
module TransferWindow {
  import opened Wrappers
  import opened FileTransfer

  // ---------- the sender ----------

  /** The offset behind the first n chunks of a file of this size. */
  function Pos(total: nat, n: nat): (r: nat)
    ensures r <= total && r <= n * CHUNK
  {
    if n * CHUNK <= total then n * CHUNK else total
  }

  /** An offset at which a chunk can start or the file end. */
  predicate Aligned(total: nat, offset: nat) {
    offset % CHUNK == 0 || offset == total
  }

  function FrameAt(source: seq<Byte>, i: nat): Frame
    requires i * CHUNK < |source|
  {
    var (data, last) := ReadChunk(source, i * CHUNK);
    Frame(i * CHUNK, data, last)
  }

  predicate FramesOk(source: seq<Byte>, frames: seq<Frame>) {
    forall i :: 0 <= i < |frames| ==> i * CHUNK < |source| && frames[i] == FrameAt(source, i)
  }

  predicate PendingOk(source: seq<Byte>, s: Sender) {
    && s.sent <= |source|
    && (s.HasPending() ==> s.pendingOffset == s.sent && (s.pending, s.pendingComplete) == ReadChunk(source, s.sent)
                           && !s.readPending)
    && (s.reading.Some? ==> s.readPending && s.reading.value == s.sent)
    && (s.readPending && Active(s.phase) ==> s.reading.Some?)
    && (s.readPending || s.HasPending() ==> !s.Blocked() && !s.completionSent)
  }

  predicate CompletionOk(source: seq<Byte>, s: Sender) {
    && s.completions == (if s.completionSent then [Completion(|source|, Sha256(source))] else [])
    && (s.completionSent ==> s.sent == |source|)
    && (s.sent == |source| > 0 && Active(s.phase) ==> s.completionSent)
  }

  predicate SenderInv(source: seq<Byte>, s: Sender) {
    && s.total == |source|
    && FramesOk(source, s.frames)
    && s.sent == Pos(|source|, |s.frames|)
    && s.hashed == source[..s.sent]
    && (s.open <==> Active(s.phase))
    && s.acked <= s.sent <= s.acked + WINDOW
    && Aligned(|source|, s.acked)
    && PendingOk(source, s)
    && CompletionOk(source, s)
    && s.phase != Failed(InvalidSourceOffset) && s.phase != Failed(InvalidAck)
  }

  /** What every handler but that of an Ack leaves alone. */
  predicate Extends(s: Sender, t: Sender) {
    && s.frames <= t.frames
    && s.completions <= t.completions
    && s.acked == t.acked
    && s.sent <= t.sent
  }

  lemma FrameSentInv(source: seq<Byte>, s: Sender)
    requires SenderInv(source, s) && s.HasPending() && s.pending != [] && Active(s.phase)
    ensures var t := FrameSent(s);
            && t.total == |source| && FramesOk(source, t.frames)
            && t.sent == Pos(|source|, |t.frames|)
            && t.hashed == source[..t.sent]
            && t.sent <= t.acked + WINDOW
            && (t.sent == |source| <==> s.pendingComplete)
  {
    var n := |s.frames|;
    assert s.sent == n * CHUNK < |source|;
    assert FrameSent(s).frames[n] == FrameAt(source, n);
    assert source[..s.sent] + s.pending == source[..s.sent + |s.pending|];
    WindowStep(|source|, s.sent, s.acked, |s.pending|);
  }

  /** Offsets on chunk boundaries that differ by less than the window leave room for a chunk. */
  lemma WindowStep(total: nat, sent: nat, acked: nat, size: nat)
    requires Aligned(total, acked) && sent % CHUNK == 0 && acked <= sent < total
    requires sent - acked < WINDOW && size <= CHUNK
    ensures sent + size <= acked + WINDOW
  {
    assert WINDOW % CHUNK == 0;
  }

  lemma SendCompleteInv(source: seq<Byte>, s: Sender, io: Io)
    requires SenderInv(source, s.(completionSent := true, completions := [Completion(|source|, Sha256(source))]))
    requires !s.completionSent && s.completions == [] && s.sent == |source| && Active(s.phase)
    ensures SenderInv(source, SendComplete(s, io)) && Extends(s, SendComplete(s, io))
  {
    assert source[..|source|] == source;
  }

  lemma RequestReadInv(source: seq<Byte>, s: Sender, io: Io)
    requires SenderInv(source, s) && !s.HasPending()
    ensures SenderInv(source, RequestRead(s, io)) && Extends(s, RequestRead(s, io))
  {
  }

  /** A sent chunk, its end-of-file mark and the next read. */
  lemma AfterSendInv(source: seq<Byte>, s: Sender, io: Io)
    requires SenderInv(source, s) && s.HasPending() && Active(s.phase)
    ensures var t := AfterSend(if s.pending == [] then s else FrameSent(s), io);
            SenderInv(source, t) && Extends(s, t)
  {
    var g := if s.pending == [] then s else FrameSent(s);
    if s.pending != [] {
      FrameSentInv(source, s);
    }
    var t := ClearPending(g);
    if g.pendingComplete {
      SendCompleteInv(source, t, io);
    } else {
      RequestReadInv(source, t, io.(backpressured := io.backpressuredAfter));
    }
  }

  lemma FailSenderInv(source: seq<Byte>, s: Sender, code: ErrorCode)
    requires SenderInv(source, s) && !code.InvalidSourceOffset? && !code.InvalidAck?
    ensures SenderInv(source, FailSender(s, code)) && Extends(s, FailSender(s, code))
  {
  }

  lemma SendPendingInv(source: seq<Byte>, s: Sender, io: Io)
    requires SenderInv(source, s)
    ensures SenderInv(source, SendPending(s, io)) && Extends(s, SendPending(s, io))
  {
    if s.open && s.HasPending() && !io.reconnecting && io.channelReady {
      if s.pending == [] || io.dataAccepted {
        AfterSendInv(source, s, io);
      } else if !io.backpressuredAfter {
        FailSenderInv(source, s, DataSendFailed);
      }
    }
  }

  lemma PumpInv(source: seq<Byte>, s: Sender, io: Io)
    requires SenderInv(source, s)
    ensures SenderInv(source, Pump(s, io)) && Extends(s, Pump(s, io))
  {
    if MayPump(s, io) {
      if s.HasPending() {
        SendPendingInv(source, s, io);
      } else {
        RequestReadInv(source, s, io);
      }
    }
  }

  /** The read job ran on the unchanged source. */
  lemma ReadDoneInv(source: seq<Byte>, s: Sender, ok: bool, io: Io)
    requires SenderInv(source, s) && s.reading.Some?
    ensures var (data, complete) := ReadChunk(source, s.reading.value);
            var t := ReadDone(s, ok, data, complete, io);
            SenderInv(source, t) && Extends(s, t)
  {
    var (data, complete) := ReadChunk(source, s.reading.value);
    var g := s.(reading := None, readPending := false);
    if Active(s.phase) && ok {
      var h := g.(pending := data, pendingOffset := s.reading.value, pendingComplete := complete);
      SendPendingInv(source, h, io);
    } else if Active(s.phase) && !io.reconnecting {
      FailSenderInv(source, g, SourceChanged);
    }
  }

  lemma HandleAckInv(source: seq<Byte>, s: Sender, offset: nat, io: Io)
    requires SenderInv(source, s)
    requires s.acked <= offset <= s.sent && Aligned(|source|, offset)
    ensures SenderInv(source, HandleAck(s, offset, io))
    ensures Extends(s.(acked := offset), HandleAck(s, offset, io))
  {
    PumpInv(source, s.(acked := offset), io);
  }

  // ---------- the receiver ----------

  function Min(a: nat, b: nat): nat { if a < b then a else b }

  /** The jobs of a task that accepted n frames: their chunks in order, then at most one
      finalization, of the source's digest, and what gives the write session up. */
  predicate JobsOk(source: seq<Byte>, r: Receiver, n: nat) {
    && r.done <= |r.outcomes| <= |r.jobs| && n <= |r.jobs|
    && (forall i :: 0 <= i < n ==> i * CHUNK < |source| && r.jobs[i] == Append(FrameAt(source, i).payload))
    && (n < |r.jobs| ==> r.jobs[n] == Abort || (r.jobs[n] == Finalize(Sha256(source)) && Pos(|source|, n) == |source|))
    && (forall i :: n < i < |r.jobs| ==> r.jobs[i] == Abort)
    && (r.finalizing <==> n < |r.jobs| && r.jobs[n].Finalize?)
    && (r.writeReady && !r.finalizing ==> |r.jobs| == n)
    && (r.writeReady && r.finalizing ==> |r.jobs| == n + 1)
    && (Active(r.phase) && !r.writeReady ==> n == 0 && !r.finalizing && |r.jobs| <= 1)
  }

  predicate FileOk(source: seq<Byte>, r: Receiver, n: nat)
    requires JobsOk(source, r, n)
  {
    && r.file.content <= source
    && (r.file.published ==> r.file.content == source)
    && (!r.file.failed ==> r.file.content == source[..Pos(|source|, Min(|r.outcomes|, n))])
    && (|r.outcomes| <= n ==> r.file.open && !r.file.published)
    && (r.file.failed ==> exists i :: 0 <= i < Min(|r.outcomes|, n) && !r.outcomes[i])
    && (n < |r.outcomes| && r.jobs[n].Finalize? && r.outcomes[n] ==> r.file.published)
    && (forall i :: 0 <= i < Min(|r.outcomes|, n) && r.outcomes[i] ==> Pos(|source|, i + 1) <= |r.file.content|)
  }

  predicate OffsetsOk(source: seq<Byte>, r: Receiver, n: nat)
    requires JobsOk(source, r, n)
  {
    && r.total == |source| && r.queued == Pos(|source|, n)
    && r.lastAck <= r.written <= r.queued && r.written <= |r.file.content|
    && Aligned(|source|, r.written) && Aligned(|source|, r.lastAck)
    && (Active(r.phase) ==> r.written == Pos(|source|, Min(r.done, n)))
    && (Active(r.phase) ==> forall i :: 0 <= i < Min(r.done, n) ==> r.outcomes[i])
    && (Active(r.phase) && r.finalizing ==> r.written == |source| && r.done >= n)
  }

  predicate PhaseOk(source: seq<Byte>, r: Receiver) {
    && (r.writeReady <==> r.writeHeld) && (r.writeReady ==> Active(r.phase))
    && (r.phase.Finished? ==> r.file.published)
    && r.phase != Failed(InvalidCompletion)
    && (r.completionReceived ==> r.expected == Some(Sha256(source)))
  }

  predicate ReceiverInv(source: seq<Byte>, r: Receiver, n: nat) {
    JobsOk(source, r, n) && FileOk(source, r, n) && OffsetsOk(source, r, n) && PhaseOk(source, r)
  }

  /** The Acks are left alone. */
  predicate SameAcks(r: Receiver, q: Receiver) {
    q.acks == r.acks && q.lastAck == r.lastAck
  }

  lemma FailReceiverInv(source: seq<Byte>, r: Receiver, n: nat, code: ErrorCode)
    requires ReceiverInv(source, r, n) && code != InvalidCompletion
    ensures ReceiverInv(source, FailReceiver(r, code), n) && SameAcks(r, FailReceiver(r, code))
  {
  }

  /** A frame at the end of what was queued is accepted. */
  lemma AppendReceivedInv(source: seq<Byte>, r: Receiver, n: nat)
    requires ReceiverInv(source, r, n) && n * CHUNK < |source| && r.writeReady
    requires Fits(r, FrameAt(source, n))
    ensures ReceiverInv(source, AppendReceived(r, FrameAt(source, n)), n + 1)
    ensures SameAcks(r, AppendReceived(r, FrameAt(source, n)))
  {
  }

  lemma TryFinalizeInv(source: seq<Byte>, r: Receiver, n: nat)
    requires ReceiverInv(source, r, n)
    ensures ReceiverInv(source, TryFinalize(r), n) && SameAcks(r, TryFinalize(r))
  {
  }

  // ---------- acknowledgements ----------

  /** The Ack offsets between the two tasks, oldest first, behind the one the sender has. */
  function Chain(acked: nat, p: AckPath): (c: seq<nat>)
    ensures |c| >= 1 && c[0] == acked
  {
    [acked] + p.wire + (if p.waiting.Some? then [p.waiting.value] else [])
  }

  predicate Nondecreasing(c: seq<nat>) {
    forall i, j :: 0 <= i < j < |c| ==> c[i] <= c[j]
  }

  predicate ChainOk(total: nat, c: seq<nat>, last: nat) {
    Nondecreasing(c) && forall i :: 0 <= i < |c| ==> c[i] <= last && Aligned(total, c[i])
  }

  predicate AcksOk(total: nat, acked: nat, r: Receiver) {
    ChainOk(total, Chain(acked, r.acks), r.lastAck)
  }

  lemma ChainGrows(total: nat, c: seq<nat>, last: nat, offset: nat)
    requires ChainOk(total, c, last) && offset >= last && Aligned(total, offset)
    ensures ChainOk(total, c + [offset], offset) && ChainOk(total, c, offset)
    ensures |c| > 0 ==> ChainOk(total, c[..|c| - 1] + [offset], offset)
  {
  }

  /** However the control path takes an Ack that is not below the last one, the chain stays in order. */
  lemma PutAckKeepsOrder(total: nat, acked: nat, p: AckPath, last: nat, offset: nat, outcome: AckOutcome)
    requires ChainOk(total, Chain(acked, p), last) && offset >= last && Aligned(total, offset)
    ensures ChainOk(total, Chain(acked, PutAck(p, offset, outcome)), offset)
  {
    var c := Chain(acked, p);
    var d := Chain(acked, PutAck(p, offset, outcome));
    ChainGrows(total, c, last, offset);
    assert d == c || d == c + [offset] || d == c[..|c| - 1] + [offset];
  }

  lemma AcknowledgeInv(source: seq<Byte>, r: Receiver, n: nat, outcome: AckOutcome)
    requires ReceiverInv(source, r, n)
    ensures ReceiverInv(source, Acknowledge(r, outcome), n)
  {
    var q := Acknowledge(r, outcome);
    assert JobsOk(source, q, n) && FileOk(source, q, n) && PhaseOk(source, q);
  }

  lemma AcknowledgeKeepsOrder(total: nat, acked: nat, r: Receiver, outcome: AckOutcome)
    requires AcksOk(total, acked, r) && r.lastAck <= r.written && Aligned(total, r.written)
    ensures AcksOk(total, acked, Acknowledge(r, outcome))
  {
    PutAckKeepsOrder(total, acked, r.acks, r.lastAck, r.written, outcome);
  }

  /** The callback of a chunk that reached the file. */
  lemma WrittenInv(source: seq<Byte>, q: Receiver, n: nat, outcome: AckOutcome)
    requires ReceiverInv(source, q, n)
    ensures ReceiverInv(source, TryFinalize(Acknowledge(q, outcome)), n)
  {
    AcknowledgeInv(source, q, n, outcome);
    TryFinalizeInv(source, Acknowledge(q, outcome), n);
  }

  lemma ChunkWrittenKeepsOrder(total: nat, acked: nat, r: Receiver, size: nat, outcome: AckOutcome)
    requires AcksOk(total, acked, r) && r.lastAck <= r.written && Aligned(total, r.written + size)
    ensures AcksOk(total, acked, ChunkWritten(r, size, outcome))
  {
    var q := r.(written := r.written + size);
    AcknowledgeKeepsOrder(total, acked, q, outcome);
  }

  lemma NextChunk(source: seq<Byte>, k: nat)
    requires k * CHUNK < |source|
    ensures Pos(|source|, k + 1) == Pos(|source|, k) + |FrameAt(source, k).payload|
    ensures Aligned(|source|, Pos(|source|, k + 1))
  {
  }

  /** The oldest finished job's chunk counts as written. */
  function Counted(r: Receiver): Receiver
    requires r.done < |r.jobs| && r.jobs[r.done].Append?
  {
    r.(done := r.done + 1, written := r.written + |r.jobs[r.done].data|)
  }

  /** The oldest finished job was a chunk that reached the file. */
  lemma ChunkCounts(source: seq<Byte>, r: Receiver, n: nat)
    requires ReceiverInv(source, r, n) && Active(r.phase)
    requires r.done < |r.outcomes| && r.jobs[r.done].Append? && r.outcomes[r.done]
    ensures ReceiverInv(source, Counted(r), n)
  {
    var k := r.done;
    assert k < n && Min(k, n) == k && Min(k + 1, n) == k + 1;
    NextChunk(source, k);
    PosMonotone(|source|, k + 1, n);
    var t := Counted(r);
    assert JobsOk(source, t, n);
    assert FileOk(source, t, n);
    assert OffsetsOk(source, t, n);
  }

  lemma PosMonotone(total: nat, a: nat, b: nat)
    requires a <= b
    ensures Pos(total, a) <= Pos(total, b)
  {
  }

  /** The callback of a chunk that did not reach the file, or of a task that has ended. */
  lemma WriteFails(source: seq<Byte>, r: Receiver, n: nat)
    requires ReceiverInv(source, r, n)
    requires r.done < |r.outcomes| && r.jobs[r.done].Append? && !(Active(r.phase) && r.outcomes[r.done])
    ensures ReceiverInv(source, FailReceiver(r.(done := r.done + 1), WriteFailed), n)
  {
    var t := FailReceiver(r.(done := r.done + 1), WriteFailed);
    assert JobsOk(source, t, n);
    assert FileOk(source, t, n);
    assert OffsetsOk(source, t, n) && PhaseOk(source, t);
  }

  lemma ChunkDone(r: Receiver, outcome: AckOutcome)
    requires r.done < |r.outcomes| <= |r.jobs| && r.jobs[r.done].Append?
    ensures JobDone(r, outcome) == if Active(r.phase) && r.outcomes[r.done]
                                   then ChunkWritten(r.(done := r.done + 1), |r.jobs[r.done].data|, outcome)
                                   else FailReceiver(r.(done := r.done + 1), WriteFailed)
  {
  }

  lemma WrittenChunkDone(r: Receiver, outcome: AckOutcome)
    requires r.done < |r.outcomes| <= |r.jobs| && r.jobs[r.done].Append? && Active(r.phase) && r.outcomes[r.done]
    ensures JobDone(r, outcome) == TryFinalize(Acknowledge(Counted(r), outcome))
  {
    ChunkDone(r, outcome);
  }

  lemma WriteDoneInv(source: seq<Byte>, r: Receiver, n: nat, outcome: AckOutcome)
    requires ReceiverInv(source, r, n)
    requires r.done < |r.outcomes| && r.jobs[r.done].Append?
    ensures ReceiverInv(source, JobDone(r, outcome), n)
  {
    if Active(r.phase) && r.outcomes[r.done] {
      ChunkCounts(source, r, n);
      WrittenInv(source, Counted(r), n, outcome);
      WrittenChunkDone(r, outcome);
    } else {
      ChunkDone(r, outcome);
      WriteFails(source, r, n);
    }
  }

  /** The oldest finished job was no chunk. */
  lemma OtherJobCounts(source: seq<Byte>, r: Receiver, n: nat)
    requires ReceiverInv(source, r, n)
    requires r.done < |r.outcomes| && !r.jobs[r.done].Append?
    ensures ReceiverInv(source, r.(done := r.done + 1), n)
  {
    assert r.done >= n && Min(r.done, n) == Min(r.done + 1, n) == n;
  }

  lemma FinalizedInv(source: seq<Byte>, q: Receiver, n: nat, ok: bool)
    requires ReceiverInv(source, q, n) && (ok ==> q.file.published)
    ensures ReceiverInv(source, FinalizeDone(q, ok), n)
  {
    if !ok {
      FailReceiverInv(source, q, n, IntegrityCheckFailed);
    }
  }

  lemma OtherJobDone(r: Receiver, outcome: AckOutcome)
    requires r.done < |r.outcomes| <= |r.jobs| && !r.jobs[r.done].Append?
    ensures JobDone(r, outcome) == if r.jobs[r.done].Finalize?
                                   then FinalizeDone(r.(done := r.done + 1), r.outcomes[r.done])
                                   else r.(done := r.done + 1)
  {
  }

  lemma FinalizeDoneInv(source: seq<Byte>, r: Receiver, n: nat, outcome: AckOutcome)
    requires ReceiverInv(source, r, n)
    requires r.done < |r.outcomes| && !r.jobs[r.done].Append?
    ensures ReceiverInv(source, JobDone(r, outcome), n)
  {
    OtherJobDone(r, outcome);
    OtherJobCounts(source, r, n);
    if r.jobs[r.done].Finalize? {
      assert r.done == n;
      FinalizedInv(source, r.(done := r.done + 1), n, r.outcomes[r.done]);
    }
  }

  lemma OtherJobsKeepAcks(r: Receiver, outcome: AckOutcome)
    requires r.done < |r.outcomes| <= |r.jobs|
    requires !(r.jobs[r.done].Append? && r.outcomes[r.done] && Active(r.phase))
    ensures SameAcks(r, JobDone(r, outcome)) && JobDone(r, outcome).written == r.written
  {
  }

  lemma JobDoneKeepsOrder(source: seq<Byte>, acked: nat, r: Receiver, n: nat, outcome: AckOutcome)
    requires ReceiverInv(source, r, n) && AcksOk(|source|, acked, r) && r.done < |r.outcomes|
    ensures AcksOk(|source|, acked, JobDone(r, outcome))
  {
    if r.jobs[r.done].Append? && r.outcomes[r.done] && Active(r.phase) {
      ChunkDone(r, outcome);
      ChunkCounts(source, r, n);
      ChunkWrittenKeepsOrder(|source|, acked, r.(done := r.done + 1), |r.jobs[r.done].data|, outcome);
    } else {
      OtherJobsKeepAcks(r, outcome);
    }
  }

  /** Whatever the file system answers, the destination stays a prefix of the source. */
  lemma WorkerRunsInv(source: seq<Byte>, r: Receiver, n: nat, accepted: nat, systemOk: bool)
    requires ReceiverInv(source, r, n) && |r.outcomes| < |r.jobs|
    ensures ReceiverInv(source, WorkerRuns(r, accepted, systemOk), n)
    ensures SameAcks(r, WorkerRuns(r, accepted, systemOk))
  {
    var k := |r.outcomes|;
    var t := WorkerRuns(r, accepted, systemOk);
    if k < n {
      AppendRuns(source, r, n, accepted, systemOk);
    } else {
      assert Min(k, n) == Min(k + 1, n) == n;
      assert forall i :: 0 <= i < k ==> t.outcomes[i] == r.outcomes[i];
    }
  }

  lemma AppendRuns(source: seq<Byte>, r: Receiver, n: nat, accepted: nat, systemOk: bool)
    requires ReceiverInv(source, r, n) && |r.outcomes| < n
    ensures ReceiverInv(source, WorkerRuns(r, accepted, systemOk), n)
  {
    if r.file.failed || accepted < |r.jobs[|r.outcomes|].data| {
      AppendFails(source, r, n, accepted, systemOk);
    } else {
      AppendSucceeds(source, r, n, accepted, systemOk);
    }
  }

  /** A chunk's first bytes behind the chunks before it. */
  lemma PartOfChunk(source: seq<Byte>, k: nat, size: nat)
    requires k * CHUNK < |source| && size <= |FrameAt(source, k).payload|
    ensures source[..k * CHUNK] + FrameAt(source, k).payload[..size] == source[..k * CHUNK + size]
    ensures size == |FrameAt(source, k).payload| ==>
              source[..k * CHUNK] + FrameAt(source, k).payload == source[..k * CHUNK + size]
  {
  }

  lemma AppendFails(source: seq<Byte>, r: Receiver, n: nat, accepted: nat, systemOk: bool)
    requires ReceiverInv(source, r, n) && |r.outcomes| < n
    requires r.file.failed || accepted < |r.jobs[|r.outcomes|].data|
    ensures ReceiverInv(source, WorkerRuns(r, accepted, systemOk), n)
  {
    var k := |r.outcomes|;
    var t := WorkerRuns(r, accepted, systemOk);
    assert forall i :: 0 <= i < k ==> t.outcomes[i] == r.outcomes[i];
    if !r.file.failed {
      assert r.file.content == source[..k * CHUNK];
      PartOfChunk(source, k, accepted);
    }
    assert !t.outcomes[k];
  }

  lemma AppendSucceeds(source: seq<Byte>, r: Receiver, n: nat, accepted: nat, systemOk: bool)
    requires ReceiverInv(source, r, n) && |r.outcomes| < n
    requires !r.file.failed && accepted >= |r.jobs[|r.outcomes|].data|
    ensures ReceiverInv(source, WorkerRuns(r, accepted, systemOk), n)
  {
    var k := |r.outcomes|;
    var t := WorkerRuns(r, accepted, systemOk);
    assert forall i :: 0 <= i < k ==> t.outcomes[i] == r.outcomes[i];
    assert r.file.content == source[..k * CHUNK];
    NextChunk(source, k);
    PartOfChunk(source, k, |r.jobs[k].data|);
  }

  lemma WriteOpenedInv(source: seq<Byte>, acked: nat, r: Receiver, outcome: AckOutcome)
    requires ReceiverInv(source, r, 0) && AcksOk(|source|, acked, r)
    requires !r.writeReady && r.jobs == [] && r.lastAck == 0
    ensures ReceiverInv(source, WriteOpened(r, outcome), 0)
    ensures AcksOk(|source|, acked, WriteOpened(r, outcome))
  {
    if r.phase.Transferring? {
      var q := r.(writeHeld := true, writeReady := true);
      PutAckKeepsOrder(|source|, acked, r.acks, 0, 0, outcome);
      TryFinalizeInv(source, q.(acks := PutAck(r.acks, 0, outcome)), 0);
    }
  }

  lemma HandleCompletionInv(source: seq<Byte>, r: Receiver, n: nat)
    requires ReceiverInv(source, r, n)
    ensures ReceiverInv(source, HandleCompletion(r, Completion(|source|, Sha256(source))), n)
    ensures SameAcks(r, HandleCompletion(r, Completion(|source|, Sha256(source))))
  {
    TryFinalizeInv(source, r.(expected := Some(Sha256(source)), completionReceived := true), n);
  }

  // ---------- what the handlers keep, for every source ----------

  ghost predicate SenderKept(s: Sender, t: Sender) {
    forall source :: SenderInv(source, s) ==> SenderInv(source, t) && Extends(s, t)
  }

  lemma PumpKeeps(s: Sender, io: Io)
    ensures SenderKept(s, Pump(s, io)) && SenderKept(s, SendPending(s, io))
  {
    forall source | SenderInv(source, s)
      ensures SenderInv(source, Pump(s, io)) && Extends(s, Pump(s, io))
      ensures SenderInv(source, SendPending(s, io)) && Extends(s, SendPending(s, io))
    {
      PumpInv(source, s, io);
      SendPendingInv(source, s, io);
    }
  }

  /** The read returned what the source holds at the offset. */
  ghost predicate ReadKept(s: Sender, data: seq<Byte>, complete: bool, t: Sender)
    requires s.reading.Some?
  {
    forall source :: SenderInv(source, s) && (data, complete) == ReadChunk(source, s.reading.value) ==>
      SenderInv(source, t) && Extends(s, t)
  }

  lemma ReadDoneKeeps(s: Sender, ok: bool, data: seq<Byte>, complete: bool, io: Io)
    requires s.reading.Some?
    ensures ReadKept(s, data, complete, ReadDone(s, ok, data, complete, io))
  {
    forall source | SenderInv(source, s) && (data, complete) == ReadChunk(source, s.reading.value)
      ensures var t := ReadDone(s, ok, data, complete, io); SenderInv(source, t) && Extends(s, t)
    {
      ReadDoneInv(source, s, ok, io);
    }
  }

  /** The Ack is one the receiver can have sent. */
  ghost predicate AckKept(s: Sender, offset: nat, t: Sender) {
    forall source :: SenderInv(source, s) && s.acked <= offset <= s.sent && Aligned(|source|, offset) ==>
      SenderInv(source, t) && Extends(s.(acked := offset), t)
  }

  lemma HandleAckKeeps(s: Sender, offset: nat, io: Io)
    ensures AckKept(s, offset, HandleAck(s, offset, io))
  {
    forall source | SenderInv(source, s) && s.acked <= offset <= s.sent && Aligned(|source|, offset)
      ensures var t := HandleAck(s, offset, io); SenderInv(source, t) && Extends(s.(acked := offset), t)
    {
      HandleAckInv(source, s, offset, io);
    }
  }

  /** The next frame of the source is queued, or refused and the task fails. */
  ghost predicate FrameKept(r: Receiver, f: Frame, q: Receiver) {
    forall source, n: nat :: ReceiverInv(source, r, n) && n * CHUNK < |source| && f == FrameAt(source, n) ==>
      ReceiverInv(source, q, if Fits(r, f) then n + 1 else n) && SameAcks(r, q)
  }

  lemma AppendReceivedKeeps(r: Receiver, f: Frame)
    ensures FrameKept(r, f, AppendReceived(r, f))
  {
    forall source, n: nat | ReceiverInv(source, r, n) && n * CHUNK < |source| && f == FrameAt(source, n)
      ensures var q := AppendReceived(r, f);
              ReceiverInv(source, q, if Fits(r, f) then n + 1 else n) && SameAcks(r, q)
    {
      if Fits(r, f) {
        AppendReceivedInv(source, r, n);
      } else {
        FailReceiverInv(source, r, n, InvalidOffset);
      }
    }
  }

  ghost predicate ReceiverKept(r: Receiver, q: Receiver) {
    forall source, n: nat :: ReceiverInv(source, r, n) ==> ReceiverInv(source, q, n)
  }

  lemma JobDoneKeeps(r: Receiver, outcome: AckOutcome)
    requires r.done < |r.outcomes| <= |r.jobs|
    ensures ReceiverKept(r, JobDone(r, outcome))
  {
    forall source, n: nat | ReceiverInv(source, r, n) ensures ReceiverInv(source, JobDone(r, outcome), n) {
      if r.jobs[r.done].Append? {
        WriteDoneInv(source, r, n, outcome);
      } else {
        FinalizeDoneInv(source, r, n, outcome);
      }
    }
  }
}
