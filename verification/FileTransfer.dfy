/** One attempt to send one file: what the handlers of the sending and of the receiving
    task compute, as functions on the task's state, and the tasks themselves. The frames handed
    to the data channel and the jobs queued on the file worker are kept as histories; a channel
    or a worker queue is the part of its history behind a cursor. */
module FileTransfer {
  import opened Wrappers

  type Byte = bv8

  const CHUNK: nat := 32 * 1024
  const ACK_INTERVAL: nat := 256 * 1024
  const WINDOW: nat := 1024 * 1024

  /** The digest as a free constructor: equal contents have equal digests, and collisions are
      excluded. */
  datatype Digest = Sha256(content: seq<Byte>)

  datatype ErrorCode =
    | InvalidOffset | InvalidAck | InvalidSourceOffset | InvalidCompletion | SourceChanged
    | DataSendFailed | CompleteSendFailed | DestinationOpenFailed | WriteFailed | IntegrityCheckFailed | RemoteError

  datatype Phase = Transferring | Paused | Finished | Failed(code: ErrorCode)

  predicate Active(p: Phase) { p.Transferring? || p.Paused? }

  datatype Frame = Frame(offset: nat, payload: seq<Byte>, last: bool)

  datatype Completion = Completion(size: nat, digest: Digest)

  /** What the session answers while one event is handled. */
  datatype Io = Io(
    reconnecting: bool, channelReady: bool, backpressured: bool, dataAccepted: bool,
    backpressuredAfter: bool, controlAccepted: bool)

  // ---------- the source ----------

  /** `readSourceChunk` on a source of unchanged size: the next 32 KiB or the rest, and whether
      the read reached the end. */
  function ReadChunk(source: seq<Byte>, offset: nat): (r: (seq<Byte>, bool))
    requires offset <= |source|
    ensures |r.0| <= CHUNK
    ensures r.1 <==> offset + |r.0| == |source|
    ensures !r.1 ==> |r.0| == CHUNK
  {
    var end := if offset + CHUNK <= |source| then offset + CHUNK else |source|;
    (source[offset..end], end == |source|)
  }

  // ---------- the sender ----------

  datatype Sender = Sender(
    phase: Phase,
    open: bool,                    // the source snapshot is held
    total: nat,
    readPending: bool,
    reading: Option<nat>,          // the offset of the read job on the worker
    pending: seq<Byte>,
    pendingOffset: nat,
    pendingComplete: bool,
    sent: nat,
    acked: nat,
    hashed: seq<Byte>,
    completionSent: bool,
    frames: seq<Frame>,            // every frame the data channel accepted
    completions: seq<Completion>)  // every FileComplete the control path accepted
  {
    predicate HasPending() { pending != [] || pendingComplete }

    /** The guard of `pumpSender` that compares the unacknowledged bytes with the window. */
    predicate Blocked() { sent - acked >= WINDOW }
  }

  function NewSender(total: nat): Sender {
    Sender(Transferring, true, total, false, None, [], 0, false, 0, 0, [], false, [], [])
  }

  function FailSender(s: Sender, code: ErrorCode): Sender {
    if Active(s.phase) then s.(phase := Failed(code), open := false) else s
  }

  function SendComplete(s: Sender, io: Io): Sender {
    if s.completionSent then s
    else if !io.controlAccepted then FailSender(s, CompleteSendFailed)
    else s.(completions := s.completions + [Completion(s.total, Sha256(s.hashed))], completionSent := true)
  }

  /** The data channel took the pending chunk. */
  function FrameSent(s: Sender): Sender {
    s.(frames := s.frames + [Frame(s.pendingOffset, s.pending, s.pendingComplete)],
       hashed := s.hashed + s.pending,
       sent := s.sent + |s.pending|)
  }

  function ClearPending(s: Sender): Sender {
    s.(pending := [], pendingComplete := false, pendingOffset := 0)
  }

  /** The effect of `pumpSender` when no chunk is pending. */
  predicate MayPump(s: Sender, io: Io) {
    && s.phase.Transferring? && !s.readPending && !s.completionSent && !io.reconnecting
    && !io.backpressured && !s.Blocked() && s.open
  }

  function RequestRead(s: Sender, io: Io): Sender {
    if MayPump(s, io) then s.(readPending := true, reading := Some(s.sent)) else s
  }

  /** Behind the send of `sendPendingSourceRead`. */
  function AfterSend(s: Sender, io: Io): Sender {
    if s.pendingComplete then SendComplete(ClearPending(s), io)
    else RequestRead(ClearPending(s), io.(backpressured := io.backpressuredAfter))
  }

  function SendPending(s: Sender, io: Io): Sender {
    if !s.open || !s.HasPending() || io.reconnecting || !io.channelReady then s
    else if s.pendingOffset != s.sent then FailSender(s, InvalidSourceOffset)
    else if s.pending == [] then AfterSend(s, io)
    else if !io.dataAccepted then
      if io.backpressuredAfter then s else FailSender(s, DataSendFailed)
    else AfterSend(FrameSent(s), io)
  }

  function Pump(s: Sender, io: Io): Sender {
    if !MayPump(s, io) then s
    else if s.HasPending() then SendPending(s, io)
    else RequestRead(s, io)
  }

  /** The callback of a read job; `data` and `complete` are what the job returned. */
  function ReadDone(s: Sender, ok: bool, data: seq<Byte>, complete: bool, io: Io): Sender
    requires s.reading.Some?
  {
    var g := s.(reading := None);
    if !Active(s.phase) then g
    else if !ok then
      if io.reconnecting then g.(readPending := false)
      else FailSender(g.(readPending := false), SourceChanged)
    else
      var h := g.(readPending := false, pending := data, pendingOffset := s.reading.value,
                  pendingComplete := complete);
      if io.reconnecting then h else SendPending(h, io)
  }

  function HandleAck(s: Sender, offset: nat, io: Io): Sender {
    if offset < s.acked || offset > s.sent then FailSender(s, InvalidAck)
    else Pump(s.(acked := offset), io)
  }

  function PauseSender(s: Sender): Sender {
    if s.phase.Transferring? then s.(phase := Paused) else s
  }

  function ResumeSender(s: Sender, io: Io): Sender {
    if s.phase.Paused? then Pump(s.(phase := Transferring), io) else s
  }

  function FinishSender(s: Sender): Sender {
    if Active(s.phase) then s.(phase := Finished, open := false) else s
  }

  // ---------- the receiver ----------

  datatype Job = Append(data: seq<Byte>) | Finalize(digest: Digest) | Abort

  /** The write session of the file-system adapter. */
  datatype WriteFile = WriteFile(content: seq<Byte>, failed: bool, open: bool, published: bool)

  /** One worker job on the write session; `accepted` bytes are written before the system refuses. */
  function RunJob(w: WriteFile, job: Job, total: nat, accepted: nat, systemOk: bool): (WriteFile, bool) {
    match job
    case Append(data) =>
      if !w.open || w.failed || |w.content| + |data| > total then (w, false)
      else if accepted < |data| then (w.(content := w.content + data[..accepted], failed := true), false)
      else (w.(content := w.content + data), true)
    case Finalize(digest) =>
      var ok := w.open && !w.failed && |w.content| == total && Sha256(w.content) == digest && systemOk;
      (w.(open := false, published := w.published || ok), ok)
    case Abort =>
      (w.(open := false), true)
  }

  /** How the control path takes an Ack: written to the channel, queued, or refused; when one of
      the task is already waiting, merged into it or dropped in its favour. */
  datatype AckOutcome = Direct | Queued | Refused | Merged | KeptOld

  /** The task's Acks on their way: those on the control channel, and the one in the control queue. */
  datatype AckPath = AckPath(wire: seq<nat>, waiting: Option<nat>)

  function PutAck(p: AckPath, offset: nat, outcome: AckOutcome): AckPath {
    if outcome.Refused? then p
    else if p.waiting.Some? then
      if outcome.KeptOld? || offset <= p.waiting.value then p else p.(waiting := Some(offset))
    else if outcome.Direct? then p.(wire := p.wire + [offset])
    else p.(waiting := Some(offset))
  }

  /** `flushControlQueue` hands the waiting Ack to the channel. */
  function FlushAck(p: AckPath): AckPath {
    if p.waiting.Some? then AckPath(p.wire + [p.waiting.value], None) else p
  }

  datatype Receiver = Receiver(
    phase: Phase,
    total: nat,
    writeReady: bool,
    writeHeld: bool,         // strWriteId is not empty
    queued: nat,
    written: nat,
    lastAck: nat,
    completionReceived: bool,
    expected: Option<Digest>,
    finalizing: bool,
    jobs: seq<Job>,          // every job queued on the worker
    outcomes: seq<bool>,     // the results of the jobs that have run
    done: nat,               // the jobs whose callback has run
    file: WriteFile,
    acks: AckPath)

  function NewReceiver(total: nat): Receiver {
    Receiver(Transferring, total, false, false, 0, 0, 0, false, None, false, [], [], 0,
             WriteFile([], false, true, false), AckPath([], None))
  }

  function FailReceiver(r: Receiver, code: ErrorCode): Receiver {
    if !Active(r.phase) then r
    else if r.writeHeld then
      r.(phase := Failed(code), writeHeld := false, writeReady := false, jobs := r.jobs + [Abort])
    else r.(phase := Failed(code))
  }

  predicate Fits(r: Receiver, f: Frame) {
    && r.writeReady
    && f.offset == r.queued
    && r.written <= r.queued
    && |f.payload| <= WINDOW
    && r.queued - r.written <= WINDOW - |f.payload|
    && f.offset + |f.payload| <= r.total
  }

  function AppendReceived(r: Receiver, f: Frame): Receiver {
    if !Fits(r, f) then FailReceiver(r, InvalidOffset)
    else r.(queued := r.queued + |f.payload|, jobs := r.jobs + [Append(f.payload)])
  }

  predicate MayFinalize(r: Receiver) {
    r.writeReady && r.completionReceived && !r.finalizing && r.written == r.total
  }

  function TryFinalize(r: Receiver): Receiver {
    if !MayFinalize(r) || r.expected.None? then r
    else r.(finalizing := true, jobs := r.jobs + [Finalize(r.expected.value)])
  }

  predicate AckDue(r: Receiver) {
    r.written - r.lastAck >= ACK_INTERVAL || r.written == r.total
  }

  function Acknowledge(r: Receiver, outcome: AckOutcome): Receiver {
    if !AckDue(r) then r
    else r.(acks := PutAck(r.acks, r.written, outcome),
            lastAck := if outcome.Refused? then r.lastAck else r.written)
  }

  /** The callback of `beginWrite`, which succeeded: a task that is no longer transferring gives
      the new write session up. */
  function WriteOpened(r: Receiver, outcome: AckOutcome): Receiver {
    if !r.phase.Transferring? then r.(jobs := r.jobs + [Abort])
    else TryFinalize(r.(writeHeld := true, writeReady := true, acks := PutAck(r.acks, 0, outcome)))
  }

  /** The callback of `beginWrite`, which failed. */
  function WriteNotOpened(r: Receiver): Receiver {
    if !r.phase.Transferring? then r else FailReceiver(r, DestinationOpenFailed)
  }

  /** The next job of the worker runs. */
  function WorkerRuns(r: Receiver, accepted: nat, systemOk: bool): Receiver
    requires |r.outcomes| < |r.jobs|
  {
    var (w, ok) := RunJob(r.file, r.jobs[|r.outcomes|], r.total, accepted, systemOk);
    r.(file := w, outcomes := r.outcomes + [ok])
  }

  function ChunkWritten(r: Receiver, size: nat, outcome: AckOutcome): Receiver {
    TryFinalize(Acknowledge(r.(written := r.written + size), outcome))
  }

  function WriteDone(r: Receiver, size: nat, ok: bool, outcome: AckOutcome): Receiver {
    if !Active(r.phase) then r
    else if !ok then FailReceiver(r, WriteFailed)
    else ChunkWritten(r, size, outcome)
  }

  function FinalizeDone(r: Receiver, ok: bool): Receiver {
    if !r.finalizing || !Active(r.phase) then r
    else if !ok then FailReceiver(r, IntegrityCheckFailed)
    else r.(phase := Finished, writeHeld := false, writeReady := false)
  }

  /** The callback of the oldest job that has run. */
  function JobDone(r: Receiver, outcome: AckOutcome): Receiver
    requires r.done < |r.outcomes| <= |r.jobs|
  {
    var q := r.(done := r.done + 1);
    match r.jobs[r.done]
    case Append(data) => WriteDone(q, |data|, r.outcomes[r.done], outcome)
    case Finalize(_) => FinalizeDone(q, r.outcomes[r.done])
    case Abort => q
  }

  function HandleCompletion(r: Receiver, m: Completion): Receiver {
    if m.size != r.total then FailReceiver(r, InvalidCompletion)
    else TryFinalize(r.(expected := Some(m.digest), completionReceived := true))
  }

  function PauseReceiver(r: Receiver): Receiver {
    if r.phase.Transferring? then r.(phase := Paused) else r
  }

  function ResumeReceiver(r: Receiver): Receiver {
    if r.phase.Paused? then r.(phase := Transferring) else r
  }
}
