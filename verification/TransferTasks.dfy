/** The sending and the receiving task as objects whose fields the handlers update, each handler
    proved to compute the function of FileTransfer it models. */
module TransferTasks {
  import opened Wrappers
  import opened FileTransfer
  import opened TransferWindow

  class SendingTask {
    var phase: Phase
    var open: bool
    var total: nat
    var readPending: bool
    var reading: Option<nat>
    var pending: seq<Byte>
    var pendingOffset: nat
    var pendingComplete: bool
    var sent: nat
    var acked: nat
    var hashed: seq<Byte>
    var completionSent: bool
    var frames: seq<Frame>
    var completions: seq<Completion>

    function View(): Sender
      reads this
    {
      Sender(phase, open, total, readPending, reading, pending, pendingOffset, pendingComplete, sent, acked,
             hashed, completionSent, frames, completions)
    }

    constructor (size: nat)
      ensures View() == NewSender(size)
    {
      phase, open, total, readPending, reading := Transferring, true, size, false, None;
      pending, pendingOffset, pendingComplete, sent, acked := [], 0, false, 0, 0;
      hashed, completionSent, frames, completions := [], false, [], [];
    }

    method Fail(code: ErrorCode)
      modifies this
      ensures View() == FailSender(old(View()), code)
    {
      if Active(phase) {
        phase := Failed(code);
        open := false;
      }
    }

    method SendFileComplete(io: Io)
      modifies this
      ensures View() == SendComplete(old(View()), io)
    {
      if completionSent {
        return;
      }
      if !io.controlAccepted {
        Fail(CompleteSendFailed);
        return;
      }
      completions := completions + [Completion(total, Sha256(hashed))];
      completionSent := true;
    }

    method PumpSender(io: Io)
      modifies this
      ensures View() == Pump(old(View()), io) && SenderKept(old(View()), View())
      decreases if View().HasPending() then 2 else 0
    {
      PumpKeeps(View(), io);
      if !phase.Transferring? || readPending || completionSent || io.reconnecting
         || io.backpressured || sent - acked >= WINDOW || !open {
        return;
      }
      if pending != [] || pendingComplete {
        SendPendingSourceRead(io);
        return;
      }
      readPending := true;
      reading := Some(sent);
    }

    method CountSentFrame()
      modifies this
      ensures View() == FrameSent(old(View()))
    {
      frames := frames + [Frame(pendingOffset, pending, pendingComplete)];
      hashed := hashed + pending;
      sent := sent + |pending|;
    }

    method SendPendingSourceRead(io: Io)
      modifies this
      ensures View() == SendPending(old(View()), io) && SenderKept(old(View()), View())
      decreases 1
    {
      PumpKeeps(View(), io);
      if !open || (pending == [] && !pendingComplete) || io.reconnecting || !io.channelReady {
        return;
      }
      if pendingOffset != sent {
        Fail(InvalidSourceOffset);
        return;
      }
      if pending != [] {
        if !io.dataAccepted {
          if !io.backpressuredAfter {
            Fail(DataSendFailed);
          }
          return;
        }
        CountSentFrame();
      }
      var complete := pendingComplete;
      pending := [];
      pendingComplete := false;
      pendingOffset := 0;
      if complete {
        SendFileComplete(io);
      } else {
        PumpSender(io.(backpressured := io.backpressuredAfter));
      }
    }

    method OnReadDone(ok: bool, data: seq<Byte>, complete: bool, io: Io)
      requires reading.Some?
      modifies this
      ensures View() == ReadDone(old(View()), ok, data, complete, io)
      ensures ReadKept(old(View()), data, complete, View())
    {
      ReadDoneKeeps(View(), ok, data, complete, io);
      TakeRead(ok, data, complete, io);
    }

    method TakeRead(ok: bool, data: seq<Byte>, complete: bool, io: Io)
      requires reading.Some?
      modifies this
      ensures View() == ReadDone(old(View()), ok, data, complete, io)
    {
      var offset := reading.value;
      reading := None;
      if !Active(phase) {
        return;
      }
      readPending := false;
      if !ok {
        if !io.reconnecting {
          Fail(SourceChanged);
        }
        return;
      }
      pending := data;
      pendingOffset := offset;
      pendingComplete := complete;
      assert View() == old(View()).(reading := None, readPending := false, pending := data, pendingOffset := offset,
                                    pendingComplete := complete);
      if !io.reconnecting {
        SendPendingSourceRead(io);
      }
    }

    method OnAck(offset: nat, io: Io)
      modifies this
      ensures View() == HandleAck(old(View()), offset, io) && AckKept(old(View()), offset, View())
    {
      HandleAckKeeps(View(), offset, io);
      if offset < acked || offset > sent {
        Fail(InvalidAck);
        return;
      }
      acked := offset;
      PumpSender(io);
    }

    method Pause()
      modifies this
      ensures View() == PauseSender(old(View()))
    {
      if phase.Transferring? {
        phase := Paused;
      }
    }

    method Resume(io: Io)
      modifies this
      ensures View() == ResumeSender(old(View()), io)
    {
      if phase.Paused? {
        phase := Transferring;
        PumpSender(io);
      }
    }

    method Finish()
      modifies this
      ensures View() == FinishSender(old(View()))
    {
      if Active(phase) {
        phase := Finished;
        open := false;
      }
    }
  }

  class ReceivingTask {
    var phase: Phase
    var total: nat
    var writeReady: bool
    var writeHeld: bool
    var queued: nat
    var written: nat
    var lastAck: nat
    var completionReceived: bool
    var expected: Option<Digest>
    var finalizing: bool
    var jobs: seq<Job>
    var outcomes: seq<bool>
    var done: nat
    var file: WriteFile
    var acks: AckPath

    function View(): Receiver
      reads this
    {
      Receiver(phase, total, writeReady, writeHeld, queued, written, lastAck, completionReceived, expected,
               finalizing, jobs, outcomes, done, file, acks)
    }

    constructor (size: nat)
      ensures View() == NewReceiver(size)
    {
      phase, total, writeReady, writeHeld, queued, written := Transferring, size, false, false, 0, 0;
      lastAck, completionReceived, expected, finalizing, jobs := 0, false, None, false, [];
      outcomes, done, file, acks := [], 0, WriteFile([], false, true, false), AckPath([], None);
    }

    method Fail(code: ErrorCode)
      modifies this
      ensures View() == FailReceiver(old(View()), code)
    {
      if !Active(phase) {
        return;
      }
      phase := Failed(code);
      if writeHeld {
        writeHeld := false;
        writeReady := false;
        jobs := jobs + [Abort];
      }
    }

    method AppendReceivedData(f: Frame)
      modifies this
      ensures View() == AppendReceived(old(View()), f) && FrameKept(old(View()), f, View())
    {
      AppendReceivedKeeps(View(), f);
      if !writeReady || f.offset != queued || queued < written || |f.payload| > WINDOW
         || queued - written > WINDOW - |f.payload| || f.offset + |f.payload| > total {
        Fail(InvalidOffset);
        return;
      }
      queued := queued + |f.payload|;
      jobs := jobs + [Append(f.payload)];
    }

    method TryFinalizeReceiver()
      modifies this
      ensures View() == TryFinalize(old(View()))
    {
      if !writeReady || !completionReceived || finalizing || written != total || expected.None? {
        return;
      }
      finalizing := true;
      jobs := jobs + [Finalize(expected.value)];
    }

    method SendAcknowledgement(offset: nat, outcome: AckOutcome) returns (ok: bool)
      modifies this`acks
      ensures View() == old(View()).(acks := PutAck(old(acks), offset, outcome))
      ensures ok == !outcome.Refused?
    {
      ok := !outcome.Refused?;
      acks := PutAck(acks, offset, outcome);
    }

    method OnWriteOpened(outcome: AckOutcome)
      modifies this
      ensures View() == WriteOpened(old(View()), outcome)
    {
      if !phase.Transferring? {
        jobs := jobs + [Abort];
        return;
      }
      writeHeld := true;
      writeReady := true;
      var sent := SendAcknowledgement(0, outcome);
      TryFinalizeReceiver();
    }

    method OnWriteNotOpened()
      modifies this
      ensures View() == WriteNotOpened(old(View()))
    {
      if phase.Transferring? {
        Fail(DestinationOpenFailed);
      }
    }

    /** One job on the worker thread. */
    method RunNextJob(accepted: nat, systemOk: bool)
      requires |outcomes| < |jobs|
      modifies this`file, this`outcomes
      ensures View() == WorkerRuns(old(View()), accepted, systemOk)
    {
      var (w, ok) := RunJob(file, jobs[|outcomes|], total, accepted, systemOk);
      file := w;
      outcomes := outcomes + [ok];
    }

    method AcknowledgeWritten(outcome: AckOutcome)
      modifies this`acks, this`lastAck
      ensures View() == Acknowledge(old(View()), outcome)
    {
      if written - lastAck >= ACK_INTERVAL || written == total {
        var sent := SendAcknowledgement(written, outcome);
        if sent {
          lastAck := written;
        }
      }
    }

    method OnChunkWritten(size: nat, ok: bool, outcome: AckOutcome)
      modifies this
      ensures View() == WriteDone(old(View()), size, ok, outcome)
    {
      if !Active(phase) {
        return;
      }
      if !ok {
        Fail(WriteFailed);
        return;
      }
      written := written + size;
      AcknowledgeWritten(outcome);
      TryFinalizeReceiver();
    }

    method OnFinalized(ok: bool)
      modifies this
      ensures View() == FinalizeDone(old(View()), ok)
    {
      if !finalizing || !Active(phase) {
        return;
      }
      if !ok {
        Fail(IntegrityCheckFailed);
        return;
      }
      phase := Finished;
      writeHeld := false;
      writeReady := false;
    }

    method OnJobDone(outcome: AckOutcome)
      requires done < |outcomes| <= |jobs|
      modifies this
      ensures View() == JobDone(old(View()), outcome) && ReceiverKept(old(View()), View())
    {
      JobDoneKeeps(View(), outcome);
      TakeJobDone(outcome);
    }

    method TakeJobDone(outcome: AckOutcome)
      requires done < |outcomes| <= |jobs|
      modifies this
      ensures View() == JobDone(old(View()), outcome)
    {
      var k := done;
      done := done + 1;
      match jobs[k]
      case Append(data) => OnChunkWritten(|data|, outcomes[k], outcome);
      case Finalize(_) => OnFinalized(outcomes[k]);
      case Abort =>
    }

    method OnFileComplete(m: Completion)
      modifies this
      ensures View() == HandleCompletion(old(View()), m)
    {
      if m.size != total {
        Fail(InvalidCompletion);
        return;
      }
      expected := Some(m.digest);
      completionReceived := true;
      TryFinalizeReceiver();
    }
  }
}
