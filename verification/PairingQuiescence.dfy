/** Runs of a faultless pairing over two FIFO channels: every move is progress, a run has at most
    ten moves, and a session in which nothing can move has completed on both sides. */
module PairingQuiescence {
  import opened PairingTypes
  import opened TrustedDevices
  import opened PairingTransactions
  import opened AuthenticationFlow
  import opened PairingProgress

  /** The channel to a side is what the other has sent behind what the side has taken. */
  datatype Session = Session(c: Flow, d: Flow, toC: nat, toD: nat)

  datatype Move =
    | ToController(io: Io)
    | ToControlled(io: Io)
    | ControllerAccepts(granted: Scopes, io: Io)
    | ControlledAccepts(granted: Scopes, io: Io)

  predicate Enabled(s: Session, m: Move) {
    && NoFault(m.io)
    && match m
       case ToController(_) => s.toC < |Sends(s.d)|
       case ToControlled(_) => s.toD < |Sends(s.c)|
       case ControllerAccepts(_, _) => s.c.promptVisible
       case ControlledAccepts(granted, _) => s.d.promptVisible && ViewScreen in granted
  }

  function Next(s: Session, m: Move): Session
    requires Enabled(s, m)
  {
    match m
    case ToController(io) =>
      s.(c := HandleMessage(s.c, Sends(s.d)[s.toC], s.c.generation, io), toC := s.toC + 1)
    case ToControlled(io) =>
      s.(d := HandleMessage(s.d, Sends(s.c)[s.toD], s.d.generation, io), toD := s.toD + 1)
    case ControllerAccepts(granted, io) => s.(c := RespondPairing(s.c, s.c.requestId, true, granted, io))
    case ControlledAccepts(granted, io) => s.(d := RespondPairing(s.d, s.d.requestId, true, granted, io))
  }

  predicate Side(f: Flow, r: nat) {
    if r == 4 then Done(f) else Settled(f, |Sends(f)|, r)
  }

  /** What each side knows of the other's decision. */
  predicate Told(s: Session) {
    && (s.toC >= 2 ==> s.c.Tx().remotePermissions == s.d.Tx().localPermissions)
    && (s.toD >= 2 ==> s.d.Tx().remotePermissions == s.c.Tx().localPermissions)
    && (s.toD >= 1 ==> s.d.requestId == s.c.requestId && s.d.requested == s.c.requested)
  }

  predicate Paired(s: Session) {
    s.c.outgoing && !s.d.outgoing && s.c.peer.deviceId == s.d.localId && s.d.peer.deviceId == s.c.localId
  }

  predicate Inv(s: Session) {
    && Paired(s) && Told(s)
    && s.toC <= |Sends(s.d)| <= 4 && s.toD <= |Sends(s.c)| <= 4
    && Side(s.c, s.toC)
    && (if s.toD == 0 then Waiting(s.d) else Side(s.d, s.toD))
    && (s.toC == 0 ==> Welcomes(s.c, s.c.requestId))
    && (s.toD == 0 ==> Welcomes(s.d, s.c.requestId) && Unsent(s.d, s.c.requestId))
  }

  // ---------- every move is progress ----------

  /** The deliveries and answers that are still possible. */
  function Left(s: Session): int {
    8 - s.toC - s.toD + (if |Sends(s.c)| < 2 then 1 else 0) + (if |Sends(s.d)| < 2 then 1 else 0)
  }

  /** Side p has sent f a Decision, Ready or Committed, which f has not taken yet. */
  predicate Owes(p: Flow, f: Flow, r: nat, rp: nat) {
    && 1 <= r <= 3 && r < |Sends(p)| && rp <= |Sends(f)| && 1 <= rp
    && Side(f, r) && Side(p, rp)
    && f.peer.deviceId == p.localId && p.requestId == f.requestId && f.outgoing == !p.outgoing
    && (r >= 2 ==> f.Tx().remotePermissions == p.Tx().localPermissions)
    && (rp >= 2 ==> p.Tx().remotePermissions == f.Tx().localPermissions)
  }

  /** f after it has taken the message. */
  predicate Heard(p: Flow, f: Flow, g: Flow, r: nat) {
    && Side(g, r + 1) && |Sends(f)| <= |Sends(g)| <= 4
    && g.Tx().remotePermissions == p.Tx().localPermissions
    && g.Tx().localPermissions == f.Tx().localPermissions
    && SameEnd(f, g) && g.requestId == f.requestId && g.requested == f.requested
  }

  lemma HearsDecision(p: Flow, f: Flow, rp: nat, io: Io)
    requires Owes(p, f, 1, rp) && NoFault(io)
    ensures Heard(p, f, HandleMessage(f, Sends(p)[1], f.generation, io), 1)
  {
    assert !p.outgoing ==> ViewScreen in p.Tx().localPermissions by { SenderDecided(p, rp); }
    DecisionProgress(f, Sends(p)[1], io, |Sends(f)|);
  }

  lemma SenderDecided(p: Flow, rp: nat)
    requires rp <= 3 && Side(p, rp) && |Sends(p)| >= 2
    ensures !p.outgoing ==> ViewScreen in p.Tx().localPermissions
    ensures Sends(p)[1] == Decision(p.requestId, p.localId, true, p.Tx().localPermissions)
  {
  }

  /** Ready and Committed carry the controlled side's decision. */
  lemma SenderAgrees(p: Flow, f: Flow, r: nat, rp: nat)
    requires Owes(p, f, r, rp) && r >= 2
    ensures p.effective == f.Effective() && |Sends(f)| >= 3 && f.effective == f.Effective()
    ensures Sends(p)[2] == Ready(p.requestId, p.localId, p.effective)
    ensures r == 3 ==> Sends(p)[3] == Committed(p.requestId, p.localId, p.effective) && |Sends(f)| == 4
  {
  }

  lemma HearsReady(p: Flow, f: Flow, rp: nat, io: Io)
    requires Owes(p, f, 2, rp) && NoFault(io)
    ensures Heard(p, f, HandleMessage(f, Sends(p)[2], f.generation, io), 2)
  {
    SenderAgrees(p, f, 2, rp);
    ReadyMessageProgress(f, Sends(p)[2], io);
  }

  lemma HearsCommitted(p: Flow, f: Flow, rp: nat, io: Io)
    requires Owes(p, f, 3, rp) && NoFault(io)
    ensures Heard(p, f, HandleMessage(f, Sends(p)[3], f.generation, io), 3)
  {
    SenderAgrees(p, f, 3, rp);
    CommittedMessageProgress(f, Sends(p)[3], io);
  }

  lemma Hears(p: Flow, f: Flow, r: nat, rp: nat, io: Io)
    requires Owes(p, f, r, rp) && NoFault(io)
    ensures Heard(p, f, HandleMessage(f, Sends(p)[r], f.generation, io), r)
  {
    if r == 1 {
      HearsDecision(p, f, rp, io);
    } else if r == 2 {
      HearsReady(p, f, rp, io);
    } else {
      HearsCommitted(p, f, rp, io);
    }
  }

  lemma FirstHello(s: Session, m: Move)
    requires Inv(s) && Enabled(s, m)
    requires (m.ToController? && s.toC == 0) || (m.ToControlled? && s.toD == 0)
    ensures Inv(Next(s, m)) && Left(Next(s, m)) < Left(s)
  {
    match m
    case ToController(io) => ControllerHello(s.c, Sends(s.d)[0], io);
    case ToControlled(io) => ControlledHello(s.d, Sends(s.c)[0], io);
  }

  lemma AnswerInv(s: Session, m: Move)
    requires Inv(s) && Enabled(s, m) && (m.ControllerAccepts? || m.ControlledAccepts?)
    ensures Inv(Next(s, m)) && Left(Next(s, m)) < Left(s)
  {
    match m
    case ControllerAccepts(granted, io) => RespondProgress(s.c, granted, io, s.toC);
    case ControlledAccepts(granted, io) => RespondProgress(s.d, granted, io, s.toD);
  }

  lemma ControllerOwed(s: Session)
    requires Inv(s) && 0 < s.toC < |Sends(s.d)|
    ensures Owes(s.d, s.c, s.toC, s.toD)
  {
  }

  lemma ControllerHears(s: Session, io: Io)
    requires Inv(s) && Enabled(s, ToController(io)) && s.toC > 0
    ensures Inv(Next(s, ToController(io))) && Left(Next(s, ToController(io))) < Left(s)
  {
    ControllerOwed(s);
    Hears(s.d, s.c, s.toC, s.toD, io);
    HeardByController(s, HandleMessage(s.c, Sends(s.d)[s.toC], s.c.generation, io));
  }

  lemma HeardByController(s: Session, g: Flow)
    requires Inv(s) && 0 < s.toC < |Sends(s.d)| && Heard(s.d, s.c, g, s.toC)
    ensures var t := s.(c := g, toC := s.toC + 1); Inv(t) && Left(t) < Left(s)
  {
  }

  lemma ControlledOwed(s: Session)
    requires Inv(s) && 0 < s.toD < |Sends(s.c)|
    ensures Owes(s.c, s.d, s.toD, s.toC)
  {
  }

  lemma ControlledHears(s: Session, io: Io)
    requires Inv(s) && Enabled(s, ToControlled(io)) && s.toD > 0
    ensures Inv(Next(s, ToControlled(io))) && Left(Next(s, ToControlled(io))) < Left(s)
  {
    ControlledOwed(s);
    Hears(s.c, s.d, s.toD, s.toC, io);
    HeardByControlled(s, HandleMessage(s.d, Sends(s.c)[s.toD], s.d.generation, io));
  }

  lemma HeardByControlled(s: Session, g: Flow)
    requires Inv(s) && 0 < s.toD < |Sends(s.c)| && Heard(s.c, s.d, g, s.toD)
    ensures var t := s.(d := g, toD := s.toD + 1); Inv(t) && Left(t) < Left(s)
  {
  }

  /** Every move keeps the invariant and leaves less to do. */
  lemma MoveInv(s: Session, m: Move)
    requires Inv(s) && Enabled(s, m)
    ensures Inv(Next(s, m)) && Left(Next(s, m)) < Left(s)
  {
    match m
    case ToController(io) =>
      if s.toC == 0 {
        FirstHello(s, m);
      } else {
        ControllerHears(s, io);
      }
    case ToControlled(io) =>
      if s.toD == 0 {
        FirstHello(s, m);
      } else {
        ControlledHears(s, io);
      }
    case _ => AnswerInv(s, m);
  }

  // ---------- the end of every run ----------

  predicate Quiescent(s: Session) {
    s.toC == |Sends(s.d)| && s.toD == |Sends(s.c)| && !s.c.promptVisible && !s.d.promptVisible
  }

  /** Nothing in flight and no open prompt: both sides have completed with the same permissions. */
  lemma QuiescentIsComplete(s: Session)
    requires Inv(s) && Quiescent(s)
    ensures Done(s.c) && Done(s.d)
    ensures s.c.effective == s.d.effective == s.d.Tx().localPermissions
  {
  }

  predicate Runs(s: Session, ms: seq<Move>)
    decreases |ms|
  {
    ms == [] || (Enabled(s, ms[0]) && Runs(Next(s, ms[0]), ms[1..]))
  }

  function After(s: Session, ms: seq<Move>): Session
    requires Runs(s, ms)
    decreases |ms|
  {
    if ms == [] then s else After(Next(s, ms[0]), ms[1..])
  }

  lemma {:induction false} RunInv(s: Session, ms: seq<Move>)
    requires Inv(s) && Runs(s, ms)
    ensures Inv(After(s, ms)) && |ms| <= Left(s) - Left(After(s, ms))
    decreases |ms|
  {
    if ms != [] {
      MoveInv(s, ms[0]);
      RunInv(Next(s, ms[0]), ms[1..]);
    }
  }

  /** From two endpoints that begin a session, whatever earlier sessions and other requests their
      histories hold, every run ends within ten moves, and where it ends, both have completed with the
      controlled side's decision. No message carries the null request. */
  lemma EveryRunCompletes(fc: Flow, fd: Flow, request: RequestId, gc: nat, gd: nat, name: string,
                          requested: Scopes, ioC: Io, ioD: Io, ms: seq<Move>)
    requires Unsent(fc, request) && Unsent(fd, request) && Unsent(fd, 0) && fc.peer.valid && fd.peer.valid
    requires fc.peer.deviceId == fd.identity && fd.peer.deviceId == fc.identity
    requires request != 0 && gc != 0 && gd != 0 && ViewScreen in requested
    requires ioC.identityOk && ioC.readOk && ioC.recoveryOk && ioC.certificateOk
    requires ioD.identityOk && ioD.readOk && ioD.recoveryOk && ioD.certificateOk && !ioD.rateLimited
    requires Welcomes(BeginOutgoing(fc, request, gc, name, requested, ioC), request)
    requires Welcomes(BeginIncoming(fd, gd, name, ioD), request)
    requires var s := Session(BeginOutgoing(fc, request, gc, name, requested, ioC),
                              BeginIncoming(fd, gd, name, ioD), 0, 0);
             Runs(s, ms)
    ensures var s := Session(BeginOutgoing(fc, request, gc, name, requested, ioC),
                             BeginIncoming(fd, gd, name, ioD), 0, 0);
            var e := After(s, ms);
            && |ms| <= 10
            && (Quiescent(e) ==> Done(e.c) && Done(e.d) && e.c.effective == e.d.effective == e.d.Tx().localPermissions)
  {
    var s := Session(BeginOutgoing(fc, request, gc, name, requested, ioC),
                     BeginIncoming(fd, gd, name, ioD), 0, 0);
    OutgoingOpens(fc, request, gc, name, requested, ioC);
    IncomingOpens(fd, request, gd, name, ioD);
    RunInv(s, ms);
    LeftNonnegative(After(s, ms));
    if Quiescent(After(s, ms)) {
      QuiescentIsComplete(After(s, ms));
    }
  }

  lemma LeftNonnegative(s: Session)
    requires Inv(s)
    ensures Left(s) >= 0
  {
  }
}
