/** The pairing system: a controller and a controlled endpoint, the messages in flight between
    them and their store files, over any number of sessions. The network may delay, lose,
    repeat and reorder the messages of a session; any save may fail; an endpoint may time out,
    be cancelled, or crash between any two of its effects and come back with its file only. */
module PairingSystem {
  import opened Wrappers
  import opened PairingTypes
  import opened TrustedDevices
  import opened PairingTransactions
  import opened AuthenticationFlow
  import opened PairingTrace
  import opened TrustRecovery
  import opened PairingInvariant
  import opened PairingHandlers

  datatype Input =
    | BeginSession(generation: nat, name: string)
    | Receive(index: nat)
    | Respond(accepted: bool, granted: Scopes)
    | Expire
    | Abort(reason: Reason, notifyRemote: bool, emitOutcome: bool)

  /** `Connect` opens a session with a fresh request id. A step with a cut stops when the history
      has that length: the endpoint crashes there. */
  datatype Action =
    | Connect(request: RequestId, requested: Scopes)
    | Step(party: Party, input: Input, io: Io, cut: Option<nat>)

  datatype System = System(
    controller: Flow,
    controlled: Flow,
    request: RequestId,
    requested: Scopes,
    begun: set<Party>,
    toController: seq<Message>,
    toControlled: seq<Message>,
    trace: seq<Event>)
  {
    function At(p: Party): Flow {
      (if p.Controller? then controller else controlled).(history := trace)
    }

    function Inbox(p: Party): seq<Message> { if p.Controller? then toController else toControlled }
  }

  /** An endpoint after a start: only the file survives. */
  function Started(cfg: Config, p: Party, disk: seq<Device>): Flow {
    Flow(p, cfg.Face(p).deviceId, false, false, false, false, 0, 0, 0, "", {}, {}, false, false, 0, "",
         cfg.Face(Other(p)), NoCommand, Trust([], [], 0, 0, disk), [])
  }

  function Initial(cfg: Config): System {
    System(Started(cfg, Controller, cfg.controllerDisk), Started(cfg, Controlled, cfg.controlledDisk),
           0, {}, {}, [], [], [])
  }

  function React(s: System, p: Party, input: Input, io: Io): Flow
    requires input.Receive? ==> input.index < |s.Inbox(p)|
  {
    var f := s.At(p);
    match input
    case BeginSession(generation, name) =>
      if p.Controller? then BeginOutgoing(f, s.request, generation, name, s.requested, io)
      else BeginIncoming(f, generation, name, io)
    case Receive(index) => HandleMessage(f, s.Inbox(p)[index], f.generation, io)
    case Respond(accepted, granted) => RespondPairing(f, f.requestId, accepted, granted, io)
    case Expire => Timeout(f, io)
    case Abort(reason, notifyRemote, emitOutcome) => Cancel(f, reason, notifyRemote, emitOutcome, io)
  }

  predicate Enabled(s: System, a: Action) {
    match a
    case Connect(r, _) =>
      && r != 0
      && (forall e :: e in s.trace ==> !Mentions(e, r))
      && (forall p: Party :: FreshTrust(s.At(p).trust, r))
    case Step(p, input, io, cut) =>
      && s.request != 0
      && (if input.BeginSession? then p !in s.begun && input.generation != 0 else p in s.begun)
      && (input.Receive? ==> input.index < |s.Inbox(p)|)
      && (cut.Some? ==> |s.trace| <= cut.value <= |React(s, p, input, io).history|)
  }

  predicate FreshTrust(t: Trust, r: RequestId) {
    && (forall d :: d in t.disk ==> d.transactionId != r)
    && (forall d :: d in t.devices ==> d.transactionId != r)
    && (forall d :: d in t.before ==> d.transactionId != r)
  }

  function MessagesOf(t: seq<Event>): seq<Message> {
    if t == [] then []
    else
      var rest := MessagesOf(t[1..]);
      match t[0]
      case Of(_, Sent(m)) => [m] + rest
      case Of(_, Replayed(m)) => [m] + rest
      case _ => rest
  }

  function Apply(cfg: Config, s: System, a: Action): System
    requires Enabled(s, a)
  {
    match a
    case Connect(r, requested) =>
      s.(request := r, requested := requested, begun := {}, toController := [], toControlled := [],
         trace := s.trace + [Connected(r, requested)])
    case Step(p, input, io, cut) =>
      var f := React(s, p, input, io);
      var t := if cut.Some? then f.history[..cut.value] else f.history;
      var g := if cut.Some? then Started(cfg, p, Disk(cfg, t, p)) else f;
      var sent := if |s.trace| <= |t| then MessagesOf(t[|s.trace|..]) else [];
      s.(controller := if p.Controller? then g else s.controller,
         controlled := if p.Controlled? then g else s.controlled,
         begun := s.begun + {p},
         toController := if p.Controller? then s.toController else s.toController + sent,
         toControlled := if p.Controlled? then s.toControlled else s.toControlled + sent,
         trace := t)
  }

  // ---------- the invariant ----------

  ghost predicate EndpointOk(cfg: Config, s: System, p: Party) {
    && Base(cfg, p, s.At(p), s.trace)
    && (s.request != 0 ==>
          && (if p in s.begun then Ok(cfg, p, s.At(p), s.request, s.requested)
              else NotBegun(cfg, p, s.At(p), s.request, s.requested))
          && (forall m :: m in s.Inbox(p) ==> FromPeer(s.trace, p, m, s.request)))
  }

  ghost predicate Inv(cfg: Config, s: System) {
    && Good(cfg, s.trace)
    && (s.request != 0 ==> SessionOpen(s.trace, s.request, s.requested))
    && (forall p: Party :: EndpointOk(cfg, s, p))
  }

  ghost predicate Honest(cfg: Config) { cfg.controller.valid && cfg.controlled.valid }

  lemma InitialInv(cfg: Config)
    requires Honest(cfg)
    ensures Inv(cfg, Initial(cfg))
  {
  }

  lemma ConnectInv(cfg: Config, s: System, a: Action)
    requires Inv(cfg, s) && a.Connect? && Enabled(s, a)
    ensures Inv(cfg, Apply(cfg, s, a))
  {
    var s' := Apply(cfg, s, a);
    var e := Connected(a.request, a.requested);
    forall p: Party ensures Disk(cfg, s'.trace, p) == s.At(p).trust.disk {
      assert EndpointOk(cfg, s, p);
      DiskAppend(cfg, s.trace, e, p);
    }
    forall p: Party ensures Fresh(Disk(cfg, s.trace, p), a.request) {
      assert EndpointOk(cfg, s, p) && FreshTrust(s.At(p).trust, a.request);
    }
    GoodExtend(cfg, s.trace, e);
    assert SessionOpen(s'.trace, a.request, a.requested) by {
      assert e in s'.trace;
      forall other | Connected(a.request, other) in s'.trace ensures other == a.requested {
        if Connected(a.request, other) in s.trace {
          assert Mentions(Connected(a.request, other), a.request);
        }
      }
    }
    forall p: Party ensures EndpointOk(cfg, s', p) {
      assert FreshTrust(s.At(p).trust, a.request);
      ConnectEndpoint(cfg, s, a, p);
    }
  }

  lemma ConnectEndpoint(cfg: Config, s: System, a: Action, p: Party)
    requires EndpointOk(cfg, s, p) && a.Connect? && Enabled(s, a)
    requires Good(cfg, s.trace + [Connected(a.request, a.requested)])
    requires Disk(cfg, s.trace + [Connected(a.request, a.requested)], p) == s.At(p).trust.disk
    requires SessionOpen(s.trace + [Connected(a.request, a.requested)], a.request, a.requested)
    ensures EndpointOk(cfg, Apply(cfg, s, a), p)
  {
    assert FreshTrust(s.At(p).trust, a.request);
    ConnectNotBegun(cfg, s.At(p), p, a.request, a.requested);
    assert Apply(cfg, s, a).Inbox(p) == [];
    assert Apply(cfg, s, a).At(p) == s.At(p).(history := s.trace + [Connected(a.request, a.requested)]);
  }

  lemma ConnectNotBegun(cfg: Config, f: Flow, p: Party, r: RequestId, requested: Scopes)
    requires Base(cfg, p, f, f.history) && FreshTrust(f.trust, r)
    requires forall e :: e in f.history ==> !Mentions(e, r)
    requires Good(cfg, f.history + [Connected(r, requested)])
    requires Disk(cfg, f.history + [Connected(r, requested)], p) == f.trust.disk
    requires SessionOpen(f.history + [Connected(r, requested)], r, requested)
    ensures NotBegun(cfg, p, f.(history := f.history + [Connected(r, requested)]), r, requested)
  {
    ConnectKnown(cfg, f.history, r, requested, f.trust.devices);
    ConnectKnown(cfg, f.history, r, requested, f.trust.before);
    ConnectNoneOwn(f.history, p, r, requested);
  }

  lemma ConnectKnown(cfg: Config, t: seq<Event>, r: RequestId, requested: Scopes, ds: seq<Device>)
    requires RecordsKnown(cfg, t, ds) && forall d :: d in ds ==> d.transactionId != r
    ensures RecordsKnown(cfg, t + [Connected(r, requested)], ds)
  {
  }

  lemma ConnectNoneOwn(t: seq<Event>, p: Party, r: RequestId, requested: Scopes)
    requires forall e :: e in t ==> !Mentions(e, r)
    ensures NoneOwn(t + [Connected(r, requested)], p, r)
  {
  }

  /** The endpoint that moves. */
  lemma MoverOk(cfg: Config, s: System, p: Party, input: Input, io: Io)
    requires Inv(cfg, s) && Enabled(s, Step(p, input, io, None))
    ensures var g := React(s, p, input, io);
            Ok(cfg, p, g, s.request, s.requested) && Grown(s.trace, g.history, p, s.request)
  {
    assert EndpointOk(cfg, s, p);
    var f := s.At(p);
    match input
    case BeginSession(generation, name) =>
      if p.Controller? {
        BeginOutgoingOk(cfg, f, generation, name, io, s.request, s.requested);
      } else {
        BeginIncomingOk(cfg, f, generation, name, io, s.request, s.requested);
      }
    case Receive(index) =>
      assert s.Inbox(p)[index] in s.Inbox(p);
      MessageOk(cfg, p, f, s.Inbox(p)[index], f.generation, io, s.request, s.requested);
    case Respond(accepted, granted) =>
      RespondOk(cfg, p, f, f.requestId, accepted, granted, io, s.request, s.requested);
    case Expire =>
      TimeoutOk(cfg, p, f, io, s.request, s.requested);
    case Abort(reason, notifyRemote, emitOutcome) =>
      CancelOk(cfg, p, f, reason, notifyRemote, emitOutcome, io, s.request, s.requested);
  }

  lemma GrownMembers(t: seq<Event>, u: seq<Event>, p: Party, r: RequestId)
    requires Grown(t, u, p, r)
    ensures forall e :: e in t ==> e in u
    ensures forall e :: e in u && e !in t ==> OwnEvent(e, p, r)
  {
    forall e | e in t ensures e in u {
      var i :| 0 <= i < |t| && t[i] == e;
      assert u[i] == e;
    }
    forall e | e in u && e !in t ensures OwnEvent(e, p, r) {
      assert u == t + u[|t|..];
      var i :| 0 <= i < |u[|t|..]| && u[|t|..][i] == e;
      assert OwnEvent(u[|t| + i], p, r);
    }
  }

  lemma {:induction false} DiskGrown(cfg: Config, t: seq<Event>, u: seq<Event>, p: Party, q: Party, r: RequestId)
    requires Grown(t, u, p, r) && p != q
    ensures Disk(cfg, u, q) == Disk(cfg, t, q)
    decreases |u|
  {
    if |u| == |t| {
      assert u == t;
    } else {
      var v := u[..|u| - 1];
      assert Grown(t, v, p, r);
      DiskGrown(cfg, t, v, p, q, r);
      assert OwnEvent(u[|u| - 1], p, r);
    }
  }

  /** The other endpoint is not affected by events that are not its own. */
  lemma BystanderOk(cfg: Config, p: Party, q: Party, g: Flow, t: seq<Event>, u: seq<Event>, r: RequestId,
                    requested: Scopes)
    requires p != q && Grown(t, u, p, r) && Good(cfg, u) && SessionOpen(u, r, requested)
    requires g.history == t && Ok(cfg, q, g, r, requested)
    ensures Ok(cfg, q, g.(history := u), r, requested)
  {
    GrownMembers(t, u, p, r);
    DiskGrown(cfg, t, u, p, q, r);
    var h := g.(history := u);
    KnownGrown(cfg, t, u, p, g.trust.devices, r, requested);
    KnownGrown(cfg, t, u, p, g.trust.before, r, requested);
    if Engaged(cfg, q, g, t, r, requested) {
      BystanderEngaged(cfg, p, q, g, t, u, r, requested);
    } else if Waiting(q, g, t, r) {
      assert NoneOwn(u, q, r);
    }
  }

  lemma KnownGrown(cfg: Config, t: seq<Event>, u: seq<Event>, p: Party, ds: seq<Device>, r: RequestId,
                   requested: Scopes)
    requires Grown(t, u, p, r) && RecordsKnown(cfg, t, ds)
    ensures RecordsKnown(cfg, u, ds)
  {
    GrownMembers(t, u, p, r);
  }

  lemma BystanderEngaged(cfg: Config, p: Party, q: Party, g: Flow, t: seq<Event>, u: seq<Event>, r: RequestId,
                         requested: Scopes)
    requires p != q && Grown(t, u, p, r)
    requires Engaged(cfg, q, g, t, r, requested)
    ensures Engaged(cfg, q, g.(history := u), u, r, requested)
  {
    GrownMembers(t, u, p, r);
    var h := g.(history := u);
    assert forall e :: Of(q, e) in u ==> Of(q, e) in t;
    assert Outbox(q, h, u, r);
    assert RemoteBits(cfg, q, h, u, r);
    assert Choice(q, h, u, r);
  }

  lemma {:induction false} MessagesFromEvents(t: seq<Event>, n: nat, p: Party, r: RequestId)
    requires n <= |t|
    requires forall i :: n <= i < |t| ==> OwnEvent(t[i], p, r)
    ensures forall m :: m in MessagesOf(t[n..]) ==>
              m.requestId == r && (Of(p, Sent(m)) in t || Of(p, Replayed(m)) in t)
    decreases |t| - n
  {
    if n < |t| {
      MessagesFromEvents(t, n + 1, p, r);
      assert t[n..][1..] == t[n + 1..];
      assert t[n] in t;
    }
  }

  /** A replayed message was originated before. */
  lemma ReplayedWasSent(cfg: Config, t: seq<Event>, p: Party, m: Message)
    requires Good(cfg, t) && Of(p, Replayed(m)) in t
    ensures Of(p, Sent(m)) in t
  {
    var i := Locate(cfg, t, Of(p, Replayed(m)));
  }

  lemma InboxOk(cfg: Config, t: seq<Event>, u: seq<Event>, p: Party, inbox: seq<Message>, r: RequestId)
    requires Good(cfg, u) && Grown(t, u, p, r)
    requires forall m :: m in inbox ==> FromPeer(t, Other(p), m, r)
    ensures forall m :: m in inbox + MessagesOf(u[|t|..]) ==> FromPeer(u, Other(p), m, r)
  {
    GrownMembers(t, u, p, r);
    MessagesFromEvents(u, |t|, p, r);
    forall m | m in inbox + MessagesOf(u[|t|..]) ensures FromPeer(u, Other(p), m, r) {
      if m !in inbox && Of(p, Sent(m)) !in u {
        ReplayedWasSent(cfg, u, p, m);
      }
      assert Other(Other(p)) == p;
    }
  }

  lemma StartedOk(cfg: Config, p: Party, t: seq<Event>, r: RequestId, requested: Scopes)
    requires Good(cfg, t) && SessionOpen(t, r, requested) && Honest(cfg)
    ensures Ok(cfg, p, Started(cfg, p, Disk(cfg, t, p)).(history := t), r, requested)
  {
  }

  lemma CutGrown(cfg: Config, t: seq<Event>, u: seq<Event>, n: nat, p: Party, r: RequestId, requested: Scopes)
    requires Good(cfg, u) && Grown(t, u, p, r) && |t| <= n <= |u| && SessionOpen(t, r, requested)
    ensures Good(cfg, u[..n]) && Grown(t, u[..n], p, r) && SessionOpen(u[..n], r, requested)
  {
    GoodPrefix(cfg, u, n);
    assert Grown(t, u[..n], p, r);
    GrownMembers(t, u[..n], p, r);
  }

  lemma StepInv(cfg: Config, s: System, a: Action)
    requires Honest(cfg) && Inv(cfg, s) && a.Step? && Enabled(s, a)
    ensures Inv(cfg, Apply(cfg, s, a))
  {
    var p := a.party;
    MoverOk(cfg, s, p, a.input, a.io);
    var f := React(s, p, a.input, a.io);
    var s' := Apply(cfg, s, a);
    var t := s'.trace;
    if a.cut.Some? {
      CutGrown(cfg, s.trace, f.history, a.cut.value, p, s.request, s.requested);
      StartedOk(cfg, p, t, s.request, s.requested);
    }
    assert Good(cfg, t) && Grown(s.trace, t, p, s.request) && SessionOpen(t, s.request, s.requested);
    MoverEndpoint(cfg, s, a);
    OtherEndpoint(cfg, s, a);
    forall q: Party ensures EndpointOk(cfg, s', q) {
      assert q == p || q == Other(p);
    }
  }

  lemma MoverEndpoint(cfg: Config, s: System, a: Action)
    requires Inv(cfg, s) && a.Step? && Enabled(s, a)
    requires var s' := Apply(cfg, s, a);
             && Good(cfg, s'.trace) && Grown(s.trace, s'.trace, a.party, s.request)
             && Ok(cfg, a.party, s'.At(a.party), s.request, s.requested)
    ensures EndpointOk(cfg, Apply(cfg, s, a), a.party)
  {
    var s' := Apply(cfg, s, a);
    assert EndpointOk(cfg, s, a.party);
    GrownMembers(s.trace, s'.trace, a.party, s.request);
    assert s'.Inbox(a.party) == s.Inbox(a.party);
  }

  lemma OtherEndpoint(cfg: Config, s: System, a: Action)
    requires Inv(cfg, s) && a.Step? && Enabled(s, a)
    requires var s' := Apply(cfg, s, a);
             && Good(cfg, s'.trace) && Grown(s.trace, s'.trace, a.party, s.request)
             && SessionOpen(s'.trace, s.request, s.requested)
    ensures EndpointOk(cfg, Apply(cfg, s, a), Other(a.party))
  {
    var s' := Apply(cfg, s, a);
    var p, q := a.party, Other(a.party);
    assert EndpointOk(cfg, s, q);
    var g := s.At(q);
    assert s'.At(q) == g.(history := s'.trace);
    InboxOk(cfg, s.trace, s'.trace, p, s.Inbox(q), s.request);
    assert s'.Inbox(q) == s.Inbox(q) + MessagesOf(s'.trace[|s.trace|..]);
    if q in s.begun {
      BystanderOk(cfg, p, q, g, s.trace, s'.trace, s.request, s.requested);
    } else {
      GrownMembers(s.trace, s'.trace, p, s.request);
      DiskGrown(cfg, s.trace, s'.trace, p, q, s.request);
      KnownGrown(cfg, s.trace, s'.trace, p, g.trust.devices, s.request, s.requested);
      KnownGrown(cfg, s.trace, s'.trace, p, g.trust.before, s.request, s.requested);
    }
  }

  // ---------- whole runs ----------

  /** The actions can be taken one after another from the initial state. */
  ghost predicate Run(cfg: Config, actions: seq<Action>, s: System)
    decreases |actions|
  {
    if actions == [] then s == Initial(cfg)
    else
      var n := |actions| - 1;
      exists before :: Run(cfg, actions[..n], before) && Enabled(before, actions[n])
                       && s == Apply(cfg, before, actions[n])
  }

  /** Every run of honest endpoints leaves a good trace. */
  lemma {:induction false} EveryRunIsGood(cfg: Config, actions: seq<Action>, s: System)
    requires Honest(cfg) && Run(cfg, actions, s)
    ensures Inv(cfg, s)
    decreases |actions|
  {
    if actions == [] {
      InitialInv(cfg);
    } else {
      var n := |actions| - 1;
      var before :| Run(cfg, actions[..n], before) && Enabled(before, actions[n])
                    && s == Apply(cfg, before, actions[n]);
      EveryRunIsGood(cfg, actions[..n], before);
      if actions[n].Connect? {
        ConnectInv(cfg, before, actions[n]);
      } else {
        StepInv(cfg, before, actions[n]);
      }
    }
  }

  /** Both sides chose trust, or neither did; and they did exactly when both files gave the same commit
      id of the other side at the two choices. */
  ghost predicate ChoicesFollowFiles(cfg: Config, t: seq<Event>, r: RequestId,
                                     trusted: bool, own: RequestId, theirs: RequestId,
                                     trusted': bool, own': RequestId, theirs': RequestId)
  {
    exists i, j ::
      && 0 <= i < |t| && t[i] == Of(Controller, Chosen(r, trusted, own, theirs))
      && 0 <= j < |t| && t[j] == Of(Controlled, Chosen(r, trusted', own', theirs'))
      && var (c, d) := (CommitIdAt(cfg, t, i, Controller), CommitIdAt(cfg, t, j, Controlled));
      && trusted == trusted' == (c != 0 && c == d)
  }

  /** Whoever completes a request does so with the permissions the controlled side decided, the screen
      among them and none beyond those requested. */
  ghost predicate PermissionsAgree(cfg: Config, t: seq<Event>) {
    && (forall p, q, r, ps, qs, pt, qt ::
          Of(p, Finished(r, ps, pt)) in t && Of(q, Finished(r, qs, qt)) in t ==>
            ps == qs && DecisionOf(cfg, Controlled, r, ps) in t && ViewScreen in ps)
    && (forall p, r, ps, pt, requested ::
          Of(p, Finished(r, ps, pt)) in t && Connected(r, requested) in t ==> ps <= requested)
  }

  /** When both sides have chosen, they have chosen alike, as their files say. */
  ghost predicate ChoicesAlike(cfg: Config, t: seq<Event>) {
    forall r, trusted, own, theirs, trusted', own', theirs' ::
      Of(Controller, Chosen(r, trusted, own, theirs)) in t
      && Of(Controlled, Chosen(r, trusted', own', theirs')) in t ==>
        ChoicesFollowFiles(cfg, t, r, trusted, own, theirs, trusted', own', theirs')
  }

  /** Both Readys precede the side's Committed, and its file holds the Pending record when it sends the
      one and the Mutual record when it sends the other. */
  ghost predicate OrderOf(cfg: Config, t: seq<Event>, q: Party, r: RequestId, ps: Scopes) {
    exists i, k, j ::
      && 0 <= i < j < |t| && 0 <= k < j
      && t[i] == ReadyOf(cfg, q, r, ps) && t[k] == ReadyOf(cfg, Other(q), r, ps)
      && t[j] == CommittedOf(cfg, q, r, ps)
      && Holds(Disk(cfg, t[..i], q), r, cfg.Face(Other(q)), ps, Pending)
      && Holds(Disk(cfg, t[..j], q), r, cfg.Face(Other(q)), ps, Mutual)
  }

  /** An untrusted completion rests on two phases on both sides. */
  ghost predicate TwoPhased(cfg: Config, t: seq<Event>) {
    forall p: Party, q: Party, r, ps :: Of(p, Finished(r, ps, false)) in t ==> OrderOf(cfg, t, q, r, ps)
  }

  /** The guarantees, for every run: agreement on completed requests, the two-phase order with
      its durable records, and one choice of trust for both sides. */
  lemma RunGuarantees(cfg: Config, actions: seq<Action>, s: System)
    requires Honest(cfg) && Run(cfg, actions, s)
    ensures PermissionsAgree(cfg, s.trace) && ChoicesAlike(cfg, s.trace) && TwoPhased(cfg, s.trace)
  {
    EveryRunIsGood(cfg, actions, s);
    AllAgree(cfg, s.trace);
    AllChooseAlike(cfg, s.trace);
    AllTwoPhased(cfg, s.trace);
  }

  lemma AllAgree(cfg: Config, t: seq<Event>)
    requires Honest(cfg) && Good(cfg, t)
    ensures PermissionsAgree(cfg, t)
  {
    forall p, q, r, ps, qs, pt, qt | Of(p, Finished(r, ps, pt)) in t && Of(q, Finished(r, qs, qt)) in t
      ensures ps == qs && DecisionOf(cfg, Controlled, r, ps) in t && ViewScreen in ps
    {
      Agreement(cfg, t, p, q, r, ps, qs, pt, qt);
    }
    forall p, r, ps, pt, requested | Of(p, Finished(r, ps, pt)) in t && Connected(r, requested) in t
      ensures ps <= requested
    {
      Agreement(cfg, t, p, p, r, ps, ps, pt, pt);
    }
  }

  lemma AllChooseAlike(cfg: Config, t: seq<Event>)
    requires Honest(cfg) && Good(cfg, t)
    ensures ChoicesAlike(cfg, t)
  {
    forall r, trusted, own, theirs, trusted', own', theirs' |
      Of(Controller, Chosen(r, trusted, own, theirs)) in t
      && Of(Controlled, Chosen(r, trusted', own', theirs')) in t
      ensures ChoicesFollowFiles(cfg, t, r, trusted, own, theirs, trusted', own', theirs')
    {
      var i, j := SameChoice(cfg, t, r, trusted, own, theirs, trusted', own', theirs');
    }
  }

  lemma AllTwoPhased(cfg: Config, t: seq<Event>)
    requires Honest(cfg) && Good(cfg, t)
    ensures TwoPhased(cfg, t)
  {
    forall p: Party, q: Party, r, ps | Of(p, Finished(r, ps, false)) in t ensures OrderOf(cfg, t, q, r, ps) {
      var i, k, j := TwoPhaseOrder(cfg, t, p, q, r, ps);
    }
  }
}
