/** Whole runs of the pairing protocol, seen as the sequence of saves, messages and outcomes of
    both endpoints over any number of sessions. `Good` says what every event owes to the events
    before it; the guarantees of the protocol are read off good traces. */
module PairingTrace {
  import opened PairingTypes
  import opened TrustedDevices
  import opened PairingTransactions
  import opened AuthenticationFlow
  import TrustRecovery

  /** The identity each endpoint presents over TLS, and what its store file holds at first. */
  datatype Config = Config(controller: Peer, controlled: Peer,
                           controllerDisk: seq<Device>, controlledDisk: seq<Device>)
  {
    function Face(p: Party): Peer { if p.Controller? then controller else controlled }

    function FirstDisk(p: Party): seq<Device> { if p.Controller? then controllerDisk else controlledDisk }
  }

  function Other(p: Party): Party { if p.Controller? then Controlled else Controller }

  /** What the endpoint's file holds after the trace. */
  function Disk(cfg: Config, t: seq<Event>, p: Party): seq<Device> {
    if t == [] then cfg.FirstDisk(p)
    else
      var last := t[|t| - 1];
      if last.Of? && last.party == p && last.effect.Saved? then last.effect.devices
      else Disk(cfg, t[..|t| - 1], p)
  }

  function DecisionOf(cfg: Config, p: Party, r: RequestId, permissions: Scopes): Event {
    Of(p, Sent(Decision(r, cfg.Face(p).deviceId, true, permissions)))
  }

  function ReadyOf(cfg: Config, p: Party, r: RequestId, permissions: Scopes): Event {
    Of(p, Sent(Ready(r, cfg.Face(p).deviceId, permissions)))
  }

  function CommittedOf(cfg: Config, p: Party, r: RequestId, permissions: Scopes): Event {
    Of(p, Sent(Committed(r, cfg.Face(p).deviceId, permissions)))
  }

  predicate Mentions(e: Event, r: RequestId) {
    match e
    case Connected(request, _) => request == r
    case Of(_, Chosen(request, _, _, _)) => request == r
    case Of(_, Sent(m)) => m.requestId == r
    case Of(_, Replayed(m)) => m.requestId == r
    case Of(_, Finished(request, _, _)) => request == r
    case _ => false
  }

  /** A record that carries a request of this run has the permissions the controlled side decided. */
  ghost predicate RecordsKnown(cfg: Config, t: seq<Event>, ds: seq<Device>) {
    forall d, requested :: d in ds && Connected(d.transactionId, requested) in t ==>
      DecisionOf(cfg, Controlled, d.transactionId, d.permissionLimit) in t
  }

  /** The file holds the transaction's record of the peer, in the given state. */
  ghost predicate Holds(ds: seq<Device>, r: RequestId, peer: Peer, permissions: Scopes, state: CommitState) {
    exists d :: d in ds && d.transactionId == r && d.deviceId == peer.deviceId && d.spki == peer.spki
                && d.permissionLimit == permissions && d.commitState == state
  }

  ghost predicate FirstOfItsType(t: seq<Event>, p: Party, m: Message) {
    forall n :: Of(p, Sent(n)) in t && n.requestId == m.requestId ==> TypeOf(n) != TypeOf(m)
  }

  /** In an untrusted pairing the file holds the transaction's record. */
  ghost predicate Durable(cfg: Config, t: seq<Event>, p: Party, r: RequestId, permissions: Scopes,
                          state: CommitState) {
    (exists own, theirs :: Of(p, Chosen(r, false, own, theirs)) in t) ==>
      Holds(Disk(cfg, t, p), r, cfg.Face(Other(p)), permissions, state)
  }

  ghost predicate JustifiedMessage(cfg: Config, t: seq<Event>, p: Party, m: Message) {
    m.Rejected? ||
    (FirstOfItsType(t, p, m) &&
     match m
     case Hello(r, _, _, _, commitId, permissions) =>
       && (forall requested :: Connected(r, requested) in t ==> permissions == requested)
       && (p.Controlled? ==> exists trusted, theirs :: Of(p, Chosen(r, trusted, commitId, theirs)) in t)
     case Decision(r, id, accepted, permissions) =>
       && accepted && id == cfg.Face(p).deviceId
       && (exists trusted, own, theirs :: Of(p, Chosen(r, trusted, own, theirs)) in t)
       && (p.Controlled? ==> forall requested :: Connected(r, requested) in t ==> permissions <= requested)
     case Ready(r, id, permissions) =>
       && id == cfg.Face(p).deviceId
       && ViewScreen in permissions
       && DecisionOf(cfg, Controlled, r, permissions) in t
       && (exists requested :: DecisionOf(cfg, Controller, r, requested) in t)
       && Durable(cfg, t, p, r, permissions, Pending)
     case Committed(r, id, permissions) =>
       && id == cfg.Face(p).deviceId
       && ReadyOf(cfg, Controller, r, permissions) in t
       && ReadyOf(cfg, Controlled, r, permissions) in t
       && Durable(cfg, t, p, r, permissions, Mutual))
  }

  ghost predicate JustifiedChoice(cfg: Config, t: seq<Event>, p: Party, r: RequestId, trusted: bool,
                                  own: RequestId, theirs: RequestId) {
    && own == MutualCommitId(Disk(cfg, t, p), cfg.Face(Other(p)).deviceId, cfg.Face(Other(p)).spki)
    && trusted == (own != 0 && own == theirs)
    && (forall tr, o, th :: Of(p, Chosen(r, tr, o, th)) !in t)
    && (exists hello :: Of(Other(p), Sent(hello)) in t && hello.Hello? && hello.requestId == r
                        && hello.trustCommitId == theirs)
    && (p.Controller? ==> exists hello :: Of(p, Sent(hello)) in t && hello.Hello? && hello.requestId == r
                                          && hello.trustCommitId == own)
  }

  ghost predicate Justified(cfg: Config, t: seq<Event>, e: Event) {
    match e
    case Connected(r, _) =>
      && r != 0
      && (forall d :: d in t ==> !Mentions(d, r))
      && (forall p: Party :: TrustRecovery.Fresh(Disk(cfg, t, p), r))
    case Of(p, Loaded(devices)) => devices == Disk(cfg, t, p) && TrustRecovery.Canonical(devices)
    case Of(p, Saved(devices)) => RecordsKnown(cfg, t, devices)
    case Of(p, Chosen(r, trusted, own, theirs)) => JustifiedChoice(cfg, t, p, r, trusted, own, theirs)
    case Of(p, Sent(m)) => JustifiedMessage(cfg, t, p, m)
    case Of(p, Replayed(m)) => Of(p, Sent(m)) in t
    case Of(p, Finished(r, permissions, trusted)) =>
      && CommittedOf(cfg, Controller, r, permissions) in t
      && CommittedOf(cfg, Controlled, r, permissions) in t
      && (exists own, theirs :: Of(p, Chosen(r, trusted, own, theirs)) in t)
      && (forall ps, tr :: Of(p, Finished(r, ps, tr)) !in t)
  }

  ghost predicate Good(cfg: Config, t: seq<Event>) {
    forall i :: 0 <= i < |t| ==> Justified(cfg, t[..i], t[i])
  }

  lemma GoodExtend(cfg: Config, t: seq<Event>, e: Event)
    requires Good(cfg, t) && Justified(cfg, t, e)
    ensures Good(cfg, t + [e])
  {
    var u := t + [e];
    forall i | 0 <= i < |u| ensures Justified(cfg, u[..i], u[i]) {
      if i < |t| {
        assert u[..i] == t[..i];
      } else {
        assert u[..i] == t;
      }
    }
  }

  lemma GoodPrefix(cfg: Config, t: seq<Event>, n: nat)
    requires Good(cfg, t) && n <= |t|
    ensures Good(cfg, t[..n])
  {
    forall i | 0 <= i < n ensures Justified(cfg, t[..n][..i], t[..n][i]) {
      assert t[..n][..i] == t[..i];
    }
  }

  /** The position of an event, and the prefix that justifies it. */
  lemma Locate(cfg: Config, t: seq<Event>, e: Event) returns (i: nat)
    requires Good(cfg, t) && e in t
    ensures i < |t| && t[i] == e && Justified(cfg, t[..i], e)
    ensures Good(cfg, t[..i])
    ensures forall d :: d in t[..i] ==> d in t
  {
    i :| 0 <= i < |t| && t[i] == e;
    GoodPrefix(cfg, t, i);
  }

  // ---------- guarantees ----------

  lemma Before(t: seq<Event>, i: nat, j: nat)
    requires i < j <= |t|
    ensures t[i] in t[..j]
  {
    assert t[..j][i] == t[i];
  }

  /** One message of each type per endpoint and request. */
  lemma SentOnce(cfg: Config, t: seq<Event>, p: Party, m: Message, n: Message)
    requires Good(cfg, t) && Of(p, Sent(m)) in t && Of(p, Sent(n)) in t
    requires !m.Rejected? && TypeOf(m) == TypeOf(n) && m.requestId == n.requestId
    ensures m == n
  {
    var i := Locate(cfg, t, Of(p, Sent(m)));
    var j := Locate(cfg, t, Of(p, Sent(n)));
    SentApart(cfg, t, i, j, p, m, n);
    SentApart(cfg, t, j, i, p, n, m);
  }

  /** An originated message occurs at one position only. */
  lemma SentApart(cfg: Config, t: seq<Event>, i: nat, j: nat, p: Party, m: Message, n: Message)
    requires Good(cfg, t) && i < |t| && j < |t| && t[i] == Of(p, Sent(m)) && t[j] == Of(p, Sent(n))
    requires !m.Rejected? && TypeOf(m) == TypeOf(n) && m.requestId == n.requestId
    ensures i >= j
  {
    assert Justified(cfg, t[..j], t[j]);
    assert FirstOfItsType(t[..j], p, n);
    if i < j {
      Before(t, i, j);
    }
  }

  lemma DecisionFacts(cfg: Config, t: seq<Event>, r: RequestId, permissions: Scopes, requested: Scopes)
    requires Good(cfg, t) && DecisionOf(cfg, Controlled, r, permissions) in t && Connected(r, requested) in t
    ensures permissions <= requested
  {
    var n := Locate(cfg, t, DecisionOf(cfg, Controlled, r, permissions));
    var c := Locate(cfg, t, Connected(r, requested));
    assert JustifiedMessage(cfg, t[..n], Controlled, t[n].effect.message);
    assert Mentions(t[n], r);
    if c < n {
      Before(t, c, n);
    } else if n < c {
      Before(t, n, c);
    }
  }

  lemma ReadyFacts(cfg: Config, t: seq<Event>, p: Party, r: RequestId, permissions: Scopes)
    requires Good(cfg, t) && ReadyOf(cfg, p, r, permissions) in t
    ensures ViewScreen in permissions && DecisionOf(cfg, Controlled, r, permissions) in t
  {
    var n := Locate(cfg, t, ReadyOf(cfg, p, r, permissions));
    assert JustifiedMessage(cfg, t[..n], p, t[n].effect.message);
  }

  lemma CommittedFacts(cfg: Config, t: seq<Event>, p: Party, r: RequestId, permissions: Scopes)
    requires Good(cfg, t) && CommittedOf(cfg, p, r, permissions) in t
    ensures ReadyOf(cfg, Controller, r, permissions) in t && ReadyOf(cfg, Controlled, r, permissions) in t
  {
    var n := Locate(cfg, t, CommittedOf(cfg, p, r, permissions));
    assert JustifiedMessage(cfg, t[..n], p, t[n].effect.message);
  }

  /** Agreement: any two endpoints that complete the same request, in any run, hold the same
      permissions; these are the controlled side's decision, contain ViewScreen and are part of
      what the controller requested. */
  lemma Agreement(cfg: Config, t: seq<Event>, p: Party, q: Party, r: RequestId, ps: Scopes, qs: Scopes,
                  pt: bool, qt: bool)
    requires Good(cfg, t)
    requires Of(p, Finished(r, ps, pt)) in t && Of(q, Finished(r, qs, qt)) in t
    ensures ps == qs
    ensures DecisionOf(cfg, Controlled, r, ps) in t
    ensures ViewScreen in ps
    ensures forall requested :: Connected(r, requested) in t ==> ps <= requested
  {
    var i := Locate(cfg, t, Of(p, Finished(r, ps, pt)));
    var j := Locate(cfg, t, Of(q, Finished(r, qs, qt)));
    CommittedFacts(cfg, t, Controller, r, ps);
    CommittedFacts(cfg, t, Controller, r, qs);
    ReadyFacts(cfg, t, Controlled, r, ps);
    ReadyFacts(cfg, t, Controlled, r, qs);
    SentOnce(cfg, t, Controlled, DecisionOf(cfg, Controlled, r, ps).effect.message,
             DecisionOf(cfg, Controlled, r, qs).effect.message);
    forall requested | Connected(r, requested) in t ensures ps <= requested {
      DecisionFacts(cfg, t, r, ps, requested);
    }
  }

  lemma PrefixMembers(t: seq<Event>, i: nat, j: nat)
    requires i <= j <= |t|
    ensures forall e :: e in t[..i] ==> e in t[..j]
  {
    assert t[..i] == t[..j][..i];
  }

  lemma ChosenOnce(cfg: Config, t: seq<Event>, p: Party, r: RequestId, tr: bool, o: RequestId, th: RequestId,
                   tr': bool, o': RequestId, th': RequestId)
    requires Good(cfg, t)
    requires Of(p, Chosen(r, tr, o, th)) in t && Of(p, Chosen(r, tr', o', th')) in t
    ensures tr == tr' && o == o' && th == th'
  {
    var i := Locate(cfg, t, Of(p, Chosen(r, tr, o, th)));
    var j := Locate(cfg, t, Of(p, Chosen(r, tr', o', th')));
    ChosenApart(cfg, t, i, j, p, r);
    ChosenApart(cfg, t, j, i, p, r);
  }

  lemma ChosenApart(cfg: Config, t: seq<Event>, i: nat, j: nat, p: Party, r: RequestId)
    requires Good(cfg, t) && i < |t| && j < |t|
    requires t[i].Of? && t[i].party == p && t[i].effect.Chosen? && t[i].effect.requestId == r
    requires t[j].Of? && t[j].party == p && t[j].effect.Chosen? && t[j].effect.requestId == r
    ensures i >= j
  {
    assert Justified(cfg, t[..j], t[j]);
    if i < j {
      Before(t, i, j);
    }
  }

  /** An endpoint's Hello announces the commit id its own choice was made with. */
  lemma HelloAnnounces(cfg: Config, t: seq<Event>, p: Party, r: RequestId, trusted: bool, own: RequestId,
                       theirs: RequestId, hello: Message)
    requires Good(cfg, t) && Of(p, Chosen(r, trusted, own, theirs)) in t
    requires Of(p, Sent(hello)) in t && hello.Hello? && hello.requestId == r
    ensures hello.trustCommitId == own
  {
    if p.Controlled? {
      var k := Locate(cfg, t, Of(p, Sent(hello)));
      assert JustifiedMessage(cfg, t[..k], p, hello);
      var tr, th :| Of(p, Chosen(r, tr, hello.trustCommitId, th)) in t[..k];
      ChosenOnce(cfg, t, p, r, tr, hello.trustCommitId, th, trusted, own, theirs);
    } else {
      var j := Locate(cfg, t, Of(p, Chosen(r, trusted, own, theirs)));
      assert JustifiedChoice(cfg, t[..j], p, r, trusted, own, theirs);
      var hello' :| Of(p, Sent(hello')) in t[..j] && hello'.Hello? && hello'.requestId == r
                    && hello'.trustCommitId == own;
      SentOnce(cfg, t, p, hello, hello');
    }
  }

  /** A choice was made with the commit id the other side's file gave at its own choice. */
  lemma ChoiceSeesOther(cfg: Config, t: seq<Event>, p: Party, r: RequestId,
                        trusted: bool, own: RequestId, theirs: RequestId,
                        trusted': bool, own': RequestId, theirs': RequestId)
    requires Good(cfg, t)
    requires Of(p, Chosen(r, trusted, own, theirs)) in t
    requires Of(Other(p), Chosen(r, trusted', own', theirs')) in t
    ensures theirs == own'
  {
    var i := Locate(cfg, t, Of(p, Chosen(r, trusted, own, theirs)));
    assert JustifiedChoice(cfg, t[..i], p, r, trusted, own, theirs);
    var answer :| Of(Other(p), Sent(answer)) in t[..i] && answer.Hello? && answer.requestId == r
                  && answer.trustCommitId == theirs;
    HelloAnnounces(cfg, t, Other(p), r, trusted', own', theirs', answer);
  }

  /** The commit id of the peer that the endpoint's file gave after the first i events. */
  function CommitIdAt(cfg: Config, t: seq<Event>, i: nat, p: Party): RequestId
    requires i <= |t|
  {
    MutualCommitId(Disk(cfg, t[..i], p), cfg.Face(Other(p)).deviceId, cfg.Face(Other(p)).spki)
  }

  lemma ChoiceRule(cfg: Config, t: seq<Event>, p: Party, r: RequestId, trusted: bool, own: RequestId,
                   theirs: RequestId)
    returns (i: nat)
    requires Good(cfg, t) && Of(p, Chosen(r, trusted, own, theirs)) in t
    ensures i < |t| && t[i] == Of(p, Chosen(r, trusted, own, theirs))
    ensures trusted == (own != 0 && own == theirs)
    ensures own == CommitIdAt(cfg, t, i, p)
  {
    i := Locate(cfg, t, Of(p, Chosen(r, trusted, own, theirs)));
    assert JustifiedChoice(cfg, t[..i], p, r, trusted, own, theirs);
  }

  /** The two sides of a session make the same choice between automatic trust and a prompt, and
      choose trust exactly when both files hold Mutual records under one transaction id: a half
      commit, a rollback or a crash in an earlier session cannot split them. */
  lemma SameChoice(cfg: Config, t: seq<Event>, r: RequestId,
                   trusted: bool, own: RequestId, theirs: RequestId,
                   trusted': bool, own': RequestId, theirs': RequestId)
    returns (i: nat, j: nat)
    requires Good(cfg, t)
    requires Of(Controller, Chosen(r, trusted, own, theirs)) in t
    requires Of(Controlled, Chosen(r, trusted', own', theirs')) in t
    ensures i < |t| && t[i] == Of(Controller, Chosen(r, trusted, own, theirs))
    ensures j < |t| && t[j] == Of(Controlled, Chosen(r, trusted', own', theirs'))
    ensures own == CommitIdAt(cfg, t, i, Controller) && own' == CommitIdAt(cfg, t, j, Controlled)
    ensures trusted == trusted' == (own != 0 && own == own')
  {
    ChoiceSeesOther(cfg, t, Controller, r, trusted, own, theirs, trusted', own', theirs');
    ChoiceSeesOther(cfg, t, Controlled, r, trusted', own', theirs', trusted, own, theirs);
    i := ChoiceRule(cfg, t, Controller, r, trusted, own, theirs);
    j := ChoiceRule(cfg, t, Controlled, r, trusted', own', theirs');
  }

  lemma {:induction false} CommitIdRecord(ds: seq<Device>, id: DeviceId, spki: Digest)
    requires MutualCommitId(ds, id, spki) != 0
    ensures exists d :: d in ds && d.deviceId == id && d.spki == spki && d.commitState.Mutual?
                        && d.transactionId == MutualCommitId(ds, id, spki)
  {
    FindMatches(ds, id, 0, -1);
    assert ds[Find(ds, id)] in ds;
  }

  lemma {:induction false} FindMatches(ds: seq<Device>, id: DeviceId, from: nat, pending: int)
    requires from <= |ds| && -1 <= pending < |ds|
    requires pending >= 0 ==> ds[pending].deviceId == id
    ensures var k := FindFrom(ds, id, from, pending); k >= 0 ==> ds[k].deviceId == id
    decreases |ds| - from
  {
    if from < |ds| {
      FindMatches(ds, id, from + 1, if ds[from].deviceId == id then from else pending);
    }
  }

  /** Trust rests on two records of one earlier pairing: at their choices both files held a
      Mutual record of the peer's device and key under the same id, and when that id is a
      request of this run both records carry the permissions decided then. */
  lemma TrustRestsOnBothRecords(cfg: Config, t: seq<Event>, r: RequestId, own: RequestId, theirs: RequestId,
                                own': RequestId, theirs': RequestId)
    returns (i: nat, j: nat, d: Device, d': Device)
    requires Good(cfg, t)
    requires Of(Controller, Chosen(r, true, own, theirs)) in t
    requires Of(Controlled, Chosen(r, true, own', theirs')) in t
    ensures i < |t| && t[i] == Of(Controller, Chosen(r, true, own, theirs))
    ensures j < |t| && t[j] == Of(Controlled, Chosen(r, true, own', theirs'))
    ensures d in Disk(cfg, t[..i], Controller) && d' in Disk(cfg, t[..j], Controlled)
    ensures d.deviceId == cfg.controlled.deviceId && d.spki == cfg.controlled.spki && d.commitState.Mutual?
    ensures d'.deviceId == cfg.controller.deviceId && d'.spki == cfg.controller.spki && d'.commitState.Mutual?
    ensures d.transactionId == d'.transactionId == own
    ensures forall requested :: Connected(own, requested) in t[..i] && Connected(own, requested) in t[..j] ==>
              d.permissionLimit == d'.permissionLimit
  {
    i, j := SameChoice(cfg, t, r, true, own, theirs, true, own', theirs');
    CommitIdRecord(Disk(cfg, t[..i], Controller), cfg.controlled.deviceId, cfg.controlled.spki);
    CommitIdRecord(Disk(cfg, t[..j], Controlled), cfg.controller.deviceId, cfg.controller.spki);
    d :| d in Disk(cfg, t[..i], Controller) && d.deviceId == cfg.controlled.deviceId
         && d.spki == cfg.controlled.spki && d.commitState.Mutual? && d.transactionId == own;
    d' :| d' in Disk(cfg, t[..j], Controlled) && d'.deviceId == cfg.controller.deviceId
          && d'.spki == cfg.controller.spki && d'.commitState.Mutual? && d'.transactionId == own;
    GoodPrefix(cfg, t, i);
    GoodPrefix(cfg, t, j);
    DiskKnown(cfg, t[..i], Controller);
    DiskKnown(cfg, t[..j], Controlled);
    forall requested | Connected(own, requested) in t[..i] && Connected(own, requested) in t[..j]
      ensures d.permissionLimit == d'.permissionLimit
    {
      PrefixMembers(t, i, |t|);
      PrefixMembers(t, j, |t|);
      assert t[..|t|] == t;
      SentOnce(cfg, t, Controlled, DecisionOf(cfg, Controlled, own, d.permissionLimit).effect.message,
               DecisionOf(cfg, Controlled, own, d'.permissionLimit).effect.message);
    }
  }

  lemma SameTrust(cfg: Config, t: seq<Event>, p: Party, q: Party, r: RequestId, tr: bool, o: RequestId,
                  th: RequestId, tr': bool, o': RequestId, th': RequestId)
    requires Good(cfg, t)
    requires Of(p, Chosen(r, tr, o, th)) in t && Of(q, Chosen(r, tr', o', th')) in t
    ensures tr == tr'
  {
    if p == q {
      ChosenOnce(cfg, t, p, r, tr, o, th, tr', o', th');
    } else if p.Controller? {
      var i, j := SameChoice(cfg, t, r, tr, o, th, tr', o', th');
    } else {
      var i, j := SameChoice(cfg, t, r, tr', o', th', tr, o, th);
    }
  }

  lemma FinishedFacts(cfg: Config, t: seq<Event>, p: Party, r: RequestId, permissions: Scopes, trusted: bool)
    returns (own: RequestId, theirs: RequestId)
    requires Good(cfg, t) && Of(p, Finished(r, permissions, trusted)) in t
    ensures CommittedOf(cfg, Controller, r, permissions) in t && CommittedOf(cfg, Controlled, r, permissions) in t
    ensures Of(p, Chosen(r, trusted, own, theirs)) in t
  {
    var n := Locate(cfg, t, Of(p, Finished(r, permissions, trusted)));
    own, theirs := FinishJustified(cfg, t, n, p, r, permissions, trusted);
  }

  lemma FinishJustified(cfg: Config, t: seq<Event>, n: nat, p: Party, r: RequestId, permissions: Scopes,
                        trusted: bool)
    returns (own: RequestId, theirs: RequestId)
    requires n <= |t| && Justified(cfg, t[..n], Of(p, Finished(r, permissions, trusted)))
    ensures CommittedOf(cfg, Controller, r, permissions) in t && CommittedOf(cfg, Controlled, r, permissions) in t
    ensures Of(p, Chosen(r, trusted, own, theirs)) in t
  {
    own, theirs := FinishFollowsChoice(cfg, t[..n], p, r, permissions, trusted);
    PrefixHas(t, n, Of(p, Chosen(r, trusted, own, theirs)));
    PrefixHas(t, n, CommittedOf(cfg, Controller, r, permissions));
    PrefixHas(t, n, CommittedOf(cfg, Controlled, r, permissions));
  }

  lemma FinishFollowsChoice(cfg: Config, t: seq<Event>, p: Party, r: RequestId, permissions: Scopes, trusted: bool)
    returns (own: RequestId, theirs: RequestId)
    requires Justified(cfg, t, Of(p, Finished(r, permissions, trusted)))
    ensures CommittedOf(cfg, Controller, r, permissions) in t && CommittedOf(cfg, Controlled, r, permissions) in t
    ensures Of(p, Chosen(r, trusted, own, theirs)) in t
  {
    own, theirs :| Of(p, Chosen(r, trusted, own, theirs)) in t;
  }

  lemma PrefixHas(t: seq<Event>, n: nat, e: Event)
    requires n <= |t| && e in t[..n]
    ensures e in t
  {
  }

  /** Both endpoints decided, and each decision followed that endpoint's choice. */
  lemma ReadyHasChosen(cfg: Config, t: seq<Event>, p: Party, q: Party, r: RequestId, permissions: Scopes)
    returns (tr: bool, own: RequestId, theirs: RequestId)
    requires Good(cfg, t) && JustifiedMessage(cfg, t, p, Ready(r, cfg.Face(p).deviceId, permissions))
    ensures Of(q, Chosen(r, tr, own, theirs)) in t
  {
    var decided :| DecisionOf(cfg, q, r, decided) in t;
    var n := Locate(cfg, t, DecisionOf(cfg, q, r, decided));
    assert JustifiedMessage(cfg, t[..n], q, DecisionOf(cfg, q, r, decided).effect.message);
    tr, own, theirs :| Of(q, Chosen(r, tr, own, theirs)) in t[..n];
  }

  lemma ReadyAt(cfg: Config, t: seq<Event>, i: nat, p: Party, q: Party, r: RequestId, permissions: Scopes)
    returns (own: RequestId, theirs: RequestId)
    requires Good(cfg, t) && Of(p, Finished(r, permissions, false)) in t
    requires i < |t| && t[i] == ReadyOf(cfg, q, r, permissions)
    ensures Of(q, Chosen(r, false, own, theirs)) in t[..i]
    ensures Holds(Disk(cfg, t[..i], q), r, cfg.Face(Other(q)), permissions, Pending)
  {
    assert Justified(cfg, t[..i], t[i]);
    GoodPrefix(cfg, t, i);
    var tr;
    tr, own, theirs := ReadyHasChosen(cfg, t[..i], q, q, r, permissions);
    var o, th := FinishedFacts(cfg, t, p, r, permissions, false);
    PrefixMembers(t, i, |t|);
    assert t[..|t|] == t;
    SameTrust(cfg, t, p, q, r, false, o, th, tr, own, theirs);
    assert Durable(cfg, t[..i], q, r, permissions, Pending);
  }

  lemma CommittedAt(cfg: Config, t: seq<Event>, j: nat, q: Party, r: RequestId, permissions: Scopes)
    returns (i: nat, k: nat)
    requires Good(cfg, t) && j < |t| && t[j] == CommittedOf(cfg, q, r, permissions)
    ensures i < j && t[i] == ReadyOf(cfg, q, r, permissions)
    ensures k < j && t[k] == ReadyOf(cfg, Other(q), r, permissions)
    ensures Durable(cfg, t[..j], q, r, permissions, Mutual)
  {
    assert Justified(cfg, t[..j], t[j]);
    GoodPrefix(cfg, t, j);
    i := Locate(cfg, t[..j], ReadyOf(cfg, q, r, permissions));
    k := Locate(cfg, t[..j], ReadyOf(cfg, Other(q), r, permissions));
  }

  /** Durable two-phase order. If an endpoint completes an untrusted pairing then, for either
      endpoint q: both Ready messages precede q's Committed, q's file held the transaction's
      Pending record when q sent Ready, and its Mutual record when q sent Committed. */
  lemma TwoPhaseOrder(cfg: Config, t: seq<Event>, p: Party, q: Party, r: RequestId, permissions: Scopes)
    returns (i: nat, k: nat, j: nat)
    requires Good(cfg, t) && Of(p, Finished(r, permissions, false)) in t
    ensures i < j < |t| && k < j
    ensures t[i] == ReadyOf(cfg, q, r, permissions) && t[k] == ReadyOf(cfg, Other(q), r, permissions)
    ensures t[j] == CommittedOf(cfg, q, r, permissions)
    ensures Holds(Disk(cfg, t[..i], q), r, cfg.Face(Other(q)), permissions, Pending)
    ensures Holds(Disk(cfg, t[..j], q), r, cfg.Face(Other(q)), permissions, Mutual)
  {
    var o, th := FinishedFacts(cfg, t, p, r, permissions, false);
    j := Locate(cfg, t, CommittedOf(cfg, q, r, permissions));
    i, k := CommittedAt(cfg, t, j, q, r, permissions);
    var own, theirs := ReadyAt(cfg, t, i, p, q, r, permissions);
    PrefixMembers(t, i, j);
  }

  /** Every record a file ever holds for a request of the run has the decided permissions. */
  lemma {:induction false} DiskKnown(cfg: Config, t: seq<Event>, p: Party)
    requires Good(cfg, t)
    ensures RecordsKnown(cfg, t, Disk(cfg, t, p))
  {
    if t != [] {
      var n := |t| - 1;
      var u := t[..n];
      GoodPrefix(cfg, t, n);
      DiskKnown(cfg, u, p);
      assert Justified(cfg, u, t[n]);
      assert t == u + [t[n]];
      if t[n].Connected? {
        assert TrustRecovery.Fresh(Disk(cfg, u, p), t[n].requestId);
      }
    }
  }
}
