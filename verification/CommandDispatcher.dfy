/** KSessionCommandDispatcher: retransmission of pending commands on the sending side, and the bounded
    cache of results that keeps a retransmitted command from running twice on the other. */
module CommandDispatcher {
  import opened Wrappers

  const TIMEOUT_MS: int := 1000
  const MAX_ATTEMPTS: nat := 2
  const CACHED: nat := 128

  type Id = nat

  datatype Pending = Pending(kind: nat, sentMs: int, attempts: nat, generation: nat)

  datatype Result = Result(id: Id, success: bool, error: nat)

  /** What leaves the sending side. A dropped command was pending when the dispatcher was cleared. */
  datatype Entry =
    | Transmitted(id: Id, at: int)
    | Completed(id: Id, success: bool)
    | TimedOut(id: Id, at: int)
    | Dropped(id: Id)

  // ---------- the sending side ----------

  /** `used` are the request ids drawn so far; the log is what has left the sender, in order. */
  datatype Sender = Sender(pending: map<Id, Pending>, timer: bool, used: set<Id>, log: seq<Entry>)

  const NEW_SENDER := Sender(map[], false, {}, [])

  function Log(s: Sender, e: Entry): Sender {
    s.(log := s.log + [e])
  }

  function Send(s: Sender, id: Id, kind: nat, generation: nat, now: int, accepted: bool): Sender {
    var t := s.(used := s.used + {id});
    if !accepted then Log(t, Completed(id, false))
    else Log(t.(pending := t.pending[id := Pending(kind, now, 1, generation)], timer := true),
             Transmitted(id, now))
  }

  /** The timer looks at one pending command; `accepted` is the transmit function's answer. */
  function Check(s: Sender, id: Id, now: int, accepted: bool): Sender {
    if id !in s.pending || now - s.pending[id].sentMs < TIMEOUT_MS then s
    else
      var p := s.pending[id];
      if p.attempts < MAX_ATTEMPTS then
        if accepted then
          Log(s.(pending := s.pending[id := p.(attempts := p.attempts + 1, sentMs := now)]), Transmitted(id, now))
        else Log(s.(pending := s.pending - {id}), Completed(id, false))
      else Log(s.(pending := s.pending - {id}), TimedOut(id, now))
  }

  function CheckAll(s: Sender, order: seq<Id>, now: int, accepts: set<Id>): Sender
    decreases |order|
  {
    if order == [] then s else CheckAll(Check(s, order[0], now, order[0] in accepts), order[1..], now, accepts)
  }

  function StopIfIdle(s: Sender): Sender {
    if s.pending == map[] then s.(timer := false) else s
  }

  /** One tick over the pending ids, in the order the hash gives them. */
  function Tick(s: Sender, order: seq<Id>, now: int, accepts: set<Id>): Sender {
    StopIfIdle(CheckAll(s, order, now, accepts))
  }

  function TakeResult(s: Sender, r: Result, generation: nat): Sender {
    if r.id !in s.pending || s.pending[r.id].generation != generation then s
    else Log(StopIfIdle(s.(pending := s.pending - {r.id})), Completed(r.id, r.success))
  }

  function DropAll(s: Sender, order: seq<Id>): Sender
    decreases |order|
  {
    if order == [] then s else DropAll(Log(s, Dropped(order[0])), order[1..])
  }

  /** `clear` of the sending side; `order` lists the pending ids. */
  function ClearSender(s: Sender, order: seq<Id>): Sender {
    DropAll(s.(pending := map[], timer := false), order)
  }

  function CompleteAll(s: Sender, order: seq<Id>): Sender
    decreases |order|
  {
    if order == [] then s else CompleteAll(Log(s, Completed(order[0], false)), order[1..])
  }

  function FailAll(s: Sender, order: seq<Id>): Sender {
    CompleteAll(s.(pending := map[], timer := false), order)
  }

  // ---------- one outcome per command ----------

  predicate IsTransmission(e: Entry, id: Id) { e.Transmitted? && e.id == id }

  predicate IsEnd(e: Entry, id: Id) { !e.Transmitted? && e.id == id }

  function Transmissions(log: seq<Entry>, id: Id): nat {
    if log == [] then 0
    else Transmissions(log[..|log| - 1], id) + (if IsTransmission(log[|log| - 1], id) then 1 else 0)
  }

  /** Completions, timeouts and drops. */
  function Ends(log: seq<Entry>, id: Id): nat {
    if log == [] then 0 else Ends(log[..|log| - 1], id) + (if IsEnd(log[|log| - 1], id) then 1 else 0)
  }

  /** When a command was last transmitted. */
  function LastSent(log: seq<Entry>, id: Id): Option<int> {
    if log == [] then None
    else if IsTransmission(log[|log| - 1], id) then Some(log[|log| - 1].at)
    else LastSent(log[..|log| - 1], id)
  }

  /** A second transmission and a timeout come no sooner than the timeout after the last transmission,
      and a timeout only after two of them. */
  predicate InTime(log: seq<Entry>, e: Entry) {
    match e
    case Transmitted(id, at) =>
      LastSent(log, id).Some? ==> at - LastSent(log, id).value >= TIMEOUT_MS
    case TimedOut(id, at) =>
      && LastSent(log, id).Some? && at - LastSent(log, id).value >= TIMEOUT_MS
      && Transmissions(log, id) == MAX_ATTEMPTS
    case _ => true
  }

  ghost predicate TimesOk(log: seq<Entry>) {
    forall i :: 0 <= i < |log| ==> InTime(log[..i], log[i])
  }

  /** What the log says of one command. */
  predicate CommandOk(s: Sender, id: Id) {
    var sent, ended := Transmissions(s.log, id), Ends(s.log, id);
    && (id !in s.used ==> id !in s.pending && sent == ended == 0 && LastSent(s.log, id).None?)
    && (id in s.pending ==> LastSent(s.log, id) == Some(s.pending[id].sentMs))
    && (if id in s.pending then 1 <= sent == s.pending[id].attempts <= MAX_ATTEMPTS && ended == 0
        else sent <= MAX_ATTEMPTS && ended <= 1 && (sent >= 1 ==> ended == 1))
  }

  /** Everything but the timer. */
  ghost predicate CountsOk(s: Sender) {
    (forall id :: CommandOk(s, id)) && TimesOk(s.log)
  }

  ghost predicate SenderOk(s: Sender) {
    CountsOk(s) && (s.timer <==> s.pending != map[])
  }

  lemma LogCounts(log: seq<Entry>, e: Entry, id: Id)
    ensures Transmissions(log + [e], id) == Transmissions(log, id) + (if IsTransmission(e, id) then 1 else 0)
    ensures Ends(log + [e], id) == Ends(log, id) + (if IsEnd(e, id) then 1 else 0)
    ensures LastSent(log + [e], id) == if IsTransmission(e, id) then Some(e.at) else LastSent(log, id)
  {
    assert (log + [e])[..|log|] == log;
  }

  lemma LogInTime(log: seq<Entry>, e: Entry)
    requires TimesOk(log) && InTime(log, e)
    ensures TimesOk(log + [e])
  {
    forall i | 0 <= i < |log| + 1 ensures InTime((log + [e])[..i], (log + [e])[i]) {
      if i < |log| {
        assert (log + [e])[..i] == log[..i];
      } else {
        assert (log + [e])[..i] == log;
      }
    }
  }

  lemma SendOk(s: Sender, id: Id, kind: nat, generation: nat, now: int, accepted: bool)
    requires SenderOk(s) && id !in s.used
    ensures SenderOk(Send(s, id, kind, generation, now, accepted))
  {
    var e := if accepted then Transmitted(id, now) else Completed(id, false);
    var t := Send(s, id, kind, generation, now, accepted);
    assert CommandOk(s, id);
    forall other ensures CommandOk(t, other) {
      assert CommandOk(s, other);
      LogCounts(s.log, e, other);
    }
    LogInTime(s.log, e);
  }

  /** One entry of one command is logged; the other commands stay as they are. */
  lemma EntryOk(s: Sender, t: Sender, e: Entry)
    requires CountsOk(s) && t.log == s.log + [e] && InTime(s.log, e) && t.used == s.used
    requires forall id :: id != e.id ==> (id in t.pending <==> id in s.pending)
    requires forall id :: id != e.id && id in s.pending ==> t.pending[id] == s.pending[id]
    requires CommandOk(t, e.id)
    ensures CountsOk(t)
  {
    forall id ensures CommandOk(t, id) {
      if id != e.id {
        assert CommandOk(s, id);
        LogCounts(s.log, e, id);
      }
    }
    LogInTime(s.log, e);
  }

  lemma RetriedOk(s: Sender, id: Id, now: int)
    requires CountsOk(s) && id in s.pending && now - s.pending[id].sentMs >= TIMEOUT_MS
    requires s.pending[id].attempts < MAX_ATTEMPTS
    ensures CountsOk(Check(s, id, now, true))
  {
    assert CommandOk(s, id);
    LogCounts(s.log, Transmitted(id, now), id);
    EntryOk(s, Check(s, id, now, true), Transmitted(id, now));
  }

  /** The command is no longer pending: a second transmission was refused, or the time is up. */
  lemma EndedOk(s: Sender, id: Id, e: Entry)
    requires CountsOk(s) && id in s.pending && e.id == id && !e.Transmitted? && InTime(s.log, e)
    ensures CountsOk(Log(s.(pending := s.pending - {id}), e))
  {
    assert CommandOk(s, id);
    LogCounts(s.log, e, id);
    EntryOk(s, Log(s.(pending := s.pending - {id}), e), e);
  }

  lemma CheckOk(s: Sender, id: Id, now: int, accepted: bool)
    requires CountsOk(s)
    ensures CountsOk(Check(s, id, now, accepted))
    ensures Check(s, id, now, accepted).pending.Keys <= s.pending.Keys
    ensures Check(s, id, now, accepted).timer == s.timer
  {
    if id in s.pending && now - s.pending[id].sentMs >= TIMEOUT_MS {
      if s.pending[id].attempts < MAX_ATTEMPTS {
        if accepted {
          RetriedOk(s, id, now);
        } else {
          EndedOk(s, id, Completed(id, false));
        }
      } else {
        assert CommandOk(s, id);
        EndedOk(s, id, TimedOut(id, now));
      }
    }
  }

  lemma {:induction false} CheckAllOk(s: Sender, order: seq<Id>, now: int, accepts: set<Id>)
    requires CountsOk(s)
    ensures CountsOk(CheckAll(s, order, now, accepts))
    ensures CheckAll(s, order, now, accepts).pending.Keys <= s.pending.Keys
    ensures CheckAll(s, order, now, accepts).timer == s.timer
    decreases |order|
  {
    if order != [] {
      CheckOk(s, order[0], now, order[0] in accepts);
      CheckAllOk(Check(s, order[0], now, order[0] in accepts), order[1..], now, accepts);
    }
  }

  lemma TickOk(s: Sender, order: seq<Id>, now: int, accepts: set<Id>)
    requires SenderOk(s)
    ensures SenderOk(Tick(s, order, now, accepts))
  {
    CheckAllOk(s, order, now, accepts);
    var t := CheckAll(s, order, now, accepts);
    forall id ensures CommandOk(StopIfIdle(t), id) {
      assert CommandOk(t, id);
    }
    assert s.pending == map[] ==> t.pending == map[];
  }

  lemma TakeResultOk(s: Sender, r: Result, generation: nat)
    requires SenderOk(s)
    ensures SenderOk(TakeResult(s, r, generation))
  {
    var t := TakeResult(s, r, generation);
    if t != s {
      var e := Completed(r.id, r.success);
      assert t.log == s.log + [e];
      assert CommandOk(s, r.id);
      forall other ensures CommandOk(t, other) {
        assert CommandOk(s, other);
        LogCounts(s.log, e, other);
      }
      LogInTime(s.log, e);
    }
  }

  /** A listing of the pending ids, each once. */
  ghost predicate Lists(order: seq<Id>, ids: set<Id>) {
    && (forall i, j :: 0 <= i < j < |order| ==> order[i] != order[j])
    && (forall id :: id in ids <==> id in order)
  }

  /** Commands that were pending and are neither pending nor ended yet. */
  ghost predicate Ending(s: Sender, order: seq<Id>) {
    && s.pending == map[] && TimesOk(s.log)
    && (forall id :: id !in order ==> CommandOk(s, id))
    && (forall i, j :: 0 <= i < j < |order| ==> order[i] != order[j])
    && (forall id :: id in order ==>
          id in s.used && 1 <= Transmissions(s.log, id) <= MAX_ATTEMPTS && Ends(s.log, id) == 0)
  }

  lemma EndOne(s: Sender, order: seq<Id>, e: Entry)
    requires Ending(s, order) && order != [] && !e.Transmitted? && !e.TimedOut? && e.id == order[0]
    ensures Ending(Log(s, e), order[1..])
  {
    var t := Log(s, e);
    LogInTime(s.log, e);
    forall id ensures Transmissions(t.log, id) == Transmissions(s.log, id)
                   && Ends(t.log, id) == Ends(s.log, id) + (if id == e.id then 1 else 0) {
      LogCounts(s.log, e, id);
    }
    assert forall id :: id in order <==> id == order[0] || id in order[1..];
    forall id | id !in order[1..] ensures CommandOk(t, id) {
      assert id != order[0] ==> CommandOk(s, id);
    }
  }

  lemma {:induction false} EndAll(s: Sender, order: seq<Id>)
    requires Ending(s, order)
    ensures CountsOk(DropAll(s, order)) && CountsOk(CompleteAll(s, order))
    ensures DropAll(s, order).pending == CompleteAll(s, order).pending == map[]
    ensures DropAll(s, order).timer == CompleteAll(s, order).timer == s.timer
    decreases |order|
  {
    if order != [] {
      EndOne(s, order, Dropped(order[0]));
      EndOne(s, order, Completed(order[0], false));
      EndAll(Log(s, Dropped(order[0])), order[1..]);
      EndAll(Log(s, Completed(order[0], false)), order[1..]);
    }
  }

  lemma ClearOk(s: Sender, order: seq<Id>)
    requires SenderOk(s) && Lists(order, s.pending.Keys)
    ensures SenderOk(ClearSender(s, order)) && SenderOk(FailAll(s, order))
  {
    var t := s.(pending := map[], timer := false);
    forall id
      ensures id in order ==>
                id in s.used && 1 <= Transmissions(s.log, id) <= MAX_ATTEMPTS && Ends(s.log, id) == 0
      ensures id !in order ==> CommandOk(t, id)
    {
      assert CommandOk(s, id);
    }
    EndAll(t, order);
  }

  // ---------- every run of the sending side ----------

  datatype Call =
    | SendCall(id: Id, kind: nat, generation: nat, now: int, accepted: bool)
    | TickCall(order: seq<Id>, now: int, accepts: set<Id>)
    | ResultCall(result: Result, generation: nat)
    | FailAllCall(order: seq<Id>)
    | DropCall(order: seq<Id>)

  /** Request ids are fresh; the loops go over the pending ids. */
  ghost predicate Allowed(s: Sender, c: Call) {
    match c
    case SendCall(id, _, _, _, _) => id !in s.used
    case FailAllCall(order) => Lists(order, s.pending.Keys)
    case DropCall(order) => Lists(order, s.pending.Keys)
    case _ => true
  }

  function Apply(s: Sender, c: Call): Sender {
    match c
    case SendCall(id, kind, generation, now, accepted) => Send(s, id, kind, generation, now, accepted)
    case TickCall(order, now, accepts) => Tick(s, order, now, accepts)
    case ResultCall(r, generation) => TakeResult(s, r, generation)
    case FailAllCall(order) => FailAll(s, order)
    case DropCall(order) => ClearSender(s, order)
  }

  ghost predicate Runs(s: Sender, cs: seq<Call>)
    decreases |cs|
  {
    cs == [] || (Allowed(s, cs[0]) && Runs(Apply(s, cs[0]), cs[1..]))
  }

  function After(s: Sender, cs: seq<Call>): Sender
    decreases |cs|
  {
    if cs == [] then s else After(Apply(s, cs[0]), cs[1..])
  }

  lemma ApplyOk(s: Sender, c: Call)
    requires SenderOk(s) && Allowed(s, c)
    ensures SenderOk(Apply(s, c))
  {
    match c
    case SendCall(id, kind, generation, now, accepted) => SendOk(s, id, kind, generation, now, accepted);
    case TickCall(order, now, accepts) => TickOk(s, order, now, accepts);
    case ResultCall(r, generation) => TakeResultOk(s, r, generation);
    case FailAllCall(order) => ClearOk(s, order);
    case DropCall(order) => ClearOk(s, order);
  }

  lemma {:induction false} RunOk(s: Sender, cs: seq<Call>)
    requires SenderOk(s) && Runs(s, cs)
    ensures SenderOk(After(s, cs))
    decreases |cs|
  {
    if cs != [] {
      ApplyOk(s, cs[0]);
      RunOk(Apply(s, cs[0]), cs[1..]);
    }
  }

  /** In every run a command is transmitted at most twice; one that was ever transmitted has exactly
      one outcome (a completion, a timeout, or a drop by `clear`) unless it is still pending, and then
      it has none; one that timed out was transmitted twice; its second transmission and its timeout
      came no sooner than the timeout after the transmission before; and the timer runs exactly while
      something is pending. */
  lemma OneOutcome(cs: seq<Call>, id: Id)
    requires Runs(NEW_SENDER, cs)
    ensures var s := After(NEW_SENDER, cs);
            && Transmissions(s.log, id) <= MAX_ATTEMPTS
            && (Transmissions(s.log, id) >= 1 ==> Ends(s.log, id) == if id in s.pending then 0 else 1)
            && Ends(s.log, id) <= 1
            && TimesOk(s.log)
            && (s.timer <==> s.pending != map[])
  {
    assert SenderOk(NEW_SENDER);
    RunOk(NEW_SENDER, cs);
    assert CommandOk(After(NEW_SENDER, cs), id);
  }

  // ---------- the receiving side ----------

  /** `executed` are the results of the handlers that have run, `clears` how many had run at each clear
      of the cache, `replies` the results handed to the transmit function; the cache is a hash and the
      queue of its ids. */
  datatype Server = Server(results: map<Id, Result>, ids: seq<Id>, executed: seq<Result>, clears: seq<nat>,
                           replies: seq<Result>)
  {
    /** The executions before the last clear. */
    function Forgotten(): nat { if clears == [] then 0 else clears[|clears| - 1] }
  }

  const NEW_SERVER := Server(map[], [], [], [], [])

  function TrimCache(results: map<Id, Result>, ids: seq<Id>): (map<Id, Result>, seq<Id>)
    decreases |ids|
  {
    if |ids| <= CACHED then (results, ids) else TrimCache(results - {ids[0]}, ids[1..])
  }

  function Remember(s: Server, r: Result): Server {
    if r.id in s.results then s
    else
      var (results, ids) := TrimCache(s.results[r.id := r], s.ids + [r.id]);
      s.(results := results, ids := ids)
  }

  /** An incoming command; `success` and `error` are what its handler would answer now. */
  function TakeCommand(s: Server, id: Id, success: bool, error: nat): Server {
    if id in s.results then s.(replies := s.replies + [s.results[id]])
    else
      var r := Result(id, success, if success then 0 else error);
      Remember(s.(executed := s.executed + [r]), r).(replies := s.replies + [r])
  }

  /** `clear` and `failAll` on the receiving side. */
  function ClearServer(s: Server): Server {
    s.(results := map[], ids := [], clears := s.clears + [|s.executed|])
  }

  /** The cache for a stretch of executions: their ids, each once, and their results. */
  ghost predicate Caches(results: map<Id, Result>, ids: seq<Id>, window: seq<Result>) {
    && |ids| == |window|
    && (forall k :: 0 <= k < |ids| ==> ids[k] == window[k].id && ids[k] in results && results[ids[k]] == window[k])
    && (forall id :: id in results ==> id in ids)
    && (forall i, j :: 0 <= i < j < |ids| ==> ids[i] != ids[j])
  }

  function Newest(executed: seq<Result>): seq<Result> {
    if |executed| <= CACHED then executed else executed[|executed| - CACHED..]
  }

  /** The cache holds exactly the last 128 executions since the last clear. */
  ghost predicate ServerOk(s: Server) {
    s.Forgotten() <= |s.executed| && Caches(s.results, s.ids, Newest(s.executed[s.Forgotten()..]))
  }

  predicate ClearBetween(clears: seq<nat>, i: nat, j: nat) {
    exists k :: 0 <= k < |clears| && i < clears[k] <= j
  }

  /** Two executions of one request have a clear or at least 128 others between them. */
  predicate FarApart(executed: seq<Result>, clears: seq<nat>) {
    forall i, j :: 0 <= i < j < |executed| && executed[i].id == executed[j].id ==>
      j - i > CACHED || ClearBetween(clears, i, j)
  }

  /** The request has run since the last clear and within the last 128 executions. */
  predicate Recent(s: Server, id: Id, i: nat) {
    s.Forgotten() <= i < |s.executed| && |s.executed| - i <= CACHED && s.executed[i].id == id
  }

  lemma RememberIs(s: Server, r: Result)
    requires |s.ids| <= CACHED && r.id !in s.results
    ensures Remember(s, r)
         == if |s.ids| < CACHED then s.(results := s.results[r.id := r], ids := s.ids + [r.id])
            else s.(results := s.results[r.id := r] - {s.ids[0]}, ids := s.ids[1..] + [r.id])
  {
    var ids := s.ids + [r.id];
    if |s.ids| == CACHED {
      assert ids[1..] == s.ids[1..] + [r.id];
      assert TrimCache(s.results[r.id := r] - {ids[0]}, ids[1..]) == (s.results[r.id := r] - {ids[0]}, ids[1..]);
    }
  }

  lemma CacheGrows(results: map<Id, Result>, ids: seq<Id>, window: seq<Result>, r: Result)
    requires Caches(results, ids, window) && r.id !in results
    ensures Caches(results[r.id := r], ids + [r.id], window + [r])
  {
  }

  lemma CacheSlides(results: map<Id, Result>, ids: seq<Id>, window: seq<Result>)
    requires Caches(results, ids, window) && ids != []
    ensures Caches(results - {ids[0]}, ids[1..], window[1..])
  {
    assert forall id :: id in ids <==> id == ids[0] || id in ids[1..];
  }

  lemma NewestAfter(executed: seq<Result>, r: Result)
    ensures Newest(executed + [r])
         == if |executed| < CACHED then Newest(executed) + [r] else (Newest(executed) + [r])[1..]
  {
  }

  lemma CacheSlidesBy(results: map<Id, Result>, ids: seq<Id>, window: seq<Result>, r: Result)
    requires Caches(results, ids, window) && r.id !in results && ids != []
    ensures Caches(results[r.id := r] - {ids[0]}, ids[1..] + [r.id], (window + [r])[1..])
  {
    CacheGrows(results, ids, window, r);
    CacheSlides(results[r.id := r], ids + [r.id], window + [r]);
    assert (ids + [r.id])[1..] == ids[1..] + [r.id];
  }

  /** The cache after one more execution. */
  lemma CacheAfter(results: map<Id, Result>, ids: seq<Id>, window: seq<Result>, r: Result)
    requires Caches(results, ids, Newest(window)) && r.id !in results
    ensures |ids| < CACHED ==> Caches(results[r.id := r], ids + [r.id], Newest(window + [r]))
    ensures |ids| == CACHED ==> Caches(results[r.id := r] - {ids[0]}, ids[1..] + [r.id], Newest(window + [r]))
  {
    NewestAfter(window, r);
    if |ids| < CACHED {
      CacheGrows(results, ids, Newest(window), r);
    } else {
      CacheSlidesBy(results, ids, Newest(window), r);
    }
  }

  lemma ForgottenStays(s: Server, r: Result)
    requires s.Forgotten() <= |s.executed|
    ensures var t := s.(executed := s.executed + [r]);
            t.Forgotten() == s.Forgotten() && t.executed[t.Forgotten()..] == s.executed[s.Forgotten()..] + [r]
  {
  }

  lemma ExecuteOk(s: Server, r: Result)
    requires ServerOk(s) && r.id !in s.results
    ensures ServerOk(Remember(s.(executed := s.executed + [r]), r))
  {
    RememberIs(s.(executed := s.executed + [r]), r);
    ForgottenStays(s, r);
    CacheAfter(s.results, s.ids, s.executed[s.Forgotten()..], r);
  }

  /** A recent execution is in the cache, and nothing else is. */
  lemma CachedIsRecent(s: Server, i: nat)
    requires ServerOk(s) && s.Forgotten() <= i < |s.executed| && |s.executed| - i <= CACHED
    ensures s.executed[i].id in s.results && s.results[s.executed[i].id] == s.executed[i]
  {
    var k := i - (|s.executed| - |s.ids|);
    assert Newest(s.executed[s.Forgotten()..])[k] == s.executed[i];
    assert s.ids[k] == s.executed[i].id;
  }

  lemma CachedHasRun(s: Server, id: Id)
    requires ServerOk(s) && id in s.results
    ensures exists i: nat :: Recent(s, id, i)
  {
    var k :| 0 <= k < |s.ids| && s.ids[k] == id;
    var i := k + (|s.executed| - |s.ids|);
    assert Newest(s.executed[s.Forgotten()..])[k] == s.executed[i];
    assert Recent(s, id, i);
  }

  lemma KeepsExecuted(s: Server, r: Result)
    ensures Remember(s, r).executed == s.executed && Remember(s, r).replies == s.replies
    ensures Remember(s, r).clears == s.clears
  {
  }

  /** Whether a delivered command runs: exactly when it has not run recently; otherwise it is answered
      with the result of its recent run. */
  lemma RunsExactly(s: Server, id: Id, success: bool, error: nat)
    requires ServerOk(s)
    ensures var t := TakeCommand(s, id, success, error);
            && (if exists i: nat :: Recent(s, id, i) then t.executed == s.executed
                else t.executed == s.executed + [Result(id, success, if success then 0 else error)])
            && (forall i: nat :: Recent(s, id, i) ==> t.replies == s.replies + [s.executed[i]])
            && t.clears == s.clears
  {
    if id in s.results {
      CachedHasRun(s, id);
      forall i: nat | Recent(s, id, i) ensures s.results[id] == s.executed[i] {
        CachedIsRecent(s, i);
      }
    } else {
      var r := Result(id, success, if success then 0 else error);
      KeepsExecuted(s.(executed := s.executed + [r]), r);
      forall i: nat | Recent(s, id, i) ensures false {
        CachedIsRecent(s, i);
      }
    }
  }

  /** The cache is a faithful window on the executions, and no request runs twice inside it. */
  lemma TakeCommandOk(s: Server, id: Id, success: bool, error: nat)
    requires ServerOk(s) && FarApart(s.executed, s.clears)
    ensures var t := TakeCommand(s, id, success, error);
            ServerOk(t) && FarApart(t.executed, t.clears)
  {
    RunsExactly(s, id, success, error);
    if id !in s.results {
      var r := Result(id, success, if success then 0 else error);
      ExecuteOk(s, r);
      forall i | 0 <= i < |s.executed| && s.executed[i].id == id
        ensures |s.executed| - i > CACHED || ClearBetween(s.clears, i, |s.executed|)
      {
        NotRecent(s, id, i);
      }
      RunApart(s.executed, s.clears, r);
      KeepsExecuted(s.(executed := s.executed + [r]), r);
    }
  }

  lemma NotRecent(s: Server, id: Id, i: nat)
    requires ServerOk(s) && i < |s.executed| && s.executed[i].id == id && id !in s.results
    ensures |s.executed| - i > CACHED || ClearBetween(s.clears, i, |s.executed|)
  {
    if s.Forgotten() <= i && |s.executed| - i <= CACHED {
      CachedIsRecent(s, i);
    } else if i < s.Forgotten() {
      assert i < s.clears[|s.clears| - 1] <= |s.executed|;
    }
  }

  lemma RunApart(executed: seq<Result>, clears: seq<nat>, r: Result)
    requires FarApart(executed, clears)
    requires forall i :: 0 <= i < |executed| && executed[i].id == r.id ==>
               |executed| - i > CACHED || ClearBetween(clears, i, |executed|)
    ensures FarApart(executed + [r], clears)
  {
  }

  lemma ClearServerOk(s: Server)
    requires ServerOk(s) && FarApart(s.executed, s.clears)
    ensures var t := ClearServer(s); ServerOk(t) && FarApart(t.executed, t.clears)
  {
    var t := ClearServer(s);
    assert t.executed[t.Forgotten()..] == [];
    forall i: nat, j: nat | ClearBetween(s.clears, i, j) ensures ClearBetween(t.clears, i, j) {
      var k :| 0 <= k < |s.clears| && i < s.clears[k] <= j;
      assert t.clears[k] == s.clears[k];
    }
  }

  datatype ServerCall = Deliver(id: Id, success: bool, error: nat) | ClearCall

  function ServeOne(s: Server, c: ServerCall): Server {
    match c
    case Deliver(id, success, error) => TakeCommand(s, id, success, error)
    case ClearCall => ClearServer(s)
  }

  function Serve(s: Server, cs: seq<ServerCall>): Server
    decreases |cs|
  {
    if cs == [] then s else Serve(ServeOne(s, cs[0]), cs[1..])
  }

  lemma {:induction false} ServeOk(s: Server, cs: seq<ServerCall>)
    requires ServerOk(s) && FarApart(s.executed, s.clears)
    ensures ServerOk(Serve(s, cs)) && FarApart(Serve(s, cs).executed, Serve(s, cs).clears)
    decreases |cs|
  {
    if cs != [] {
      match cs[0] {
        case Deliver(id, success, error) => TakeCommandOk(s, id, success, error);
        case ClearCall => ClearServerOk(s);
      }
      ServeOk(ServeOne(s, cs[0]), cs[1..]);
    }
  }

  /** At most once: whatever is delivered, any number of times and in any order, and whenever the cache
      is cleared, two runs of one request's handler have a clear or at least 128 other runs between
      them. A request delivered again runs again if and only if since its last run the cache was
      cleared or 128 others have run; otherwise it is answered with the identical result. */
  lemma AtMostOnce(cs: seq<ServerCall>, again: Id, success: bool, error: nat)
    ensures var s := Serve(NEW_SERVER, cs);
            var t := TakeCommand(s, again, success, error);
            && FarApart(t.executed, t.clears)
            && (|t.executed| > |s.executed| <==> !exists i: nat :: Recent(s, again, i))
            && (forall i: nat :: Recent(s, again, i) ==>
                  t.executed == s.executed && t.replies == s.replies + [s.executed[i]])
  {
    ServeOk(NEW_SERVER, cs);
    var s := Serve(NEW_SERVER, cs);
    TakeCommandOk(s, again, success, error);
    RunsExactly(s, again, success, error);
  }

  // ---------- the dispatcher ----------

  class SessionCommandDispatcher {
    var pending: map<Id, Pending>
    var timer: bool
    var used: set<Id>
    var log: seq<Entry>
    var recentResults: map<Id, Result>
    var recentIds: seq<Id>
    var executed: seq<Result>
    var clears: seq<nat>
    var replies: seq<Result>

    function Sending(): Sender
      reads this
    {
      Sender(pending, timer, used, log)
    }

    function Serving(): Server
      reads this
    {
      Server(recentResults, recentIds, executed, clears, replies)
    }

    constructor ()
      ensures Sending() == NEW_SENDER && Serving() == NEW_SERVER
    {
      pending, timer, used, log := map[], false, {}, [];
      recentResults, recentIds, executed, clears, replies := map[], [], [], [], [];
    }

    method SendCommand(id: Id, kind: nat, generation: nat, now: int, accepted: bool)
      modifies this`pending, this`timer, this`used, this`log
      ensures Sending() == Send(old(Sending()), id, kind, generation, now, accepted)
    {
      used := used + {id};
      if !accepted {
        log := log + [Completed(id, false)];
        return;
      }
      pending := pending[id := Pending(kind, now, 1, generation)];
      timer := true;
      log := log + [Transmitted(id, now)];
    }

    method CheckPending(id: Id, now: int, accepted: bool)
      modifies this`pending, this`log
      ensures Sending() == Check(old(Sending()), id, now, accepted)
    {
      if id !in pending {
        return;
      }
      var p := pending[id];
      if now - p.sentMs < TIMEOUT_MS {
        return;
      }
      if p.attempts < MAX_ATTEMPTS {
        if accepted {
          pending := pending[id := p.(attempts := p.attempts + 1, sentMs := now)];
          log := log + [Transmitted(id, now)];
          return;
        }
        pending := pending - {id};
        log := log + [Completed(id, false)];
        return;
      }
      pending := pending - {id};
      log := log + [TimedOut(id, now)];
    }

    method HandleTimer(order: seq<Id>, now: int, accepts: set<Id>)
      modifies this`pending, this`timer, this`log
      ensures Sending() == Tick(old(Sending()), order, now, accepts)
    {
      var i := 0;
      while i < |order|
        invariant i <= |order|
        invariant CheckAll(Sending(), order[i..], now, accepts) == CheckAll(old(Sending()), order, now, accepts)
      {
        CheckPending(order[i], now, order[i] in accepts);
        i := i + 1;
      }
      if pending == map[] {
        timer := false;
      }
    }

    method HandleCommandResult(r: Result, generation: nat)
      modifies this`pending, this`timer, this`log
      ensures Sending() == TakeResult(old(Sending()), r, generation)
    {
      if r.id !in pending || pending[r.id].generation != generation {
        return;
      }
      pending := pending - {r.id};
      if pending == map[] {
        timer := false;
      }
      log := log + [Completed(r.id, r.success)];
    }

    method RememberCommandResult(r: Result)
      modifies this`recentResults, this`recentIds
      ensures Serving() == Remember(old(Serving()), r)
    {
      if r.id in recentResults {
        return;
      }
      recentResults := recentResults[r.id := r];
      recentIds := recentIds + [r.id];
      while |recentIds| > CACHED
        invariant TrimCache(recentResults, recentIds)
               == TrimCache(old(recentResults)[r.id := r], old(recentIds) + [r.id])
        decreases |recentIds|
      {
        recentResults := recentResults - {recentIds[0]};
        recentIds := recentIds[1..];
      }
    }

    /** `success` and `error` are what the registered handler answers, if it is called. */
    method HandleIncomingCommand(id: Id, success: bool, error: nat)
      modifies this`recentResults, this`recentIds, this`executed, this`replies
      ensures Serving() == TakeCommand(old(Serving()), id, success, error)
    {
      if id in recentResults {
        replies := replies + [recentResults[id]];
        return;
      }
      var r := Result(id, success, if success then 0 else error);
      executed := executed + [r];
      RememberCommandResult(r);
      replies := replies + [r];
    }

    /** `order` lists the pending commands that are dropped. */
    method Clear(order: seq<Id>)
      modifies this
      ensures Sending() == ClearSender(old(Sending()), order)
      ensures Serving() == ClearServer(old(Serving()))
    {
      timer := false;
      pending := map[];
      recentResults := map[];
      recentIds, clears := [], clears + [|executed|];
      var i := 0;
      while i < |order|
        invariant i <= |order|
        invariant DropAll(Sending(), order[i..]) == ClearSender(old(Sending()), order)
        invariant Serving() == ClearServer(old(Serving()))
      {
        log := log + [Dropped(order[i])];
        i := i + 1;
      }
    }

    method FailAllPending(order: seq<Id>)
      modifies this
      ensures Sending() == FailAll(old(Sending()), order)
      ensures Serving() == ClearServer(old(Serving()))
    {
      timer := false;
      pending := map[];
      recentResults := map[];
      recentIds, clears := [], clears + [|executed|];
      var i := 0;
      while i < |order|
        invariant i <= |order|
        invariant CompleteAll(Sending(), order[i..]) == FailAll(old(Sending()), order)
        invariant Serving() == ClearServer(old(Serving()))
      {
        log := log + [Completed(order[i], false)];
        i := i + 1;
      }
    }
  }
}
