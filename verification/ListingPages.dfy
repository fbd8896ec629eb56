/** The paged listing exchange: the owner of a directory cuts its listing into pages, hands out a
    token for the next one and retains the last listings; the client collects the pages. */
module ListingPages {
  import opened Wrappers

  const PAGE_ENTRIES: nat := 256
  const RETAINED: nat := 32
  const MAX_ENTRIES: nat := 50000
  /** (MAX_ENTRIES + PAGE_ENTRIES - 1) / PAGE_ENTRIES */
  const MAX_PAGES: nat := 196

  /** A directory entry, by its content. */
  type Entry = nat

  /** Listings and tokens are fresh identifiers, drawn from the owner's counter. */
  type Id = nat

  datatype Error = StalePageToken | EntryTooLarge | ListingTooLarge | ListingChanged | InvalidPageToken

  datatype Reply =
    | Page(listing: Id, entries: seq<Entry>, next: Option<Id>)
    | Failure(code: Error)

  // ---------- the owner ----------

  datatype Position = Position(listing: Id, offset: nat)

  datatype Owner = Owner(
    listings: map<Id, seq<Entry>>,
    order: seq<Id>,
    tokens: map<Id, Position>,
    counter: Id)

  /** Where the page that starts at `from` ends, when it has reached `end`: at 256 entries, at the end
      of the listing, or before the entry that makes the encoded reply too large. */
  function PageEnd(entries: seq<Entry>, from: nat, end: nat, fits: seq<Entry> -> bool): (r: nat)
    requires from <= end <= |entries|
    ensures end <= r <= |entries|
    decreases |entries| - end
  {
    if end < |entries| && end - from < PAGE_ENTRIES && fits(entries[from..end + 1])
    then PageEnd(entries, from, end + 1, fits)
    else end
  }

  function SendPage(o: Owner, listing: Id, entries: seq<Entry>, from: nat, fits: seq<Entry> -> bool): (Owner, Reply)
    requires from <= |entries|
  {
    var end := PageEnd(entries, from, from, fits);
    if end == from && from < |entries| then (o, Failure(EntryTooLarge))
    else if end == |entries| then (o, Page(listing, entries[from..end], None))
    else (o.(tokens := o.tokens[o.counter := Position(listing, end)], counter := o.counter + 1),
          Page(listing, entries[from..end], Some(o.counter)))
  }

  /** The newest listings, up to the limit. */
  function Trim(listings: map<Id, seq<Entry>>, order: seq<Id>): (map<Id, seq<Entry>>, seq<Id>)
    decreases |order|
  {
    if |order| <= RETAINED then (listings, order)
    else Trim(listings - {order[0]}, order[1..])
  }

  function Retain(o: Owner, listing: Id, entries: seq<Entry>): Owner {
    var (listings, order) := Trim(o.listings[listing := entries], o.order + [listing]);
    o.(listings := listings, order := order)
  }

  /** A listing is published under a fresh id and its first page goes out. */
  function Publish(o: Owner, entries: seq<Entry>, fits: seq<Entry> -> bool): (Owner, Reply) {
    SendPage(Retain(o.(counter := o.counter + 1), o.counter, entries), o.counter, entries, 0, fits)
  }

  /** A request for a further page: the token is consumed; a listing that is no longer retained is
      answered with silence. */
  function NextPage(o: Owner, token: Id, fits: seq<Entry> -> bool): (Owner, Option<Reply>) {
    if token !in o.tokens then (o, Some(Failure(StalePageToken)))
    else
      var p := o.tokens[token];
      var q := o.(tokens := o.tokens - {token});
      if p.listing !in o.listings || p.offset > |o.listings[p.listing]| then (q, None)
      else
        var (r, reply) := SendPage(q, p.listing, o.listings[p.listing], p.offset, fits);
        (r, Some(reply))
  }

  // ---------- the client ----------

  datatype Pane = Pane(
    pending: bool,            // the request id of the exchange is still set
    pages: nat,
    listing: Option<Id>,
    entries: seq<Entry>,
    seen: set<Id>,
    shown: Option<seq<Entry>>,
    error: Option<Error>)

  const FIRST_REQUEST := Pane(true, 0, None, [], {}, None, None)

  function GiveUp(p: Pane, code: Error): Pane {
    p.(entries := [], pending := false, error := Some(code))
  }

  /** `handleListingResponse`, and the token of the page it asks for next. */
  function TakePage(p: Pane, listing: Id, entries: seq<Entry>, next: Option<Id>): (Pane, Option<Id>) {
    var q := p.(pages := p.pages + 1);
    if !p.pending then (p, None)
    else if q.pages > MAX_PAGES || |p.entries| + |entries| > MAX_ENTRIES then (GiveUp(q, ListingTooLarge), None)
    else if p.listing.Some? && p.listing.value != listing then (GiveUp(q, ListingChanged), None)
    else
      var r := q.(listing := Some(listing), entries := p.entries + entries);
      match next
      case None => (r.(entries := [], pending := false, seen := {}, shown := Some(r.entries)), None)
      case Some(token) =>
        if token in p.seen then (GiveUp(r, InvalidPageToken), None)
        else (r.(seen := p.seen + {token}), Some(token))
  }

  /** An error reply clears what was collected and is reported. */
  function TakeFailure(p: Pane, code: Error): Pane {
    if p.pending then p.(entries := [], error := Some(code)) else p
  }

  // ---------- pages ----------

  /** The page is as long as it may be, and no longer. */
  lemma {:induction false} PageEndIsMaximal(entries: seq<Entry>, from: nat, end: nat, fits: seq<Entry> -> bool)
    requires from <= end <= |entries| && end - from <= PAGE_ENTRIES
    requires forall k :: from < k <= end ==> fits(entries[from..k])
    ensures var r := PageEnd(entries, from, end, fits);
            && r - from <= PAGE_ENTRIES
            && (forall k :: from < k <= r ==> fits(entries[from..k]))
            && (r == |entries| || r - from == PAGE_ENTRIES || !fits(entries[from..r + 1]))
    decreases |entries| - end
  {
    if end < |entries| && end - from < PAGE_ENTRIES && fits(entries[from..end + 1]) {
      PageEndIsMaximal(entries, from, end + 1, fits);
    }
  }

  /** How many pages the listing takes from an offset on, if every page has an entry. */
  function PagesFrom(entries: seq<Entry>, from: nat, fits: seq<Entry> -> bool): (r: Option<nat>)
    requires from <= |entries|
    decreases |entries| - from
  {
    var end := PageEnd(entries, from, from, fits);
    if end == |entries| then Some(1)
    else if end == from then None
    else
      var rest := PagesFrom(entries, end, fits);
      if rest.None? then None else Some(1 + rest.value)
  }

  /** The whole listing can be transferred: no entry is too large for a page of its own, and the
      client's limits on pages and entries hold. */
  predicate Listable(entries: seq<Entry>, fits: seq<Entry> -> bool) {
    var pages := PagesFrom(entries, 0, fits);
    pages.Some? && pages.value <= MAX_PAGES && |entries| <= MAX_ENTRIES
  }

  // ---------- the exchange ----------

  datatype Stage = Asking(token: Id) | Answering(reply: Reply) | Ended

  /** `lost`: the control path has refused a message of the exchange. */
  datatype Exchange = Exchange(owner: Owner, pane: Pane, stage: Stage, lost: bool)

  /** `PublishOther` is any other listing the owner publishes in between; `Refused` means that the
      control path refuses the request or the reply under way, which nothing in the exchange notices. */
  datatype Step = OwnerAnswers | ClientTakes | PublishOther(entries: seq<Entry>) | Refused

  predicate Enabled(x: Exchange, step: Step) {
    match step
    case OwnerAnswers => x.stage.Asking?
    case ClientTakes => x.stage.Answering?
    case PublishOther(_) => true
    case Refused => !x.stage.Ended?
  }

  function Answer(x: Exchange, fits: seq<Entry> -> bool): Exchange
    requires x.stage.Asking?
  {
    var (o, reply) := NextPage(x.owner, x.stage.token, fits);
    x.(owner := o, stage := if reply.None? then Ended else Answering(reply.value))
  }

  function Take(x: Exchange): Exchange
    requires x.stage.Answering?
  {
    match x.stage.reply
    case Failure(code) => x.(pane := TakeFailure(x.pane, code), stage := Ended)
    case Page(listing, entries, next) =>
      var (p, token) := TakePage(x.pane, listing, entries, next);
      x.(pane := p, stage := if token.None? then Ended else Asking(token.value))
  }

  function Next(x: Exchange, step: Step, fits: seq<Entry> -> bool): Exchange
    requires Enabled(x, step)
  {
    match step
    case OwnerAnswers => Answer(x, fits)
    case ClientTakes => Take(x)
    case PublishOther(entries) => x.(owner := Publish(x.owner, entries, fits).0)
    case Refused => x.(stage := Ended, lost := true)
  }

  /** The owner published the entries as its listing `id` for this client's first request. */
  function Opened(o: Owner, entries: seq<Entry>, fits: seq<Entry> -> bool): Exchange {
    var (q, reply) := Publish(o, entries, fits);
    Exchange(q, FIRST_REQUEST, Answering(reply), false)
  }

  predicate Distinct(ids: seq<Id>) {
    forall i, j :: 0 <= i < j < |ids| ==> ids[i] != ids[j]
  }

  ghost predicate OwnerOk(o: Owner) {
    && |o.order| <= RETAINED && Distinct(o.order)
    && (forall id :: id in o.listings <==> id in o.order)
    && (forall id :: id in o.listings ==> id < o.counter)
    && (forall t :: t in o.tokens ==> t < o.counter)
  }

  /** The pages taken and the pages left add up. */
  predicate Counts(entries: seq<Entry>, fits: seq<Entry> -> bool, from: nat, taken: nat) {
    && from <= |entries|
    && var all, rest := PagesFrom(entries, 0, fits), PagesFrom(entries, from, fits);
       if rest.None? then all.None? else all == Some(taken + rest.value)
  }

  /** Between the pages of listing `id`. */
  ghost predicate Inv(x: Exchange, id: Id, entries: seq<Entry>, fits: seq<Entry> -> bool) {
    && OwnerOk(x.owner) && id < x.owner.counter
    && (id in x.owner.listings ==> x.owner.listings[id] == entries)
    && (forall t :: t in x.pane.seen ==> t < x.owner.counter)
    && match x.stage
       case Asking(token) =>
         && x.pane.pending && x.pane.error.None? && x.pane.shown.None? && x.pane.listing == Some(id)
         && token in x.owner.tokens && x.owner.tokens[token].listing == id
         && token in x.pane.seen && (forall t :: t in x.pane.seen && t in x.owner.tokens ==> t == token)
         && var from := x.owner.tokens[token].offset;
            from < |entries| && x.pane.entries == entries[..from] && Counts(entries, fits, from, x.pane.pages)
            && x.pane.pages <= MAX_PAGES && from <= MAX_ENTRIES
       case Answering(reply) =>
         && x.pane.pending && x.pane.error.None? && x.pane.shown.None?
         && (x.pane.listing == None || x.pane.listing == Some(id))
         && (forall t :: t in x.pane.seen ==> t !in x.owner.tokens)
         && |x.pane.entries| <= |entries| && x.pane.entries == entries[..|x.pane.entries|]
         && Counts(entries, fits, |x.pane.entries|, x.pane.pages)
         && ReplyOk(x, id, entries, fits, reply)
       case Ended => EndedOk(x, id, entries, fits)
  }

  predicate ReplyOk(x: Exchange, id: Id, entries: seq<Entry>, fits: seq<Entry> -> bool, reply: Reply)
    requires |x.pane.entries| <= |entries|
  {
    var from := |x.pane.entries|;
    var end := PageEnd(entries, from, from, fits);
    match reply
    case Failure(code) => code == EntryTooLarge && end == from < |entries|
    case Page(listing, page, next) =>
      && listing == id && page == entries[from..end] && (end == from ==> from == |entries|)
      && (next.None? <==> end == |entries|)
      && (next.Some? ==> next.value in x.owner.tokens && x.owner.tokens[next.value] == Position(id, end)
                         && next.value < x.owner.counter)
  }

  /** An exchange that has ended shows exactly the owner's entries, or reports an error, or has met
      silence because the listing is no longer retained or a message was refused. */
  predicate EndedOk(x: Exchange, id: Id, entries: seq<Entry>, fits: seq<Entry> -> bool) {
    || (x.pane.shown == Some(entries) && x.pane.error.None? && Listable(entries, fits))
    || (x.pane.shown.None? && x.pane.error.Some? && !Listable(entries, fits))
    || (x.pane.shown.None? && x.pane.error.None? && (x.lost || id !in x.owner.listings))
  }

  // ---------- the owner's listings ----------

  /** At most the oldest listing goes. */
  lemma RetainDropsOldest(o: Owner, listing: Id, entries: seq<Entry>)
    requires |o.order| <= RETAINED
    ensures Retain(o, listing, entries)
         == if |o.order| < RETAINED
            then o.(listings := o.listings[listing := entries], order := o.order + [listing])
            else o.(listings := o.listings[listing := entries] - {o.order[0]}, order := o.order[1..] + [listing])
  {
    var order := o.order + [listing];
    if |o.order| == RETAINED {
      assert order[1..] == o.order[1..] + [listing];
      assert Trim(o.listings[listing := entries] - {order[0]}, order[1..])
          == (o.listings[listing := entries] - {order[0]}, order[1..]);
    }
  }

  lemma OrderAfter(order: seq<Id>, listing: Id)
    requires Distinct(order) && listing !in order
    ensures Distinct(order + [listing])
    ensures forall id :: id in order + [listing] <==> id in order || id == listing
    ensures order != [] ==> Distinct(order[1..] + [listing])
    ensures order != [] ==>
              forall id :: id in order[1..] + [listing] <==> (id in order && id != order[0]) || id == listing
  {
    if order != [] {
      assert forall id :: id in order <==> id == order[0] || id in order[1..];
    }
  }

  lemma RetainOk(o: Owner, listing: Id, entries: seq<Entry>)
    requires OwnerOk(o) && listing < o.counter && listing !in o.listings
    ensures var r := Retain(o, listing, entries);
            && OwnerOk(r) && r.tokens == o.tokens && r.counter == o.counter
            && listing in r.listings && r.listings[listing] == entries
            && (forall id :: id in r.listings && id != listing ==> id in o.listings && r.listings[id] == o.listings[id])
  {
    RetainDropsOldest(o, listing, entries);
    OrderAfter(o.order, listing);
  }

  lemma SendPageOk(o: Owner, listing: Id, entries: seq<Entry>, from: nat, fits: seq<Entry> -> bool)
    requires OwnerOk(o) && from <= |entries|
    ensures var q := SendPage(o, listing, entries, from, fits).0;
            && OwnerOk(q) && q.listings == o.listings && q.counter >= o.counter
            && (forall t :: t in o.tokens ==> t in q.tokens && q.tokens[t] == o.tokens[t])
            && (forall t :: t in q.tokens && t !in o.tokens ==> t >= o.counter)
  {
  }

  /** A further listing touches neither the tokens of the others nor a retained listing's entries. */
  lemma PublishOk(o: Owner, entries: seq<Entry>, fits: seq<Entry> -> bool)
    requires OwnerOk(o)
    ensures var q := Publish(o, entries, fits).0;
            && OwnerOk(q) && q.counter > o.counter
            && (forall t :: t in o.tokens ==> t in q.tokens && q.tokens[t] == o.tokens[t])
            && (forall t :: t in q.tokens && t !in o.tokens ==> t >= o.counter)
            && (forall id :: id in q.listings && id != o.counter ==>
                  id in o.listings && q.listings[id] == o.listings[id])
            && o.counter in q.listings && q.listings[o.counter] == entries
  {
    var p := o.(counter := o.counter + 1);
    RetainOk(p, o.counter, entries);
    SendPageOk(Retain(p, o.counter, entries), o.counter, entries, 0, fits);
  }

  // ---------- every step of the exchange ----------

  /** The reply for the page at `from`. */
  lemma SendPageReply(o: Owner, id: Id, entries: seq<Entry>, from: nat, fits: seq<Entry> -> bool, x: Exchange)
    requires from <= |entries|
    requires x.owner == SendPage(o, id, entries, from, fits).0 && |x.pane.entries| == from
    ensures ReplyOk(x, id, entries, fits, SendPage(o, id, entries, from, fits).1)
  {
  }

  lemma AnswerInv(x: Exchange, id: Id, entries: seq<Entry>, fits: seq<Entry> -> bool)
    requires Inv(x, id, entries, fits) && x.stage.Asking?
    ensures Inv(Answer(x, fits), id, entries, fits)
  {
    var o := x.owner.(tokens := x.owner.tokens - {x.stage.token});
    var from := x.owner.tokens[x.stage.token].offset;
    if id in x.owner.listings {
      SendPageOk(o, id, entries, from, fits);
      SendPageReply(o, id, entries, from, fits, Answer(x, fits));
    }
  }

  lemma CountsNext(entries: seq<Entry>, fits: seq<Entry> -> bool, from: nat, taken: nat)
    requires Counts(entries, fits, from, taken)
    ensures var end := PageEnd(entries, from, from, fits);
            && (end == |entries| ==> PagesFrom(entries, 0, fits) == Some(taken + 1))
            && (from < end < |entries| ==> Counts(entries, fits, end, taken + 1))
            && (end == from < |entries| ==> PagesFrom(entries, 0, fits).None?)
  {
  }

  lemma RestPositive(entries: seq<Entry>, fits: seq<Entry> -> bool, from: nat)
    requires from <= |entries|
    ensures PagesFrom(entries, from, fits).Some? ==> PagesFrom(entries, from, fits).value >= 1
  {
  }

  lemma TakeFailureInv(x: Exchange, id: Id, entries: seq<Entry>, fits: seq<Entry> -> bool)
    requires Inv(x, id, entries, fits) && x.stage.Answering? && x.stage.reply.Failure?
    ensures Inv(Take(x), id, entries, fits)
  {
    CountsNext(entries, fits, |x.pane.entries|, x.pane.pages);
  }

  lemma TakePageInv(x: Exchange, id: Id, entries: seq<Entry>, fits: seq<Entry> -> bool)
    requires Inv(x, id, entries, fits) && x.stage.Answering? && x.stage.reply.Page?
    ensures Inv(Take(x), id, entries, fits)
  {
    var from := |x.pane.entries|;
    var end := PageEnd(entries, from, from, fits);
    var reply := x.stage.reply;
    CountsNext(entries, fits, from, x.pane.pages);
    RestPositive(entries, fits, end);
    assert entries[..from] + entries[from..end] == entries[..end];
    if x.pane.pages + 1 > MAX_PAGES || end > MAX_ENTRIES {
      assert !Listable(entries, fits);
    } else if reply.next.None? {
      assert entries[..end] == entries;
    }
  }

  lemma PublishOtherInv(x: Exchange, other: seq<Entry>, id: Id, entries: seq<Entry>, fits: seq<Entry> -> bool)
    requires Inv(x, id, entries, fits)
    ensures Inv(Next(x, PublishOther(other), fits), id, entries, fits)
  {
    PublishOk(x.owner, other, fits);
  }

  lemma StepInv(x: Exchange, step: Step, id: Id, entries: seq<Entry>, fits: seq<Entry> -> bool)
    requires Inv(x, id, entries, fits) && Enabled(x, step)
    ensures Inv(Next(x, step, fits), id, entries, fits)
  {
    match step
    case OwnerAnswers => AnswerInv(x, id, entries, fits);
    case ClientTakes =>
      if x.stage.reply.Page? {
        TakePageInv(x, id, entries, fits);
      } else {
        TakeFailureInv(x, id, entries, fits);
      }
    case PublishOther(other) => PublishOtherInv(x, other, id, entries, fits);
    case Refused =>
  }

  lemma OpenedInv(o: Owner, entries: seq<Entry>, fits: seq<Entry> -> bool)
    requires OwnerOk(o)
    ensures Inv(Opened(o, entries, fits), o.counter, entries, fits)
  {
    var x := Opened(o, entries, fits);
    PublishOk(o, entries, fits);
    SendPageReply(Retain(o.(counter := o.counter + 1), o.counter, entries), o.counter, entries, 0, fits, x);
  }

  // ---------- every run of the exchange ----------

  predicate Runs(x: Exchange, steps: seq<Step>, fits: seq<Entry> -> bool)
    decreases |steps|
  {
    steps == [] || (Enabled(x, steps[0]) && Runs(Next(x, steps[0], fits), steps[1..], fits))
  }

  function After(x: Exchange, steps: seq<Step>, fits: seq<Entry> -> bool): Exchange
    requires Runs(x, steps, fits)
    decreases |steps|
  {
    if steps == [] then x else After(Next(x, steps[0], fits), steps[1..], fits)
  }

  /** The steps of the exchange itself. */
  function OwnSteps(steps: seq<Step>): nat {
    if steps == [] then 0 else (if steps[0].PublishOther? then 0 else 1) + OwnSteps(steps[1..])
  }

  /** What is left of the exchange: each page starts behind the one before. */
  function Left(x: Exchange, entries: seq<Entry>): int {
    match x.stage
    case Asking(token) =>
      if token in x.owner.tokens then 2 * (|entries| - x.owner.tokens[token].offset) + 2 else 0
    case Answering(_) => 2 * (|entries| - |x.pane.entries|) + 1
    case Ended => 0
  }

  lemma StepLeaves(x: Exchange, step: Step, id: Id, entries: seq<Entry>, fits: seq<Entry> -> bool)
    requires Inv(x, id, entries, fits) && Enabled(x, step)
    ensures Left(Next(x, step, fits), entries) + (if step.PublishOther? then 0 else 1) <= Left(x, entries)
  {
    match step
    case PublishOther(other) => PublishOk(x.owner, other, fits);
    case OwnerAnswers =>
    case Refused => LeftNonnegative(x, id, entries, fits);
    case ClientTakes => TakeLeaves(x, id, entries, fits);
  }

  lemma TakeLeaves(x: Exchange, id: Id, entries: seq<Entry>, fits: seq<Entry> -> bool)
    requires Inv(x, id, entries, fits) && x.stage.Answering?
    ensures Left(Take(x), entries) < Left(x, entries)
  {
    if x.stage.reply.Page? {
      assert |x.pane.entries| <= PageEnd(entries, |x.pane.entries|, |x.pane.entries|, fits);
    }
  }

  lemma {:induction false} RunInv(x: Exchange, steps: seq<Step>, id: Id, entries: seq<Entry>, fits: seq<Entry> -> bool)
    requires Inv(x, id, entries, fits) && Runs(x, steps, fits)
    ensures Inv(After(x, steps, fits), id, entries, fits)
    ensures Left(After(x, steps, fits), entries) + OwnSteps(steps) <= Left(x, entries)
    ensures After(x, steps, fits).lost <==> x.lost || Refused in steps
    decreases |steps|
  {
    if steps != [] {
      StepInv(x, steps[0], id, entries, fits);
      StepLeaves(x, steps[0], id, entries, fits);
      RunInv(Next(x, steps[0], fits), steps[1..], id, entries, fits);
    }
  }

  lemma LeftNonnegative(x: Exchange, id: Id, entries: seq<Entry>, fits: seq<Entry> -> bool)
    requires Inv(x, id, entries, fits)
    ensures Left(x, entries) >= 0
  {
  }

  /** A token is good for one page: asked for again, it is stale. */
  lemma TokenConsumed(o: Owner, token: Id, fits: seq<Entry> -> bool)
    requires OwnerOk(o) && token in o.tokens
    ensures NextPage(NextPage(o, token, fits).0, token, fits).1 == Some(Failure(StalePageToken))
  {
  }

  // ---------- how long a listing is retained ----------

  function PublishAll(o: Owner, listings: seq<seq<Entry>>, fits: seq<Entry> -> bool): Owner
    decreases |listings|
  {
    if listings == [] then o else PublishAll(Publish(o, listings[0], fits).0, listings[1..], fits)
  }

  lemma PublishOrder(o: Owner, entries: seq<Entry>, fits: seq<Entry> -> bool)
    requires OwnerOk(o)
    ensures Publish(o, entries, fits).0.order
         == (if |o.order| < RETAINED then o.order else o.order[1..]) + [o.counter]
  {
    var p := o.(counter := o.counter + 1);
    RetainDropsOldest(p, o.counter, entries);
  }

  lemma {:induction false} GoneForGood(o: Owner, id: Id, listings: seq<seq<Entry>>, fits: seq<Entry> -> bool)
    requires OwnerOk(o) && id < o.counter && id !in o.listings
    ensures id !in PublishAll(o, listings, fits).listings
    decreases |listings|
  {
    if listings != [] {
      PublishOk(o, listings[0], fits);
      GoneForGood(Publish(o, listings[0], fits).0, id, listings[1..], fits);
    }
  }

  lemma OldestGoes(o: Owner, entries: seq<Entry>, fits: seq<Entry> -> bool)
    requires OwnerOk(o) && |o.order| == RETAINED
    ensures o.order[0] !in Publish(o, entries, fits).0.listings
  {
    PublishOk(o, entries, fits);
    PublishOrder(o, entries, fits);
    OrderAfter(o.order, o.counter);
  }

  /** A further listing moves the others one place back, and the 32nd goes. */
  lemma PublishShifts(o: Owner, back: nat, entries: seq<Entry>, fits: seq<Entry> -> bool)
    requires OwnerOk(o) && back < |o.order|
    ensures var id := o.order[|o.order| - 1 - back];
            var q := Publish(o, entries, fits).0;
            && OwnerOk(q) && id in o.listings && id < q.counter
            && (if back + 1 == RETAINED then id !in q.listings
                else back + 1 < |q.order| && q.order[|q.order| - 2 - back] == id)
  {
    PublishOk(o, entries, fits);
    PublishOrder(o, entries, fits);
    assert o.order[|o.order| - 1 - back] in o.order;
    if back + 1 == RETAINED {
      OldestGoes(o, entries, fits);
    }
  }

  /** A listing is retained exactly while fewer than 32 others have been published after it. */
  lemma {:induction false} RetainedExactly(o: Owner, back: nat, listings: seq<seq<Entry>>, fits: seq<Entry> -> bool)
    requires OwnerOk(o) && back < |o.order|
    ensures o.order[|o.order| - 1 - back] in PublishAll(o, listings, fits).listings <==> back + |listings| < RETAINED
    decreases |listings|
  {
    var id := o.order[|o.order| - 1 - back];
    if listings == [] {
      assert id in o.order;
    } else {
      var q := Publish(o, listings[0], fits).0;
      PublishShifts(o, back, listings[0], fits);
      if back + 1 == RETAINED {
        GoneForGood(q, id, listings[1..], fits);
      } else {
        RetainedExactly(q, back + 1, listings[1..], fits);
      }
    }
  }

  // ---------- the round trip ----------

  function Others(steps: seq<Step>): nat {
    if steps == [] then 0 else (if steps[0].PublishOther? then 1 else 0) + Others(steps[1..])
  }

  lemma StepKeepsOrder(x: Exchange, step: Step, fits: seq<Entry> -> bool)
    requires Enabled(x, step) && !step.PublishOther?
    ensures Next(x, step, fits).owner.order == x.owner.order
  {
  }

  /** Where the listing is in the order when so many others have followed it. */
  predicate Placed(o: Owner, id: Id, others: nat) {
    if others < RETAINED then others < |o.order| && o.order[|o.order| - 1 - others] == id else id !in o.listings
  }

  function Followed(step: Step, others: nat): nat { if step.PublishOther? then others + 1 else others }

  lemma PlacedStep(x: Exchange, step: Step, id: Id, entries: seq<Entry>, fits: seq<Entry> -> bool, others: nat)
    requires Inv(x, id, entries, fits) && Enabled(x, step) && Placed(x.owner, id, others)
    ensures Placed(Next(x, step, fits).owner, id, Followed(step, others))
  {
    if !step.PublishOther? {
      StepKeepsOrder(x, step, fits);
    } else if others < RETAINED {
      PublishShifts(x.owner, others, step.entries, fits);
    } else {
      PublishOk(x.owner, step.entries, fits);
    }
  }

  /** During an exchange a listing stays exactly while fewer than 32 others have followed it. */
  lemma {:induction false} RetainedInRun(x: Exchange, steps: seq<Step>, id: Id, entries: seq<Entry>,
                                         fits: seq<Entry> -> bool, others: nat)
    requires Inv(x, id, entries, fits) && Runs(x, steps, fits) && Placed(x.owner, id, others)
    ensures id in After(x, steps, fits).owner.listings <==> others + Others(steps) < RETAINED
    decreases |steps|
  {
    if steps == [] {
      RetainedWhenPlaced(x.owner, id, others);
    } else {
      StepInv(x, steps[0], id, entries, fits);
      PlacedStep(x, steps[0], id, entries, fits, others);
      RetainedInRun(Next(x, steps[0], fits), steps[1..], id, entries, fits, Followed(steps[0], others));
    }
  }

  lemma RetainedWhenPlaced(o: Owner, id: Id, others: nat)
    requires OwnerOk(o) && Placed(o, id, others)
    ensures id in o.listings <==> others < RETAINED
  {
    assert others < RETAINED ==> o.order[|o.order| - 1 - others] in o.order;
  }

  /** A page was asked for when 32 other listings had followed. */
  predicate AskedTooLate(steps: seq<Step>, others: nat)
    decreases |steps|
  {
    steps != []
    && ((steps[0].OwnerAnswers? && others >= RETAINED) || AskedTooLate(steps[1..], Followed(steps[0], others)))
  }

  /** The exchange has ended, nothing was refused, and the client has neither entries nor an error. */
  predicate Silent(x: Exchange) {
    x.stage.Ended? && !x.lost && x.pane.shown.None? && x.pane.error.None?
  }

  lemma {:induction false} EndedStays(x: Exchange, steps: seq<Step>, fits: seq<Entry> -> bool, others: nat)
    requires x.stage.Ended? && Runs(x, steps, fits)
    ensures Silent(After(x, steps, fits)) <==> Silent(x)
    ensures !AskedTooLate(steps, others)
    decreases |steps|
  {
    if steps != [] {
      EndedStays(Next(x, steps[0], fits), steps[1..], fits, Followed(steps[0], others));
    }
  }

  /** The step on which silence falls. */
  lemma SilentStep(x: Exchange, step: Step, id: Id, entries: seq<Entry>, fits: seq<Entry> -> bool, others: nat)
    requires Inv(x, id, entries, fits) && Enabled(x, step) && !x.stage.Ended? && !x.lost
    requires Placed(x.owner, id, others)
    ensures Silent(Next(x, step, fits)) <==> step.OwnerAnswers? && others >= RETAINED
    ensures Next(x, step, fits).lost ==> Next(x, step, fits).stage.Ended?
  {
    RetainedWhenPlaced(x.owner, id, others);
    if step.ClientTakes? {
      TakeSpeaks(x, id, entries, fits);
    }
  }

  /** A reply that ends the exchange is shown or reported. */
  lemma TakeSpeaks(x: Exchange, id: Id, entries: seq<Entry>, fits: seq<Entry> -> bool)
    requires Inv(x, id, entries, fits) && x.stage.Answering?
    ensures !Silent(Take(x)) && Take(x).lost == x.lost
  {
  }

  lemma {:induction false} SilentExactly(x: Exchange, steps: seq<Step>, id: Id, entries: seq<Entry>,
                                         fits: seq<Entry> -> bool, others: nat)
    requires Inv(x, id, entries, fits) && Runs(x, steps, fits) && !x.stage.Ended? && !x.lost
    requires Placed(x.owner, id, others)
    ensures Silent(After(x, steps, fits)) <==> AskedTooLate(steps, others)
    decreases |steps|
  {
    if steps != [] {
      var y := Next(x, steps[0], fits);
      StepInv(x, steps[0], id, entries, fits);
      SilentStep(x, steps[0], id, entries, fits, others);
      if y.stage.Ended? {
        EndedStays(y, steps[1..], fits, Followed(steps[0], others));
      } else {
        PlacedStep(x, steps[0], id, entries, fits, others);
        SilentExactly(y, steps[1..], id, entries, fits, Followed(steps[0], others));
      }
    }
  }

  /** Round trip: whatever else the owner publishes in between and whatever the control path refuses,
      the exchange ends after a bounded number of its own steps. When nothing was refused, it ends in
      silence if and only if a page was asked for after 32 other listings; otherwise it ends with
      exactly the owner's entries when the listing can be transferred, and with a reported error when
      it cannot. */
  lemma ExchangeRoundTrip(o: Owner, entries: seq<Entry>, fits: seq<Entry> -> bool, steps: seq<Step>)
    requires OwnerOk(o) && Runs(Opened(o, entries, fits), steps, fits)
    ensures var x := After(Opened(o, entries, fits), steps, fits);
            && OwnSteps(steps) <= 2 * |entries| + 1
            && (o.counter in x.owner.listings <==> Others(steps) < RETAINED)
            && (Silent(x) <==> AskedTooLate(steps, 0))
            && (x.stage.Ended? && Refused !in steps && !AskedTooLate(steps, 0) ==>
                  && (Listable(entries, fits) <==> x.pane.shown == Some(entries) && x.pane.error.None?)
                  && (!Listable(entries, fits) <==> x.pane.shown.None? && x.pane.error.Some?))
            && (x.pane.shown.Some? ==> x.pane.shown == Some(entries))
  {
    var first := Opened(o, entries, fits);
    OpenedInv(o, entries, fits);
    RunInv(first, steps, o.counter, entries, fits);
    var x := After(first, steps, fits);
    LeftNonnegative(x, o.counter, entries, fits);
    PublishOrder(o, entries, fits);
    RetainedInRun(first, steps, o.counter, entries, fits, 0);
    SilentExactly(first, steps, o.counter, entries, fits, 0);
  }

  // ---------- silence ----------

  function Publications(others: seq<seq<Entry>>): seq<Step> {
    if others == [] then [] else [PublishOther(others[0])] + Publications(others[1..])
  }

  lemma {:induction false} PublicationsRun(x: Exchange, others: seq<seq<Entry>>, fits: seq<Entry> -> bool)
    ensures var steps := Publications(others);
            && Runs(x, steps, fits) && Others(steps) == |others| && Refused !in steps
            && After(x, steps, fits) == x.(owner := PublishAll(x.owner, others, fits))
    decreases |others|
  {
    if others != [] {
      PublicationsRun(Next(x, PublishOther(others[0]), fits), others[1..], fits);
      assert Publications(others)[1..] == Publications(others[1..]);
    }
  }

  /** A listing of several pages of which 32 others have been published before its second page is asked
      for: the owner does not answer, and the client neither shows anything nor reports an error. */
  lemma DroppedMeansSilence(o: Owner, entries: seq<Entry>, fits: seq<Entry> -> bool, others: seq<seq<Entry>>)
    requires OwnerOk(o) && 0 < PageEnd(entries, 0, 0, fits) < |entries|
    requires PageEnd(entries, 0, 0, fits) <= MAX_ENTRIES && |others| == RETAINED
    ensures var x := Take(Opened(o, entries, fits));
            && Opened(o, entries, fits).stage.Answering? && x.stage.Asking?
            && Runs(x, Publications(others), fits)
            && var y := After(x, Publications(others), fits);
            && y.stage.Asking?
            && var z := Answer(y, fits);
            && z.stage.Ended? && !z.lost && z.pane.shown.None? && z.pane.error.None?
  {
    var first := Opened(o, entries, fits);
    OpenedInv(o, entries, fits);
    PublishOrder(o, entries, fits);
    var x := Take(first);
    StepInv(first, ClientTakes, o.counter, entries, fits);
    PublicationsRun(x, others, fits);
    RunInv(x, Publications(others), o.counter, entries, fits);
    RetainedInRun(x, Publications(others), o.counter, entries, fits, 0);
  }

  // ---------- the service's side of it ----------

  class ListingOwner {
    const fits: seq<Entry> -> bool
    var ownListings: map<Id, seq<Entry>>
    var ownListingOrder: seq<Id>
    var pageTokens: map<Id, Position>
    var counter: Id

    function View(): Owner
      reads this
    {
      Owner(ownListings, ownListingOrder, pageTokens, counter)
    }

    constructor (fits: seq<Entry> -> bool)
      ensures View() == Owner(map[], [], map[], 0) && this.fits == fits
    {
      this.fits := fits;
      ownListings, ownListingOrder, pageTokens, counter := map[], [], map[], 0;
    }

    method RetainOwnListing(listing: Id, entries: seq<Entry>)
      modifies this`ownListings, this`ownListingOrder
      ensures View() == Retain(old(View()), listing, entries)
    {
      ownListings := ownListings[listing := entries];
      ownListingOrder := ownListingOrder + [listing];
      while |ownListingOrder| > RETAINED
        invariant Trim(ownListings, ownListingOrder)
               == Trim(old(ownListings)[listing := entries], old(ownListingOrder) + [listing])
        decreases |ownListingOrder|
      {
        ownListings := ownListings - {ownListingOrder[0]};
        ownListingOrder := ownListingOrder[1..];
      }
    }

    method SendListingPage(listing: Id, entries: seq<Entry>, from: nat) returns (reply: Reply)
      requires from <= |entries|
      modifies this`pageTokens, this`counter
      ensures (View(), reply) == SendPage(old(View()), listing, entries, from, fits)
    {
      var end := from;
      while end < |entries| && end - from < PAGE_ENTRIES && fits(entries[from..end + 1])
        invariant from <= end <= |entries|
        invariant PageEnd(entries, from, end, fits) == PageEnd(entries, from, from, fits)
      {
        end := end + 1;
      }
      if end == from && from < |entries| {
        return Failure(EntryTooLarge);
      }
      if end == |entries| {
        return Page(listing, entries[from..end], None);
      }
      pageTokens := pageTokens[counter := Position(listing, end)];
      reply := Page(listing, entries[from..end], Some(counter));
      counter := counter + 1;
    }

    method PublishLocalListing(entries: seq<Entry>) returns (reply: Reply)
      modifies this
      ensures (View(), reply) == Publish(old(View()), entries, fits)
    {
      var listing := counter;
      counter := counter + 1;
      RetainOwnListing(listing, entries);
      reply := SendListingPage(listing, entries, 0);
    }

    method HandlePageRequest(token: Id) returns (reply: Option<Reply>)
      modifies this
      ensures (View(), reply) == NextPage(old(View()), token, fits)
    {
      if token !in pageTokens {
        return Some(Failure(StalePageToken));
      }
      var page := pageTokens[token];
      pageTokens := pageTokens - {token};
      if page.listing !in ownListings || page.offset > |ownListings[page.listing]| {
        return None;
      }
      var r := SendListingPage(page.listing, ownListings[page.listing], page.offset);
      reply := Some(r);
    }
  }

  class RemotePane {
    var pending: bool
    var pages: nat
    var listing: Option<Id>
    var entries: seq<Entry>
    var seen: set<Id>
    var shown: Option<seq<Entry>>
    var error: Option<Error>

    function View(): Pane
      reads this
    {
      Pane(pending, pages, listing, entries, seen, shown, error)
    }

    constructor ()
      ensures View() == FIRST_REQUEST
    {
      pending, pages, listing, entries, seen, shown, error := true, 0, None, [], {}, None, None;
    }

    method GiveUpWith(code: Error)
      modifies this`entries, this`pending, this`error
      ensures View() == GiveUp(old(View()), code)
    {
      entries, pending, error := [], false, Some(code);
    }

    method HandleListingResponse(id: Id, page: seq<Entry>, next: Option<Id>) returns (asked: Option<Id>)
      modifies this
      ensures (View(), asked) == TakePage(old(View()), id, page, next)
    {
      asked := None;
      if !pending {
        return;
      }
      pages := pages + 1;
      if pages > MAX_PAGES || |entries| + |page| > MAX_ENTRIES {
        GiveUpWith(ListingTooLarge);
        return;
      }
      if listing.None? {
        listing := Some(id);
      } else if listing.value != id {
        GiveUpWith(ListingChanged);
        return;
      }
      entries := entries + page;
      if next.Some? {
        if next.value in seen {
          GiveUpWith(InvalidPageToken);
          return;
        }
        seen := seen + {next.value};
        asked := next;
        return;
      }
      shown := Some(entries);
      entries := [];
      pending := false;
      seen := {};
    }

    method HandleListingError(code: Error)
      modifies this`entries, this`error
      ensures View() == TakeFailure(old(View()), code)
    {
      if pending {
        entries, error := [], Some(code);
      }
    }
  }
}
