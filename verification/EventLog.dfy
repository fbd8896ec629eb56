/** The automation bridge's event buffer: bounded per category, and in agreement with the unbounded
    history; and the snapshot a client takes from a cursor, with its gap flag. */
module EventLog {

  datatype Category = Critical | State | Telemetry

  datatype Event = Event(sequence: nat, category: Category, value: nat)

  const MAX_EVENTS: nat := 512
  const MAX_UINT64: nat := 0xFFFF_FFFF_FFFF_FFFF

  /** How many events of each category are kept. */
  datatype Budget = Budget(critical: nat, state: nat, telemetry: nat)
  {
    function Of(c: Category): nat {
      match c
      case Critical => critical
      case State => state
      case Telemetry => telemetry
    }

    function Less(c: Category): Budget
      requires Of(c) > 0
    {
      match c
      case Critical => this.(critical := critical - 1)
      case State => this.(state := state - 1)
      case Telemetry => this.(telemetry := telemetry - 1)
    }
  }

  const LIMITS := Budget(256, 192, 64)

  // ---------- the buffer as a view of the history ----------

  /** The newest events of each category within the budget, in order. */
  function Newest(h: seq<Event>, b: Budget): seq<Event> {
    if h == [] then []
    else
      var last := h[|h| - 1];
      if b.Of(last.category) > 0 then Newest(h[..|h| - 1], b.Less(last.category)) + [last]
      else Newest(h[..|h| - 1], b)
  }

  function Count(es: seq<Event>, c: Category): nat {
    if es == [] then 0 else Count(es[..|es| - 1], c) + (if es[|es| - 1].category == c then 1 else 0)
  }

  /** The list without its first event of the category. */
  function RemoveOldest(es: seq<Event>, c: Category): seq<Event> {
    if es == [] then [] else if es[0].category == c then es[1..] else [es[0]] + RemoveOldest(es[1..], c)
  }

  lemma {:induction false} CountPositive(es: seq<Event>, c: Category)
    ensures Count(es, c) > 0 <==> exists i :: 0 <= i < |es| && es[i].category == c
    ensures Count(es, c) <= |es|
  {
    if es != [] {
      CountPositive(es[..|es| - 1], c);
      assert forall i :: 0 <= i < |es| - 1 ==> es[..|es| - 1][i] == es[i];
    }
  }

  lemma {:induction false} RemoveOldestAppend(es: seq<Event>, e: Event, c: Category)
    ensures RemoveOldest(es + [e], c)
         == if Count(es, c) > 0 then RemoveOldest(es, c) + [e] else if e.category == c then es else es + [e]
  {
    CountPositive(es, c);
    if es != [] {
      assert (es + [e])[1..] == es[1..] + [e];
      CountPositive(es[1..], c);
      if es[0].category != c {
        RemoveOldestAppend(es[1..], e, c);
      }
    } else {
      assert [] + [e] == [e];
    }
  }

  lemma {:induction false} RemoveOldestAt(es: seq<Event>, k: nat, c: Category)
    requires k <= |es| && (forall j :: 0 <= j < k ==> es[j].category != c)
    requires k < |es| ==> es[k].category == c
    ensures RemoveOldest(es, c) == if k < |es| then es[..k] + es[k + 1..] else es
  {
    if k > 0 {
      RemoveOldestAt(es[1..], k - 1, c);
      assert [es[0]] + es[1..][..k - 1] == es[..k];
    }
  }

  lemma CountAppend(es: seq<Event>, e: Event, c: Category)
    ensures Count(es + [e], c) == Count(es, c) + (if e.category == c then 1 else 0)
  {
    assert (es + [e])[..|es|] == es;
  }

  lemma {:induction false} NewestCounts(h: seq<Event>, b: Budget, c: Category)
    ensures Count(Newest(h, b), c) <= b.Of(c)
  {
    if h != [] {
      var last := h[|h| - 1];
      if b.Of(last.category) > 0 {
        NewestCounts(h[..|h| - 1], b.Less(last.category), c);
        CountAppend(Newest(h[..|h| - 1], b.Less(last.category)), last, c);
      } else {
        NewestCounts(h[..|h| - 1], b, c);
      }
    }
  }

  lemma {:induction false} CountsAddUp(es: seq<Event>)
    ensures |es| == Count(es, Critical) + Count(es, State) + Count(es, Telemetry)
  {
    if es != [] {
      CountsAddUp(es[..|es| - 1]);
    }
  }

  lemma LessCommutes(b: Budget, c: Category, k: Category)
    requires b.Of(c) > 0 && b.Of(k) > 0 && c != k
    ensures b.Less(c).Of(k) == b.Of(k) && b.Less(k).Of(c) == b.Of(c)
    ensures b.Less(c).Less(k) == b.Less(k).Less(c)
  {
  }

  /** With one event less of a category in the budget, the oldest of a full category goes. */
  lemma {:induction false} NewestWithLess(h: seq<Event>, b: Budget, c: Category)
    requires b.Of(c) > 0
    ensures Newest(h, b.Less(c))
         == if Count(Newest(h, b), c) < b.Of(c) then Newest(h, b) else RemoveOldest(Newest(h, b), c)
    decreases |h|, 1
  {
    if h != [] {
      if h[|h| - 1].category == c {
        SameCategory(h, b);
      } else {
        OtherCategory(h, b, c);
      }
    }
  }

  /** The same when the last event is of another category. */
  lemma {:induction false} OtherCategory(h: seq<Event>, b: Budget, c: Category)
    requires h != [] && b.Of(c) > 0 && h[|h| - 1].category != c
    ensures Newest(h, b.Less(c))
         == if Count(Newest(h, b), c) < b.Of(c) then Newest(h, b) else RemoveOldest(Newest(h, b), c)
    decreases |h|, 0
  {
    var last := h[|h| - 1];
    var rest := h[..|h| - 1];
    var k := last.category;
    if b.Of(k) > 0 {
      LessCommutes(b, c, k);
      NewestWithLess(rest, b.Less(k), c);
      CountAppend(Newest(rest, b.Less(k)), last, c);
      RemoveOldestAppend(Newest(rest, b.Less(k)), last, c);
      NewestCounts(rest, b.Less(k), c);
    } else {
      assert b.Less(c).Of(k) == 0;
      NewestWithLess(rest, b, c);
    }
  }

  /** The same when the last event is of the category. */
  lemma {:induction false} SameCategory(h: seq<Event>, b: Budget)
    requires h != [] && b.Of(h[|h| - 1].category) > 0
    ensures Newest(h, b.Less(h[|h| - 1].category))
         == if Count(Newest(h, b), h[|h| - 1].category) < b.Of(h[|h| - 1].category) then Newest(h, b)
            else RemoveOldest(Newest(h, b), h[|h| - 1].category)
    decreases |h|, 0
  {
    var last := h[|h| - 1];
    var rest := h[..|h| - 1];
    var c := last.category;
    var kept := Newest(rest, b.Less(c));
    CountAppend(kept, last, c);
    RemoveOldestAppend(kept, last, c);
    NewestCounts(rest, b.Less(c), c);
    if b.Of(c) > 1 {
      NewestWithLess(rest, b.Less(c), c);
    }
  }

  // ---------- the numbering ----------

  predicate Numbered(h: seq<Event>) {
    forall i :: 0 <= i < |h| ==> h[i].sequence == i + 1
  }

  predicate Ascending(es: seq<Event>) {
    forall i, j :: 0 <= i < j < |es| ==> es[i].sequence < es[j].sequence
  }

  predicate Below(es: seq<Event>, next: nat) {
    forall i :: 0 <= i < |es| ==> 1 <= es[i].sequence < next
  }

  lemma {:induction false} NewestAscends(h: seq<Event>, b: Budget)
    requires Numbered(h)
    ensures Ascending(Newest(h, b)) && Below(Newest(h, b), |h| + 1)
  {
    if h != [] {
      var last := h[|h| - 1];
      assert Numbered(h[..|h| - 1]);
      if b.Of(last.category) > 0 {
        NewestAscends(h[..|h| - 1], b.Less(last.category));
      } else {
        NewestAscends(h[..|h| - 1], b);
      }
    }
  }

  // ---------- a snapshot from a cursor ----------

  /** The events behind the cursor. */
  function Since(es: seq<Event>, cursor: nat): seq<Event> {
    if es == [] then []
    else Since(es[..|es| - 1], cursor) + (if es[|es| - 1].sequence > cursor then [es[|es| - 1]] else [])
  }

  predicate Has(es: seq<Event>, sequence: nat) {
    exists i :: 0 <= i < |es| && es[i].sequence == sequence
  }

  /** Some event strictly between the cursor and the next sequence number is not in the list. */
  predicate Misses(es: seq<Event>, cursor: nat, next: nat) {
    exists q :: cursor < q < next && !Has(es, q)
  }

  lemma LastRetained(h: seq<Event>, b: Budget)
    requires Numbered(h) && h != []
    ensures Has(Newest(h, b), h[|h| - 1].sequence) <==> b.Of(h[|h| - 1].category) > 0
  {
    var last := h[|h| - 1];
    var rest := h[..|h| - 1];
    if b.Of(last.category) > 0 {
      HasAppend(Newest(rest, b.Less(last.category)), last, last.sequence);
    } else {
      NewestAscends(rest, b);
    }
  }

  /** An earlier event is retained by the rest of the history and what its last event leaves. */
  lemma RetainedByRest(h: seq<Event>, b: Budget, q: nat)
    requires h != [] && h[|h| - 1].sequence != q
    ensures var k := h[|h| - 1].category;
            Has(Newest(h, b), q) <==> Has(Newest(h[..|h| - 1], if b.Of(k) > 0 then b.Less(k) else b), q)
  {
    var last := h[|h| - 1];
    if b.Of(last.category) > 0 {
      HasAppend(Newest(h[..|h| - 1], b.Less(last.category)), last, q);
    }
  }

  lemma CountBehind(h: seq<Event>, i: nat, c: Category)
    requires i + 1 < |h|
    ensures Count(h[i + 1..], c) == Count(h[..|h| - 1][i + 1..], c) + (if h[|h| - 1].category == c then 1 else 0)
  {
    assert h[i + 1..] == h[..|h| - 1][i + 1..] + [h[|h| - 1]];
    CountAppend(h[..|h| - 1][i + 1..], h[|h| - 1], c);
  }

  lemma BudgetAfter(b: Budget, k: Category, c: Category)
    ensures b.Of(k) > 0 ==> b.Less(k).Of(c) == b.Of(c) - (if k == c then 1 else 0)
  {
  }

  /** An event is retained exactly while fewer than its category's limit have followed it. */
  lemma {:induction false} RetainedExactly(h: seq<Event>, b: Budget, i: nat)
    requires Numbered(h) && i < |h|
    ensures Has(Newest(h, b), h[i].sequence) <==> Count(h[i + 1..], h[i].category) < b.Of(h[i].category)
    decreases |h|
  {
    var n := |h| - 1;
    if i == n {
      assert h[i + 1..] == [];
      LastRetained(h, b);
    } else {
      var k, c := h[n].category, h[i].category;
      RetainedByRest(h, b, h[i].sequence);
      CountBehind(h, i, c);
      BudgetAfter(b, k, c);
      RetainedExactly(h[..n], if b.Of(k) > 0 then b.Less(k) else b, i);
    }
  }

  lemma HasAppend(es: seq<Event>, e: Event, q: nat)
    ensures Has(es + [e], q) <==> Has(es, q) || e.sequence == q
  {
    if Has(es, q) {
      var i :| 0 <= i < |es| && es[i].sequence == q;
      assert (es + [e])[i].sequence == q;
    }
    if e.sequence == q {
      assert (es + [e])[|es|].sequence == q;
    }
  }

  class AutomationEventLog {
    var events: seq<Event>
    var nextSequence: nat
    ghost var history: seq<Event>

    /** The buffer is exactly the newest 256 critical, 192 state and 64 telemetry events. */
    ghost predicate Valid()
      reads this
    {
      Numbered(history) && nextSequence == |history| + 1 && events == Newest(history, LIMITS)
    }

    constructor ()
      ensures Valid() && history == []
    {
      events, nextSequence, history := [], 1, [];
    }

    method CategoryCount(c: Category) returns (n: nat)
      ensures n == Count(events, c)
    {
      n := 0;
      for i := 0 to |events|
        invariant n == Count(events[..i], c)
      {
        assert events[..i + 1][..i] == events[..i];
        if events[i].category == c {
          n := n + 1;
        }
      }
      assert events[..|events|] == events;
    }

    method RemoveOldestCategory(c: Category) returns (removed: bool)
      modifies this`events
      ensures events == RemoveOldest(old(events), c)
      ensures removed == (Count(old(events), c) > 0)
    {
      CountPositive(events, c);
      for i := 0 to |events|
        invariant events == old(events)
        invariant forall j :: 0 <= j < i ==> events[j].category != c
      {
        if events[i].category == c {
          RemoveOldestAt(events, i, c);
          events := events[..i] + events[i + 1..];
          return true;
        }
      }
      RemoveOldestAt(events, |events|, c);
      removed := false;
    }

    /** The overflow loop behind the category limits has nothing to do: they add up to its limit. */
    method AppendEvent(category: Category, value: nat)
      requires Valid()
      modifies this
      ensures Valid()
      ensures history == old(history) + [Event(old(nextSequence), category, value)]
    {
      var event := Event(nextSequence, category, value);
      nextSequence := nextSequence + 1;
      ghost var kept := events;
      events := events + [event];
      AppendFacts(history, event);
      history := history + [event];
      var n := CategoryCount(category);
      while n > LIMITS.Of(category)
        invariant history == old(history) + [event] && nextSequence == old(nextSequence) + 1
        invariant n == Count(events, category)
        invariant if n > LIMITS.Of(category) then events == kept + [event] else events == Newest(history, LIMITS)
        decreases n
      {
        var removed := RemoveOldestCategory(category);
        NewestCounts(history, LIMITS, category);
        n := CategoryCount(category);
      }
      NewestSize(history);
      if |events| > MAX_EVENTS {
        assert false;
      }
    }

    method EventsSnapshot(cursor: nat) returns (items: seq<Event>, oldest: nat, hasGap: bool)
      requires Valid() && cursor <= MAX_UINT64 && nextSequence <= MAX_UINT64
      ensures items == Since(events, cursor)
      ensures oldest == if events == [] then nextSequence else events[0].sequence
      ensures hasGap <==> cursor == MAX_UINT64 || Misses(events, cursor, nextSequence)
    {
      NewestAscends(history, LIMITS);
      items, hasGap := [], false;
      var expected: nat := if cursor == MAX_UINT64 then 0 else cursor + 1;
      for i := 0 to |events|
        invariant items == Since(events[..i], cursor)
        invariant cursor < MAX_UINT64 ==> ScanOk(events, i, cursor, expected, hasGap)
        invariant cursor == MAX_UINT64 ==> expected == 0
      {
        assert events[..i + 1][..i] == events[..i];
        if events[i].sequence > cursor {
          if cursor < MAX_UINT64 {
            ScanStep(events, i, cursor, expected, hasGap);
          }
          if events[i].sequence != expected {
            hasGap := true;
          }
          expected := events[i].sequence + 1;
          items := items + [events[i]];
        }
      }
      assert events[..|events|] == events;
      if cursor < MAX_UINT64 {
        ScanEnds(events, cursor, expected, nextSequence, hasGap);
      }
      if expected < nextSequence {
        hasGap := true;
      }
      oldest := if events == [] then nextSequence else events[0].sequence;
    }
  }

  /** One event too many of a category at most, and then its oldest is the one to go. */
  lemma AppendFacts(h: seq<Event>, e: Event)
    requires Numbered(h) && e.sequence == |h| + 1
    ensures Numbered(h + [e])
    ensures var full := Newest(h, LIMITS) + [e];
            && Count(full, e.category) <= LIMITS.Of(e.category) + 1
            && (Count(full, e.category) <= LIMITS.Of(e.category) ==> Newest(h + [e], LIMITS) == full)
            && (Count(full, e.category) > LIMITS.Of(e.category) ==>
                  Newest(h + [e], LIMITS) == RemoveOldest(full, e.category))
  {
    var kept := Newest(h, LIMITS);
    assert (h + [e])[..|h|] == h;
    NewestCounts(h, LIMITS, e.category);
    CountAppend(kept, e, e.category);
    NewestWithLess(h, LIMITS, e.category);
    RemoveOldestAppend(kept, e, e.category);
  }

  lemma NewestSize(h: seq<Event>)
    ensures |Newest(h, LIMITS)| <= MAX_EVENTS
  {
    var es := Newest(h, LIMITS);
    CountsAddUp(es);
    NewestCounts(h, LIMITS, Critical);
    NewestCounts(h, LIMITS, State);
    NewestCounts(h, LIMITS, Telemetry);
  }

  /** The scan of a snapshot after i events: the next number it expects, and whether it saw a gap. */
  ghost predicate ScanOk(es: seq<Event>, i: nat, cursor: nat, expected: nat, gap: bool) {
    && i <= |es| && cursor < expected
    && (forall j :: 0 <= j < i ==> es[j].sequence < expected)
    && (expected == cursor + 1 || exists j :: 0 <= j < i && es[j].sequence == expected - 1)
    && (gap <==> exists q :: cursor < q < expected && !Has(es, q))
  }

  lemma ScanStep(es: seq<Event>, i: nat, cursor: nat, expected: nat, gap: bool)
    requires Ascending(es) && i < |es| && es[i].sequence > cursor
    requires ScanOk(es, i, cursor, expected, gap)
    ensures ScanOk(es, i + 1, cursor, es[i].sequence + 1, gap || es[i].sequence != expected)
  {
    var next := es[i].sequence;
    assert Has(es, next);
    assert next >= expected;
    if next > expected {
      assert !Has(es, expected);
    }
    forall q | cursor < q < next + 1 && !Has(es, q) ensures gap || next != expected {
    }
  }

  lemma ScanEnds(es: seq<Event>, cursor: nat, expected: nat, next: nat, gap: bool)
    requires Ascending(es) && Below(es, next) && ScanOk(es, |es|, cursor, expected, gap)
    requires cursor < next || expected == cursor + 1
    ensures gap || expected < next <==> Misses(es, cursor, next)
  {
    if expected < next {
      assert !Has(es, expected);
    }
    if gap {
      var q :| cursor < q < expected && !Has(es, q);
      assert cursor < q < next;
    }
  }
}
