/** The bounded control queue of the file-transfer session: `sendControl`, `enqueueControl` and
    `flushControlQueue`, with the coalescing of Acks. What happens to the Acks of one file is the
    AckPath of FileTransfer. */
module ControlQueue {
  import opened Wrappers
  import opened FileTransfer

  const MAX_MESSAGES: nat := 1024
  const MAX_BYTES: int := 4 * 1024 * 1024

  /** A file of a task. */
  datatype Key = Key(task: nat, file: nat)

  /** An Ack, or any other control message, told apart by its content. */
  datatype Control = Ack(key: Key, offset: nat) | Other(content: nat)

  datatype QueuedMessage = QueuedMessage(message: Control, size: int)

  /** What the session answers while one message is sent. */
  datatype Port = Port(open: bool, backpressured: bool, taken: bool)

  datatype Queue = Queue(queued: seq<QueuedMessage>, bytes: int, wire: seq<Control>)

  function Sum(ms: seq<QueuedMessage>): int {
    if ms == [] then 0 else ms[0].size + Sum(ms[1..])
  }

  predicate IsAckOf(m: Control, key: Key) {
    m.Ack? && m.key == key
  }

  /** The first queued Ack of the key, otherwise the length of the queue. */
  function FindAck(ms: seq<QueuedMessage>, key: Key): (k: nat)
    ensures k <= |ms|
    ensures k < |ms| ==> IsAckOf(ms[k].message, key)
    ensures forall i :: 0 <= i < k ==> !IsAckOf(ms[i].message, key)
  {
    if ms == [] || IsAckOf(ms[0].message, key) then 0 else 1 + FindAck(ms[1..], key)
  }

  predicate OneAckPerFile(ms: seq<QueuedMessage>) {
    forall i, j :: 0 <= i < j < |ms| && ms[i].message.Ack? ==> !IsAckOf(ms[j].message, ms[i].message.key)
  }

  /** Whether an Ack can be encoded does not depend on its offset. */
  ghost predicate EncodesAcks(size: Control -> int) {
    forall key: Key, a: nat, b: nat :: size(Ack(key, a)) > 0 ==> size(Ack(key, b)) > 0
  }

  /** The byte counter is exact, both limits hold, and no two queued Acks are of one file. */
  predicate Valid(size: Control -> int, q: Queue) {
    && q.bytes == Sum(q.queued) <= MAX_BYTES
    && |q.queued| <= MAX_MESSAGES
    && (forall i :: 0 <= i < |q.queued| ==> q.queued[i].size == size(q.queued[i].message) > 0)
    && OneAckPerFile(q.queued)
  }

  // ---------- the operations ----------

  /** The waiting Ack takes the larger offset, unless the queue would outgrow its byte limit. */
  function Coalesce(size: Control -> int, q: Queue, k: nat, offset: nat): Queue
    requires k < |q.queued| && q.queued[k].message.Ack?
  {
    var waiting := q.queued[k];
    var before := waiting.message.offset;
    var merged := waiting.message.(offset := if before < offset then offset else before);
    if size(merged) > MAX_BYTES - (q.bytes - waiting.size) then q
    else q.(queued := q.queued[k := QueuedMessage(merged, size(merged))],
            bytes := q.bytes + (size(merged) - waiting.size))
  }

  predicate Overflows(size: Control -> int, q: Queue, m: Control) {
    |q.queued| >= MAX_MESSAGES || size(m) > MAX_BYTES - q.bytes
  }

  function Insert(size: Control -> int, q: Queue, m: Control): Queue {
    var entry := QueuedMessage(m, size(m));
    q.(queued := if m.Ack? then [entry] + q.queued else q.queued + [entry], bytes := q.bytes + size(m))
  }

  function Enqueue(size: Control -> int, q: Queue, m: Control): (Queue, bool) {
    if size(m) <= 0 then (q, false)
    else if m.Ack? && FindAck(q.queued, m.key) < |q.queued| then
      (Coalesce(size, q, FindAck(q.queued, m.key), m.offset), true)
    else if Overflows(size, q, m) then (q, false)
    else (Insert(size, q, m), true)
  }

  function Send(size: Control -> int, q: Queue, m: Control, port: Port): (Queue, bool) {
    if !port.open then (q, false)
    else if q.queued == [] && !port.backpressured && port.taken then (q.(wire := q.wire + [m]), true)
    else Enqueue(size, q, m)
  }

  /** The channel takes `room` messages before it is backpressured, closed or refuses one. */
  function Flush(q: Queue, room: nat): Queue
    decreases |q.queued|
  {
    if room == 0 || q.queued == [] then q
    else Flush(Queue(q.queued[1..], q.bytes - q.queued[0].size, q.wire + [q.queued[0].message]), room - 1)
  }

  // ---------- the queue stays valid ----------

  lemma {:induction false} SumAppend(a: seq<QueuedMessage>, b: seq<QueuedMessage>)
    ensures Sum(a + b) == Sum(a) + Sum(b)
  {
    if a == [] {
      assert a + b == b;
    } else {
      assert (a + b)[1..] == a[1..] + b;
      SumAppend(a[1..], b);
    }
  }

  lemma SumUpdate(ms: seq<QueuedMessage>, k: nat, entry: QueuedMessage)
    requires k < |ms|
    ensures Sum(ms[k := entry]) == Sum(ms) - ms[k].size + entry.size
  {
    SumAppend(ms[..k], ms[k..]);
    SumAppend(ms[..k], [entry] + ms[k + 1..]);
    assert ms == ms[..k] + ms[k..];
    assert ms[k..][1..] == ms[k + 1..];
    assert ms[k := entry] == ms[..k] + ([entry] + ms[k + 1..]);
    assert ([entry] + ms[k + 1..])[1..] == ms[k + 1..];
  }

  lemma CoalesceValid(size: Control -> int, q: Queue, k: nat, offset: nat)
    requires EncodesAcks(size) && Valid(size, q) && k < |q.queued| && q.queued[k].message.Ack?
    ensures Valid(size, Coalesce(size, q, k, offset))
  {
    var waiting := q.queued[k].message;
    var merged := waiting.(offset := if waiting.offset < offset then offset else waiting.offset);
    SumUpdate(q.queued, k, QueuedMessage(merged, size(merged)));
  }

  lemma InsertValid(size: Control -> int, q: Queue, m: Control)
    requires Valid(size, q) && !Overflows(size, q, m) && size(m) > 0
    requires m.Ack? ==> FindAck(q.queued, m.key) == |q.queued|
    ensures Valid(size, Insert(size, q, m))
  {
    var entry := QueuedMessage(m, size(m));
    SumAppend(q.queued, [entry]);
    assert ([entry] + q.queued)[1..] == q.queued;
  }

  /** Every send keeps the exact counter, both limits and one Ack per file. */
  lemma SendValid(size: Control -> int, q: Queue, m: Control, port: Port)
    requires EncodesAcks(size) && Valid(size, q)
    ensures Valid(size, Send(size, q, m, port).0)
  {
    if size(m) > 0 {
      if m.Ack? && FindAck(q.queued, m.key) < |q.queued| {
        CoalesceValid(size, q, FindAck(q.queued, m.key), m.offset);
      } else if !Overflows(size, q, m) {
        InsertValid(size, q, m);
      }
    }
  }

  lemma {:induction false} FlushValid(size: Control -> int, q: Queue, room: nat)
    requires Valid(size, q)
    ensures Valid(size, Flush(q, room))
    decreases |q.queued|
  {
    if room > 0 && q.queued != [] {
      var next := Queue(q.queued[1..], q.bytes - q.queued[0].size, q.wire + [q.queued[0].message]);
      FlushValid(size, next, room - 1);
    }
  }

  // ---------- the order on the wire ----------

  function Messages(ms: seq<QueuedMessage>): (r: seq<Control>)
    ensures |r| == |ms|
    ensures forall i :: 0 <= i < |ms| ==> r[i] == ms[i].message
  {
    seq(|ms|, i requires 0 <= i < |ms| => ms[i].message)
  }

  /** The messages that are not Acks, in order. */
  function Others(ms: seq<Control>): seq<Control> {
    if ms == [] then [] else if ms[0].Other? then [ms[0]] + Others(ms[1..]) else Others(ms[1..])
  }

  /** The offsets of one file's Acks, in order. */
  function Offsets(ms: seq<Control>, key: Key): seq<nat> {
    if ms == [] then []
    else if IsAckOf(ms[0], key) then [ms[0].offset] + Offsets(ms[1..], key)
    else Offsets(ms[1..], key)
  }

  lemma {:induction false} OthersAppend(a: seq<Control>, b: seq<Control>)
    ensures Others(a + b) == Others(a) + Others(b)
  {
    if a == [] {
      assert a + b == b;
    } else {
      assert (a + b)[1..] == a[1..] + b;
      OthersAppend(a[1..], b);
    }
  }

  lemma {:induction false} OffsetsAppend(a: seq<Control>, b: seq<Control>, key: Key)
    ensures Offsets(a + b, key) == Offsets(a, key) + Offsets(b, key)
  {
    if a == [] {
      assert a + b == b;
    } else {
      assert (a + b)[1..] == a[1..] + b;
      OffsetsAppend(a[1..], b, key);
    }
  }

  /** Everything the queue took and kept in order: the wire, then what is queued. */
  function Traffic(q: Queue): seq<Control> {
    Others(q.wire) + Others(Messages(q.queued))
  }

  lemma {:induction false} OthersUpdate(ms: seq<Control>, k: nat, m: Control)
    requires k < |ms| && ms[k].Ack? && m.Ack?
    ensures Others(ms[k := m]) == Others(ms)
  {
    OthersAppend(ms[..k], ms[k..]);
    OthersAppend(ms[..k], [m] + ms[k + 1..]);
    assert ms == ms[..k] + ms[k..];
    assert ms[k..][1..] == ms[k + 1..];
    assert ms[k := m] == ms[..k] + ([m] + ms[k + 1..]);
    assert ([m] + ms[k + 1..])[1..] == ms[k + 1..];
  }

  /** An accepted message that is not an Ack goes behind all others; nothing else moves them. */
  lemma SendKeepsOrder(size: Control -> int, q: Queue, m: Control, port: Port)
    ensures var (r, ok) := Send(size, q, m, port);
            Traffic(r) == Traffic(q) + (if ok && m.Other? then [m] else [])
  {
    var (r, ok) := Send(size, q, m, port);
    assert Others([m]) == if m.Other? then [m] else [];
    OthersAppend(q.wire, [m]);
    if port.open && !(q.queued == [] && !port.backpressured && port.taken) && ok {
      EnqueueKeepsOrder(size, q, m);
    }
  }

  lemma EnqueueKeepsOrder(size: Control -> int, q: Queue, m: Control)
    requires Enqueue(size, q, m).1
    ensures Traffic(Enqueue(size, q, m).0) == Traffic(q) + (if m.Other? then [m] else [])
  {
    var r := Enqueue(size, q, m).0;
    var ms := Messages(q.queued);
    if m.Ack? && FindAck(q.queued, m.key) < |q.queued| {
      var k := FindAck(q.queued, m.key);
      OthersUpdate(ms, k, Messages(r.queued)[k]);
      assert Messages(r.queued) == ms[k := Messages(r.queued)[k]];
    } else {
      OthersAppend(ms, [m]);
      OthersAppend([m], ms);
      assert Messages(r.queued) == if m.Ack? then [m] + ms else ms + [m];
    }
  }

  lemma {:induction false} FlushKeepsOrder(q: Queue, room: nat)
    ensures Traffic(Flush(q, room)) == Traffic(q)
    decreases |q.queued|
  {
    if room > 0 && q.queued != [] {
      var head := q.queued[0].message;
      var next := Queue(q.queued[1..], q.bytes - q.queued[0].size, q.wire + [head]);
      OthersAppend(q.wire, [head]);
      assert Messages(q.queued) == [head] + Messages(q.queued[1..]);
      OthersAppend([head], Messages(q.queued[1..]));
      FlushKeepsOrder(next, room - 1);
    }
  }

  // ---------- one file's Acks ----------

  /** The Acks of one file as the transfer attempt sees them. */
  function PathOf(q: Queue, key: Key): AckPath {
    var k := FindAck(q.queued, key);
    AckPath(Offsets(q.wire, key), if k < |q.queued| then Some(q.queued[k].message.offset) else None)
  }

  /** What becomes of an Ack. */
  function OutcomeOf(size: Control -> int, q: Queue, m: Control, port: Port): AckOutcome
    requires m.Ack?
  {
    var k := FindAck(q.queued, m.key);
    if !Send(size, q, m, port).1 then Refused
    else if q.queued == [] && !port.backpressured && port.taken then Direct
    else if k == |q.queued| then Queued
    else if Coalesce(size, q, k, m.offset) == q then KeptOld
    else Merged
  }

  lemma {:induction false} FindAckPrepend(entry: QueuedMessage, ms: seq<QueuedMessage>, key: Key)
    ensures FindAck([entry] + ms, key) == if IsAckOf(entry.message, key) then 0 else 1 + FindAck(ms, key)
  {
    assert ([entry] + ms)[1..] == ms;
  }

  lemma {:induction false} FindAckAppend(ms: seq<QueuedMessage>, entry: QueuedMessage, key: Key)
    requires !IsAckOf(entry.message, key)
    ensures FindAck(ms + [entry], key) == if FindAck(ms, key) < |ms| then FindAck(ms, key) else |ms| + 1
  {
    if ms != [] {
      assert (ms + [entry])[1..] == ms[1..] + [entry];
      FindAckAppend(ms[1..], entry, key);
    } else {
      assert ms + [entry] == [entry];
    }
  }

  lemma {:induction false} FindAckUpdate(ms: seq<QueuedMessage>, k: nat, entry: QueuedMessage, key: Key)
    requires k < |ms| && ms[k].message.Ack? && IsAckOf(entry.message, ms[k].message.key)
    ensures FindAck(ms[k := entry], key) == FindAck(ms, key)
  {
    if k > 0 {
      assert ms[k := entry][1..] == ms[1..][k - 1 := entry];
      FindAckUpdate(ms[1..], k - 1, entry, key);
    }
  }

  /** Refinement: for the file of an Ack the queue does what PutAck does, with the answer of
      `sendControl`; every other file's Acks stay as they were. */
  lemma SendRefines(size: Control -> int, q: Queue, m: Control, port: Port, key: Key)
    ensures var (r, ok) := Send(size, q, m, port);
            && (!IsAckOf(m, key) ==> PathOf(r, key) == PathOf(q, key))
            && (IsAckOf(m, key) ==>
                  && PathOf(r, key) == PutAck(PathOf(q, key), m.offset, OutcomeOf(size, q, m, port))
                  && (ok <==> !OutcomeOf(size, q, m, port).Refused?))
  {
    OffsetsAppend(q.wire, [m], key);
    assert [m][1..] == [];
    if port.open && !(q.queued == [] && !port.backpressured && port.taken) {
      EnqueueRefines(size, q, m, key);
    }
  }

  /** What `enqueueControl` does to the Acks of one file. */
  lemma EnqueueRefines(size: Control -> int, q: Queue, m: Control, key: Key)
    ensures var (r, ok) := Enqueue(size, q, m);
            && r.wire == q.wire
            && (!IsAckOf(m, key) || !ok ==> PathOf(r, key).waiting == PathOf(q, key).waiting)
            && (IsAckOf(m, key) && ok && FindAck(q.queued, key) == |q.queued| ==>
                  PathOf(r, key).waiting == Some(m.offset))
            && (IsAckOf(m, key) && ok && FindAck(q.queued, key) < |q.queued| ==>
                  var k := FindAck(q.queued, key);
                  && r == Coalesce(size, q, k, m.offset)
                  && PathOf(r, key).waiting == (if r == q || m.offset <= q.queued[k].message.offset
                                                then PathOf(q, key).waiting else Some(m.offset)))
  {
    var r := Enqueue(size, q, m).0;
    if r != q {
      if m.Ack? && FindAck(q.queued, m.key) < |q.queued| {
        var k := FindAck(q.queued, m.key);
        FindAckUpdate(q.queued, k, r.queued[k], key);
        assert r.queued == q.queued[k := r.queued[k]];
      } else if m.Ack? {
        FindAckPrepend(QueuedMessage(m, size(m)), q.queued, key);
      } else {
        FindAckAppend(q.queued, QueuedMessage(m, size(m)), key);
      }
    }
  }

  lemma FindAckTail(ms: seq<QueuedMessage>, key: Key)
    requires ms != [] && OneAckPerFile(ms)
    ensures IsAckOf(ms[0].message, key) ==> FindAck(ms, key) == 0 && FindAck(ms[1..], key) == |ms| - 1
    ensures !IsAckOf(ms[0].message, key) ==> FindAck(ms, key) == 1 + FindAck(ms[1..], key)
  {
  }

  /** Flushing hands a file's waiting Ack to the wire when it is among the messages taken. */
  lemma {:induction false} FlushRefines(q: Queue, room: nat, key: Key)
    requires OneAckPerFile(q.queued)
    ensures PathOf(Flush(q, room), key)
         == if FindAck(q.queued, key) < room then FlushAck(PathOf(q, key)) else PathOf(q, key)
    decreases |q.queued|
  {
    if room > 0 && q.queued != [] {
      var head := q.queued[0].message;
      var next := Queue(q.queued[1..], q.bytes - q.queued[0].size, q.wire + [head]);
      FindAckTail(q.queued, key);
      OffsetsAppend(q.wire, [head], key);
      assert [head][1..] == [];
      FlushRefines(next, room - 1, key);
    }
  }

  // ---------- runs ----------

  datatype Op = SendOp(message: Control, port: Port) | FlushOp(room: nat)

  function Step(size: Control -> int, q: Queue, op: Op): Queue {
    match op
    case SendOp(m, port) => Send(size, q, m, port).0
    case FlushOp(room) => Flush(q, room)
  }

  function Run(size: Control -> int, q: Queue, ops: seq<Op>): Queue
    decreases |ops|
  {
    if ops == [] then q else Run(size, Step(size, q, ops[0]), ops[1..])
  }

  /** The messages other than Acks for which `sendControl` answered true. */
  function Accepted(size: Control -> int, q: Queue, ops: seq<Op>): seq<Control>
    decreases |ops|
  {
    if ops == [] then []
    else
      var op := ops[0];
      (if op.SendOp? && op.message.Other? && Send(size, q, op.message, op.port).1 then [op.message] else [])
      + Accepted(size, Step(size, q, op), ops[1..])
  }

  /** The calls for one file's Acks never go back. */
  predicate Ascending(ops: seq<Op>, key: Key, floor: nat) {
    ops == []
    || (if ops[0].SendOp? && IsAckOf(ops[0].message, key)
        then floor <= ops[0].message.offset && Ascending(ops[1..], key, ops[0].message.offset)
        else Ascending(ops[1..], key, floor))
  }

  predicate Nondecreasing(c: seq<nat>) {
    forall i, j :: 0 <= i < j < |c| ==> c[i] <= c[j]
  }

  /** A file's Acks in the order they reach the wire. */
  function Chain(p: AckPath): seq<nat> {
    if p.waiting.Some? then p.wire + [p.waiting.value] else p.wire
  }

  predicate Climbs(c: seq<nat>, floor: nat) {
    Nondecreasing(c) && forall i :: 0 <= i < |c| ==> c[i] <= floor
  }

  predicate Ordered(p: AckPath, floor: nat) {
    Climbs(Chain(p), floor)
  }

  lemma ClimbsOn(c: seq<nat>, floor: nat, offset: nat)
    requires Climbs(c, floor) && floor <= offset
    ensures Climbs(c, offset) && Climbs(c + [offset], offset)
  {
  }

  lemma PutAckOrdered(p: AckPath, floor: nat, offset: nat, outcome: AckOutcome)
    requires Ordered(p, floor) && floor <= offset
    ensures Ordered(PutAck(p, offset, outcome), offset)
  {
    ClimbsOn(Chain(p), floor, offset);
    if p.waiting.Some? {
      var c := Chain(p);
      assert forall i :: 0 <= i < |p.wire| ==> c[i] == p.wire[i];
      assert Climbs(p.wire, floor);
      ClimbsOn(p.wire, floor, offset);
    }
  }

  lemma FlushAckOrdered(p: AckPath, floor: nat)
    requires Ordered(p, floor)
    ensures Ordered(FlushAck(p), floor)
  {
    assert Chain(FlushAck(p)) == Chain(p);
  }

  lemma StepValid(size: Control -> int, q: Queue, op: Op)
    requires EncodesAcks(size) && Valid(size, q)
    ensures Valid(size, Step(size, q, op))
  {
    match op
    case SendOp(m, port) => SendValid(size, q, m, port);
    case FlushOp(room) => FlushValid(size, q, room);
  }

  lemma StepOrdered(size: Control -> int, q: Queue, op: Op, key: Key, floor: nat)
    requires Valid(size, q) && Ordered(PathOf(q, key), floor) && Ascending([op], key, floor)
    ensures Ordered(PathOf(Step(size, q, op), key),
                    if op.SendOp? && IsAckOf(op.message, key) then op.message.offset else floor)
  {
    match op
    case SendOp(m, port) =>
      SendRefines(size, q, m, port, key);
      if IsAckOf(m, key) {
        PutAckOrdered(PathOf(q, key), floor, m.offset, OutcomeOf(size, q, m, port));
      }
    case FlushOp(room) =>
      FlushRefines(q, room, key);
      FlushAckOrdered(PathOf(q, key), floor);
  }

  const EMPTY := Queue([], 0, [])

  lemma {:induction false} RunValid(size: Control -> int, q: Queue, ops: seq<Op>)
    requires EncodesAcks(size) && Valid(size, q)
    ensures Valid(size, Run(size, q, ops))
    decreases |ops|
  {
    if ops != [] {
      StepValid(size, q, ops[0]);
      RunValid(size, Step(size, q, ops[0]), ops[1..]);
    }
  }

  lemma {:induction false} RunTraffic(size: Control -> int, q: Queue, ops: seq<Op>)
    ensures Traffic(Run(size, q, ops)) == Traffic(q) + Accepted(size, q, ops)
    decreases |ops|
  {
    if ops != [] {
      StepTraffic(size, q, ops[0]);
      RunTraffic(size, Step(size, q, ops[0]), ops[1..]);
    }
  }

  /** The offset of the last call for the file's Acks. */
  function Top(ops: seq<Op>, key: Key, floor: nat): nat {
    if ops == [] then floor
    else Top(ops[1..], key, if ops[0].SendOp? && IsAckOf(ops[0].message, key) then ops[0].message.offset else floor)
  }

  lemma {:induction false} RunOrdered(size: Control -> int, q: Queue, ops: seq<Op>, key: Key, floor: nat)
    requires EncodesAcks(size) && Valid(size, q)
    requires Ordered(PathOf(q, key), floor) && Ascending(ops, key, floor)
    ensures Ordered(PathOf(Run(size, q, ops), key), Top(ops, key, floor))
    decreases |ops|
  {
    if ops != [] {
      StepValid(size, q, ops[0]);
      StepOrdered(size, q, ops[0], key, floor);
      RunOrdered(size, Step(size, q, ops[0]), ops[1..], key,
                 if ops[0].SendOp? && IsAckOf(ops[0].message, key) then ops[0].message.offset else floor);
    }
  }

  lemma StepTraffic(size: Control -> int, q: Queue, op: Op)
    ensures Traffic(Step(size, q, op)) == Traffic(q)
              + (if op.SendOp? && op.message.Other? && Send(size, q, op.message, op.port).1 then [op.message] else [])
  {
    match op
    case SendOp(m, port) => SendKeepsOrder(size, q, m, port);
    case FlushOp(room) => FlushKeepsOrder(q, room);
  }

  lemma EmptyQueue(size: Control -> int, key: Key)
    ensures Valid(size, EMPTY) && Traffic(EMPTY) == [] && Ordered(PathOf(EMPTY, key), 0)
  {
    assert Messages(EMPTY.queued) == [];
    EmptyOrdered(key);
  }

  lemma EmptyOrdered(key: Key)
    ensures Ordered(PathOf(EMPTY, key), 0)
  {
    assert PathOf(EMPTY, key).wire == [];
    assert PathOf(EMPTY, key).waiting == None;
  }

  predicate RunFacts(size: Control -> int, q: Queue, accepted: seq<Control>) {
    && Valid(size, q)
    && accepted == Others(q.wire) + Others(Messages(q.queued))
  }

  lemma RunFrom(size: Control -> int, q: Queue, ops: seq<Op>, key: Key)
    requires EncodesAcks(size) && Valid(size, q) && Traffic(q) == [] && Ordered(PathOf(q, key), 0)
    ensures RunFacts(size, Run(size, q, ops), Accepted(size, q, ops))
    ensures Ascending(ops, key, 0) ==> Nondecreasing(Offsets(Run(size, q, ops).wire, key))
  {
    RunValid(size, q, ops);
    RunTraffic(size, q, ops);
    if Ascending(ops, key, 0) {
      RunOrdered(size, q, ops, key, 0);
      OrderedWire(PathOf(Run(size, q, ops), key), Top(ops, key, 0));
    }
  }

  /** In every run the byte counter is exact, both limits hold and a file has at most one queued
      Ack; the accepted messages other than Acks reach the wire in the order of their calls; and when
      the calls for a file's Acks never go back, neither do the offsets on the wire. */
  lemma EveryRun(size: Control -> int, ops: seq<Op>, key: Key)
    requires EncodesAcks(size)
    ensures RunFacts(size, Run(size, EMPTY, ops), Accepted(size, EMPTY, ops))
    ensures Ascending(ops, key, 0) ==> Nondecreasing(Offsets(Run(size, EMPTY, ops).wire, key))
  {
    EmptyQueue(size, key);
    RunFrom(size, EMPTY, ops, key);
  }

  lemma OrderedWire(p: AckPath, floor: nat)
    requires Ordered(p, floor)
    ensures Nondecreasing(p.wire)
  {
    var c := Chain(p);
    assert forall i :: 0 <= i < |p.wire| ==> p.wire[i] == c[i];
  }

  // ---------- the service's queue ----------

  class FileTransferControl {
    const size: Control -> int
    var controlQueue: seq<QueuedMessage>
    var queuedBytes: int
    var wire: seq<Control>

    function View(): Queue
      reads this
    {
      Queue(controlQueue, queuedBytes, wire)
    }

    constructor (size: Control -> int)
      ensures View() == EMPTY && this.size == size
    {
      this.size := size;
      controlQueue, queuedBytes, wire := [], 0, [];
    }

    method SendControl(m: Control, port: Port) returns (ok: bool)
      modifies this
      ensures (View(), ok) == Send(size, old(View()), m, port)
    {
      if !port.open {
        return false;
      }
      if controlQueue != [] || port.backpressured {
        ok := EnqueueControl(m);
        return;
      }
      if port.taken {
        wire := wire + [m];
        return true;
      }
      ok := EnqueueControl(m);
    }

    method EnqueueControl(m: Control) returns (ok: bool)
      modifies this`controlQueue, this`queuedBytes
      ensures (View(), ok) == Enqueue(size, old(View()), m)
    {
      var bytes := size(m);
      if bytes <= 0 {
        return false;
      }
      if m.Ack? {
        for i := 0 to |controlQueue|
          invariant View() == old(View())
          invariant forall j :: 0 <= j < i ==> !IsAckOf(controlQueue[j].message, m.key)
        {
          if IsAckOf(controlQueue[i].message, m.key) {
            FindAckIs(controlQueue, m.key, i);
            var waiting := controlQueue[i];
            var merged := Ack(m.key, if waiting.message.offset < m.offset then m.offset else waiting.message.offset);
            var updated := size(merged);
            if updated > MAX_BYTES - (queuedBytes - waiting.size) {
              return true;
            }
            queuedBytes := queuedBytes + (updated - waiting.size);
            controlQueue := controlQueue[i := QueuedMessage(merged, updated)];
            return true;
          }
        }
      }
      if |controlQueue| >= MAX_MESSAGES || bytes > MAX_BYTES - queuedBytes {
        return false;
      }
      controlQueue := if m.Ack? then [QueuedMessage(m, bytes)] + controlQueue
                      else controlQueue + [QueuedMessage(m, bytes)];
      queuedBytes := queuedBytes + bytes;
      ok := true;
    }

    /** The clamp behind the loop of `flushControlQueue` never acts. */
    method FlushControlQueue(room: nat)
      requires EncodesAcks(size) && Valid(size, View())
      modifies this
      ensures View() == Flush(old(View()), room) && Valid(size, View())
    {
      FlushValid(size, View(), room);
      var left := room;
      while left > 0 && controlQueue != []
        invariant Flush(View(), left) == Flush(old(View()), room)
        decreases |controlQueue|
      {
        wire := wire + [controlQueue[0].message];
        queuedBytes := queuedBytes - controlQueue[0].size;
        controlQueue := controlQueue[1..];
        left := left - 1;
      }
      SumNonnegative(size, View());
      if queuedBytes < 0 {
        assert false;
      }
    }
  }

  lemma {:induction false} FindAckIs(ms: seq<QueuedMessage>, key: Key, k: nat)
    requires k < |ms| && IsAckOf(ms[k].message, key)
    requires forall j :: 0 <= j < k ==> !IsAckOf(ms[j].message, key)
    ensures FindAck(ms, key) == k
  {
    if k > 0 {
      FindAckIs(ms[1..], key, k - 1);
    }
  }

  lemma {:induction false} SumNonnegative(size: Control -> int, q: Queue)
    requires Valid(size, q)
    ensures q.bytes >= 0
    decreases |q.queued|
  {
    if q.queued != [] {
      var rest := Queue(q.queued[1..], q.bytes - q.queued[0].size, q.wire);
      SumNonnegative(size, rest);
    }
  }
}
