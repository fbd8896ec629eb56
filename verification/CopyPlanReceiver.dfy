/** A copy plan on the receiving side: what each handler does to the plan, that its counts can never
    run ahead of what was announced, and that every plan the scan accepts is accepted here. */
module CopyPlanReceiver {
  import opened Wrappers
  import opened CopyPlan

  datatype FileBegin = FileBegin(task: nat, fileId: nat, path: string, name: string, size: nat)

  datatype PlanError = InvalidPlan | DuplicatePath | PrepareFailed | CompleteFailed | TaskFailed

  datatype Stage = Open | Done(skipped: bool) | Broken(code: PlanError)

  /** A child task, kept as a record also when it is over. */
  datatype Child = Child(begin: FileBegin, over: bool)

  datatype Receiver = Receiver(
    stage: Stage,
    items: nat,
    total: nat,
    directories: seq<string>,
    expected: nat,
    manifestEnded: bool,
    directoriesReady: bool,
    destinations: set<string>,
    pending: seq<FileBegin>,
    children: seq<Child>,
    received: nat,
    receivedBytes: nat,
    completed: nat,
    hadSkipped: bool,
    others: set<nat>)      // the session's other tasks, the plan's own among them

  /** The two ways of ignoring case: `toCaseFolded`, and the comparison without regard to case. */
  datatype Folding = Folding(folded: string -> string, caseless: string -> string)

  /** Paths that compare equal without regard to case also fold to the same string. */
  ghost predicate Agrees(f: Folding) {
    forall a: string, b: string :: f.caseless(a) == f.caseless(b) ==> f.folded(a) == f.folded(b)
  }

  function HandlePlanBegin(items: nat, total: nat, others: set<nat>): Option<Receiver> {
    if items == 0 || items > MAX_ITEMS then None
    else Some(Receiver(Open, items, total, [], 0, false, false, {}, [], [], 0, 0, 0, false, others))
  }

  function Fail(r: Receiver, code: PlanError): Receiver {
    r.(stage := Broken(code))
  }

  predicate HasFolded(paths: seq<string>, key: string, f: Folding) {
    exists i :: 0 <= i < |paths| && f.folded(paths[i]) == key
  }

  function HandleDirectory(r: Receiver, path: string, f: Folding): Receiver {
    if !r.stage.Open? || r.manifestEnded || |r.directories| >= r.items then r
    else if HasFolded(r.directories, f.folded(path), f) then Fail(r, DuplicatePath)
    else r.(directories := r.directories + [path])
  }

  function HandleEnd(r: Receiver): Receiver {
    if !r.stage.Open? || r.manifestEnded then r
    else if |r.directories| > r.items then Fail(r, InvalidPlan)
    else r.(expected := r.items - |r.directories|, manifestEnded := true)
  }

  predicate Clashes(a: FileBegin, b: FileBegin, f: Folding) {
    a.fileId == b.fileId || f.caseless(a.path) == f.caseless(b.path)
  }

  predicate HasTask(r: Receiver, task: nat) {
    task in r.others || exists i :: 0 <= i < |r.children| && r.children[i].begin.task == task
  }

  predicate FileRefused(r: Receiver, m: FileBegin) {
    || r.received >= r.expected
    || HasTask(r, m.task)
    || m.name != FileName(m.path)
    || ParentPath(m.path) !in r.destinations
    || m.size > r.total
    || r.receivedBytes > r.total - m.size
  }

  predicate ChildClashes(r: Receiver, m: FileBegin, f: Folding) {
    exists i :: 0 <= i < |r.children| && Clashes(r.children[i].begin, m, f)
  }

  function Record(r: Receiver, m: FileBegin): Receiver {
    r.(children := r.children + [Child(m, false)], received := r.received + 1,
       receivedBytes := r.receivedBytes + m.size)
  }

  /** A FileBegin once the destination directories are ready. */
  function AcceptFile(r: Receiver, m: FileBegin, f: Folding): Receiver {
    if FileRefused(r, m) then Fail(r, InvalidPlan)
    else if ChildClashes(r, m, f) then Fail(r, DuplicatePath)
    else Record(r, m)
  }

  predicate PendingClashes(r: Receiver, m: FileBegin, f: Folding) {
    exists i :: 0 <= i < |r.pending| && (r.pending[i].task == m.task || Clashes(r.pending[i], m, f))
  }

  function ProcessFileBegin(r: Receiver, m: FileBegin, f: Folding): Receiver {
    if !r.stage.Open? || !r.manifestEnded then r
    else if r.directoriesReady then AcceptFile(r, m, f)
    else if r.received + |r.pending| >= r.expected then Fail(r, InvalidPlan)
    else if PendingClashes(r, m, f) then r
    else r.(pending := r.pending + [m])
  }

  /** The last check of a plan, and its one and only end. */
  function CompleteIfReady(r: Receiver, notified: bool): Receiver {
    if !r.stage.Open? || !r.manifestEnded || !r.directoriesReady
       || r.received != r.expected || r.completed != r.expected then r
    else if r.receivedBytes != r.total then Fail(r, InvalidPlan)
    else if !notified then Fail(r, CompleteFailed)
    else r.(stage := Done(r.hadSkipped))
  }

  function DrainPending(r: Receiver, f: Folding): Receiver
    decreases |r.pending|
  {
    if r.pending == [] || !r.stage.Open? then r
    else
      var s := AcceptFile(r.(pending := r.pending[1..]), r.pending[0], f);
      if s.pending == r.pending[1..] then DrainPending(s, f) else s
  }

  /** The callback of the job that creates the destination directories. */
  function DirectoriesPrepared(r: Receiver, ok: bool, prepared: set<string>, notified: bool, f: Folding): Receiver {
    if !r.stage.Open? || !r.manifestEnded || r.directoriesReady then r
    else if !ok || (exists i :: 0 <= i < |r.directories| && r.directories[i] !in prepared + {""}) then
      Fail(r, PrepareFailed)
    else
      var s := DrainPending(r.(destinations := prepared + {""}, directoriesReady := true), f);
      CompleteIfReady(s, notified)
  }

  /** `finishTask` of a child: a task that is over stays as it is. */
  function ChildOver(r: Receiver, i: nat, skipped: bool, notified: bool): Receiver {
    if i >= |r.children| || r.children[i].over || !r.stage.Open? then r
    else CompleteIfReady(r.(children := r.children[i := r.children[i].(over := true)],
                            completed := r.completed + 1, hadSkipped := r.hadSkipped || skipped), notified)
  }

  // ---------- the accounting ----------

  function CountOver(cs: seq<Child>): (n: nat)
    ensures n <= |cs|
  {
    if cs == [] then 0 else CountOver(cs[..|cs| - 1]) + (if cs[|cs| - 1].over then 1 else 0)
  }

  function Bytes(cs: seq<Child>): nat {
    if cs == [] then 0 else Bytes(cs[..|cs| - 1]) + cs[|cs| - 1].begin.size
  }

  predicate Valid(r: Receiver) {
    && r.received == |r.children| && r.completed == CountOver(r.children)
    && r.receivedBytes == Bytes(r.children) <= r.total
    && |r.directories| <= r.items
    && (r.manifestEnded ==> r.expected == r.items - |r.directories| && r.received <= r.expected)
    && (!r.manifestEnded ==> !r.directoriesReady && r.pending == [])
    && (!r.directoriesReady ==> r.children == [])
    && (r.stage.Done? ==> r.manifestEnded && r.received == r.completed == r.expected && r.receivedBytes == r.total)
  }

  lemma {:induction false} CountOverUpdate(cs: seq<Child>, i: nat)
    requires i < |cs| && !cs[i].over
    ensures CountOver(cs[i := cs[i].(over := true)]) == CountOver(cs) + 1
    ensures Bytes(cs[i := cs[i].(over := true)]) == Bytes(cs)
  {
    var d := cs[i := cs[i].(over := true)];
    var n := |cs| - 1;
    if i < n {
      assert d[..n] == cs[..n][i := cs[i].(over := true)];
      CountOverUpdate(cs[..n], i);
    } else {
      assert d[..n] == cs[..n];
    }
  }

  lemma AcceptFileValid(r: Receiver, m: FileBegin, f: Folding)
    requires Valid(r) && r.stage.Open? && r.directoriesReady
    ensures Valid(AcceptFile(r, m, f)) && !AcceptFile(r, m, f).stage.Done?
    ensures AcceptFile(r, m, f).pending == r.pending
  {
    assert (r.children + [Child(m, false)])[..|r.children|] == r.children;
  }

  lemma {:induction false} DrainPendingValid(r: Receiver, f: Folding)
    requires Valid(r) && r.stage.Open? && r.directoriesReady
    ensures Valid(DrainPending(r, f)) && !DrainPending(r, f).stage.Done?
    decreases |r.pending|
  {
    if r.pending != [] {
      var s := r.(pending := r.pending[1..]);
      AcceptFileValid(s, r.pending[0], f);
      if AcceptFile(s, r.pending[0], f).stage.Open? {
        DrainPendingValid(AcceptFile(s, r.pending[0], f), f);
      }
    }
  }

  lemma ChildOverValid(r: Receiver, i: nat, skipped: bool, notified: bool)
    requires Valid(r)
    ensures Valid(ChildOver(r, i, skipped, notified))
  {
    if i < |r.children| && !r.children[i].over {
      CountOverUpdate(r.children, i);
    }
  }

  datatype Event =
    | DirectoryArrives(path: string)
    | EndArrives
    | Prepared(ok: bool, prepared: set<string>, notified: bool)
    | BeginArrives(begin: FileBegin)
    | ChildEnds(index: nat, skipped: bool, notified: bool)
    | ChildFails(code: PlanError)

  function Step(r: Receiver, e: Event, f: Folding): Receiver {
    match e
    case DirectoryArrives(path) => HandleDirectory(r, path, f)
    case EndArrives => HandleEnd(r)
    case Prepared(ok, prepared, notified) => DirectoriesPrepared(r, ok, prepared, notified, f)
    case BeginArrives(m) => ProcessFileBegin(r, m, f)
    case ChildEnds(i, skipped, notified) => ChildOver(r, i, skipped, notified)
    case ChildFails(code) => if r.stage.Open? then Fail(r, code) else r
  }

  function Run(r: Receiver, es: seq<Event>, f: Folding): Receiver
    decreases |es|
  {
    if es == [] then r else Run(Step(r, es[0], f), es[1..], f)
  }

  /** What every event keeps. */
  predicate Keeps(r: Receiver, s: Receiver) {
    Valid(s) && (r.stage.Done? ==> s == r) && s.total == r.total && s.items == r.items
  }

  lemma StepValid(r: Receiver, e: Event, f: Folding)
    requires Valid(r)
    ensures Keeps(r, Step(r, e, f))
  {
    if e.Prepared? {
      PreparedKeeps(r, e, f);
    } else if e.BeginArrives? {
      BeginKeeps(r, e, f);
    } else if e.ChildEnds? {
      ChildEndsKeeps(r, e, f);
    } else {
      OtherEventKeeps(r, e, f);
    }
  }

  lemma PreparedKeeps(r: Receiver, e: Event, f: Folding)
    requires Valid(r) && e.Prepared?
    ensures Keeps(r, Step(r, e, f))
  {
    PreparedValid(r, e.ok, e.prepared, e.notified, f);
  }

  lemma BeginKeeps(r: Receiver, e: Event, f: Folding)
    requires Valid(r) && e.BeginArrives?
    ensures Keeps(r, Step(r, e, f))
  {
    if r.stage.Open? && r.directoriesReady {
      AcceptFileValid(r, e.begin, f);
    }
  }

  lemma ChildEndsKeeps(r: Receiver, e: Event, f: Folding)
    requires Valid(r) && e.ChildEnds?
    ensures Keeps(r, Step(r, e, f))
  {
    ChildOverValid(r, e.index, e.skipped, e.notified);
  }

  lemma OtherEventKeeps(r: Receiver, e: Event, f: Folding)
    requires Valid(r) && (e.DirectoryArrives? || e.EndArrives? || e.ChildFails?)
    ensures Keeps(r, Step(r, e, f))
  {
  }

  lemma {:induction false} DrainKeepsPlan(r: Receiver, f: Folding)
    ensures DrainPending(r, f).total == r.total && DrainPending(r, f).items == r.items
    ensures DrainPending(r, f).manifestEnded == r.manifestEnded
    decreases |r.pending|
  {
    if r.pending != [] && r.stage.Open? {
      var s := AcceptFile(r.(pending := r.pending[1..]), r.pending[0], f);
      if s.pending == r.pending[1..] {
        DrainKeepsPlan(s, f);
      }
    }
  }

  lemma PreparedValid(r: Receiver, ok: bool, prepared: set<string>, notified: bool, f: Folding)
    requires Valid(r)
    ensures Keeps(r, DirectoriesPrepared(r, ok, prepared, notified, f))
  {
    if r.stage.Open? && r.manifestEnded && !r.directoriesReady {
      var s := r.(destinations := prepared + {""}, directoriesReady := true);
      DrainPendingValid(s, f);
      DrainKeepsPlan(s, f);
      CompleteKeeps(DrainPending(s, f), notified);
    }
  }

  lemma CompleteKeeps(r: Receiver, notified: bool)
    requires Valid(r) && !r.stage.Done?
    ensures Keeps(r, CompleteIfReady(r, notified))
  {
  }

  lemma {:induction false} RunValid(r: Receiver, es: seq<Event>, f: Folding)
    requires Valid(r)
    ensures Keeps(r, Run(r, es, f))
    decreases |es|
  {
    if es != [] {
      StepValid(r, es[0], f);
      RunValid(Step(r, es[0], f), es[1..], f);
    }
  }

  /** Whatever messages arrive, completed <= received <= expected holds, the received bytes never
      exceed the announced ones, a plan that is done has exactly the announced files and bytes, and
      it is done for good. */
  lemma PlanConservation(items: nat, total: nat, others: set<nat>, es: seq<Event>, more: seq<Event>, f: Folding)
    requires HandlePlanBegin(items, total, others).Some?
    ensures var r := Run(HandlePlanBegin(items, total, others).value, es, f);
            && r.completed <= r.received
            && (r.manifestEnded ==> r.received <= r.expected == items - |r.directories|)
            && r.receivedBytes == Bytes(r.children) <= total
            && (r.stage.Done? ==> r.received == r.completed == r.expected && r.receivedBytes == total
                                  && Run(r, more, f) == r)
  {
    var r := HandlePlanBegin(items, total, others).value;
    RunValid(r, es, f);
    RunValid(Run(r, es, f), more, f);
  }

  // ---------- the receiver's plan ----------

  class CopyPlanReceiverTask {
    const folding: Folding
    const items: nat
    const total: nat
    const others: set<nat>
    var stage: Stage
    var directories: seq<string>
    var expected: nat
    var manifestEnded: bool
    var directoriesReady: bool
    var destinations: set<string>
    var pending: seq<FileBegin>
    var children: seq<Child>
    var received: nat
    var receivedBytes: nat
    var completed: nat
    var hadSkipped: bool

    function View(): Receiver
      reads this
    {
      Receiver(stage, items, total, directories, expected, manifestEnded, directoriesReady, destinations, pending,
               children, received, receivedBytes, completed, hadSkipped, others)
    }

    constructor (folding: Folding, items: nat, total: nat, others: set<nat>)
      requires 0 < items <= MAX_ITEMS
      ensures Some(View()) == HandlePlanBegin(items, total, others) && this.folding == folding
    {
      this.folding, this.items, this.total, this.others := folding, items, total, others;
      stage, directories, expected, manifestEnded, directoriesReady := Open, [], 0, false, false;
      destinations, pending, children := {}, [], [];
      received, receivedBytes, completed, hadSkipped := 0, 0, 0, false;
    }

    method OnDirectory(path: string)
      modifies this`stage, this`directories
      ensures View() == HandleDirectory(old(View()), path, folding)
    {
      if !stage.Open? || manifestEnded || |directories| >= items {
        return;
      }
      for i := 0 to |directories|
        invariant View() == old(View())
        invariant forall j :: 0 <= j < i ==> folding.folded(directories[j]) != folding.folded(path)
      {
        if folding.folded(directories[i]) == folding.folded(path) {
          stage := Broken(DuplicatePath);
          return;
        }
      }
      directories := directories + [path];
    }

    method OnEnd()
      modifies this`stage, this`expected, this`manifestEnded
      ensures View() == HandleEnd(old(View()))
    {
      if !stage.Open? || manifestEnded {
        return;
      }
      if |directories| > items {
        stage := Broken(InvalidPlan);
        return;
      }
      expected := items - |directories|;
      manifestEnded := true;
    }

    method ContainsTask(task: nat) returns (found: bool)
      ensures found == HasTask(View(), task)
    {
      for i := 0 to |children|
        invariant forall j :: 0 <= j < i ==> children[j].begin.task != task
      {
        if children[i].begin.task == task {
          return true;
        }
      }
      found := task in others;
    }

    method CheckFile(m: FileBegin) returns (refused: bool)
      ensures refused == FileRefused(View(), m)
    {
      var known := ContainsTask(m.task);
      refused := received >= expected || known || m.name != FileName(m.path)
                 || ParentPath(m.path) !in destinations
                 || m.size > total || receivedBytes > total - m.size;
    }

    method FindClash(m: FileBegin) returns (clash: bool)
      ensures clash == ChildClashes(View(), m, folding)
    {
      for i := 0 to |children|
        invariant forall j :: 0 <= j < i ==> !Clashes(children[j].begin, m, folding)
      {
        if children[i].begin.fileId == m.fileId
           || folding.caseless(children[i].begin.path) == folding.caseless(m.path) {
          return true;
        }
      }
      clash := false;
    }

    method RecordFile(m: FileBegin)
      modifies this`children, this`received, this`receivedBytes
      ensures View() == Record(old(View()), m)
    {
      children := children + [Child(m, false)];
      received := received + 1;
      receivedBytes := receivedBytes + m.size;
    }

    method AddFile(m: FileBegin)
      modifies this`stage, this`children, this`received, this`receivedBytes
      ensures View() == AcceptFile(old(View()), m, folding)
    {
      var refused := CheckFile(m);
      if refused {
        stage := Broken(InvalidPlan);
        return;
      }
      var clash := FindClash(m);
      if clash {
        stage := Broken(DuplicatePath);
        return;
      }
      RecordFile(m);
    }

    method OnFileBegin(m: FileBegin)
      modifies this
      ensures View() == ProcessFileBegin(old(View()), m, folding)
    {
      if !stage.Open? || !manifestEnded {
        return;
      }
      if directoriesReady {
        AddFile(m);
        return;
      }
      if received + |pending| >= expected {
        stage := Broken(InvalidPlan);
        return;
      }
      for i := 0 to |pending|
        invariant View() == old(View())
        invariant forall j :: 0 <= j < i ==> pending[j].task != m.task && !Clashes(pending[j], m, folding)
      {
        if pending[i].task == m.task || pending[i].fileId == m.fileId
           || folding.caseless(pending[i].path) == folding.caseless(m.path) {
          return;
        }
      }
      pending := pending + [m];
    }

    method CompletePlanIfReady(notified: bool)
      modifies this`stage
      ensures View() == CompleteIfReady(old(View()), notified)
    {
      if !stage.Open? || !manifestEnded || !directoriesReady || received != expected || completed != expected {
        return;
      }
      if receivedBytes != total {
        stage := Broken(InvalidPlan);
        return;
      }
      stage := if notified then Done(hadSkipped) else Broken(CompleteFailed);
    }

    method OnDirectoriesPrepared(ok: bool, prepared: set<string>, notified: bool)
      modifies this
      ensures View() == DirectoriesPrepared(old(View()), ok, prepared, notified, folding)
    {
      if !stage.Open? || !manifestEnded || directoriesReady {
        return;
      }
      if !ok {
        stage := Broken(PrepareFailed);
        return;
      }
      for i := 0 to |directories|
        invariant View() == old(View())
        invariant forall j :: 0 <= j < i ==> directories[j] in prepared + {""}
      {
        if directories[i] !in prepared + {""} {
          stage := Broken(PrepareFailed);
          return;
        }
      }
      destinations := prepared + {""};
      directoriesReady := true;
      DrainPendingBegins();
      CompletePlanIfReady(notified);
    }

    method DrainPendingBegins()
      modifies this
      ensures View() == DrainPending(old(View()), folding)
    {
      while pending != [] && stage.Open?
        invariant DrainPending(View(), folding) == DrainPending(old(View()), folding)
        decreases |pending|
      {
        var m := pending[0];
        pending := pending[1..];
        AddFile(m);
      }
    }

    method OnChildOver(i: nat, skipped: bool, notified: bool)
      modifies this
      ensures View() == ChildOver(old(View()), i, skipped, notified)
    {
      if i >= |children| || children[i].over || !stage.Open? {
        return;
      }
      children := children[i := children[i].(over := true)];
      completed := completed + 1;
      hadSkipped := hadSkipped || skipped;
      CompletePlanIfReady(notified);
    }
  }
}
