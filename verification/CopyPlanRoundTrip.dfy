/** Every plan the scan accepts is accepted by the receiver: the manifest is taken as it is sent, the
    files in any interleaving with the preparation of the directories and with files that end, and
    the plan is done as soon as all of them are over. */
module CopyPlanRoundTrip {
  import opened Wrappers
  import opened CopyPlan
  import opened CopyPlanReceiver

  // ---------- the manifest ----------

  function TakeManifest(r: Receiver, ms: seq<ManifestMessage>, f: Folding): Receiver
    decreases |ms|
  {
    if ms == [] then r
    else
      var s := match ms[0]
               case PlanBegin(_, _) => r
               case PlanDirectory(path) => HandleDirectory(r, path, f)
               case PlanEnd => HandleEnd(r);
      TakeManifest(s, ms[1..], f)
  }

  /** The receiver after the first n directories. */
  predicate TookDirectories(r: Receiver, p: Plan, n: nat) {
    && n <= |p.directories| && 1 <= p.items <= MAX_ITEMS
    && r == HandlePlanBegin(p.items, p.total, r.others).value.(directories := p.directories[..n])
  }

  lemma DirectoryTaken(r: Receiver, p: Plan, n: nat, f: Folding)
    requires PlanOk(p, f.folded) && n < |p.directories| && TookDirectories(r, p, n)
    ensures TookDirectories(HandleDirectory(r, p.directories[n], f), p, n + 1)
  {
    assert p.directories[..n] + [p.directories[n]] == p.directories[..n + 1];
  }

  lemma {:induction false} ManifestTaken(r: Receiver, p: Plan, n: nat, f: Folding)
    requires PlanOk(p, f.folded) && TookDirectories(r, p, n)
    ensures TakeManifest(r, Manifest(p)[n + 1..], f)
         == HandlePlanBegin(p.items, p.total, r.others).value.(directories := p.directories, expected := |p.files|,
                                                    manifestEnded := true)
    decreases |p.directories| - n
  {
    var rest := Manifest(p)[n + 1..];
    ManifestAt(p, n + 1);
    assert rest[1..] == Manifest(p)[n + 2..];
    if n < |p.directories| {
      DirectoryTaken(r, p, n, f);
      ManifestTaken(HandleDirectory(r, p.directories[n], f), p, n + 1, f);
    } else {
      assert p.directories[..n] == p.directories;
      assert rest[1..] == [];
    }
  }

  // ---------- the files ----------

  /** No two files of the plan clash for the receiver. */
  predicate FilesApart(p: Plan, f: Folding) {
    forall i, j :: 0 <= i < j < |p.files| ==> f.caseless(p.files[i].path) != f.caseless(p.files[j].path)
  }

  /** What the receiver needs of a plan. */
  predicate Acceptable(p: Plan, f: Folding) {
    FilesApart(p, f) && ParentsKnown(p.directories, p.files) && p.total == Sum(p.files)
  }

  /** The scan folds more than the receiver's comparison does. */
  lemma ScannedIsAcceptable(p: Plan, f: Folding)
    requires PlanOk(p, f.folded) && Agrees(f)
    ensures Acceptable(p, f)
  {
    forall i, j | 0 <= i < j < |p.files| ensures f.caseless(p.files[i].path) != f.caseless(p.files[j].path) {
      assert f.folded(p.files[i].path) != f.folded(p.files[j].path);
    }
  }

  /** The FileBegin messages of the plan's files: in order, with fresh task and file ids. */
  predicate Announces(m: FileBegin, file: FileEntry) {
    m.path == file.path && m.size == file.size && m.name == FileName(m.path)
  }

  predicate BeginsOk(p: Plan, begins: seq<FileBegin>) {
    && |begins| == |p.files|
    && (forall i {:trigger Announces(begins[i], p.files[i])} :: 0 <= i < |begins| ==> Announces(begins[i], p.files[i]))
    && (forall i, j :: 0 <= i < j < |begins| ==>
          begins[i].task != begins[j].task && begins[i].fileId != begins[j].fileId)
  }

  predicate ChildrenAre(r: Receiver, begins: seq<FileBegin>, n: nat) {
    n <= |begins| && |r.children| == n && forall i :: 0 <= i < n ==> r.children[i].begin == begins[i]
  }

  /** The files' tasks are new to the receiver. */
  predicate NewTasks(begins: seq<FileBegin>, others: set<nat>) {
    forall i :: 0 <= i < |begins| ==> begins[i].task !in others
  }

  /** The receiver has taken the manifest and the first n files. */
  predicate Receiving(r: Receiver, p: Plan, begins: seq<FileBegin>, n: nat) {
    && Valid(r) && !r.stage.Broken? && NewTasks(begins, r.others)
    && r.total == p.total && r.manifestEnded && r.directories == p.directories && r.expected == |p.files|
    && n <= |begins|
    && (if r.directoriesReady then
          && r.pending == [] && ChildrenAre(r, begins, n)
          && Destined(r, p)
          && (r.stage.Done? <==> n == |p.files| && r.completed == n)
        else r.stage.Open? && r.pending == begins[..n] && r.children == [])
  }

  lemma {:induction false} SumPrefix(files: seq<FileEntry>, n: nat)
    requires n <= |files|
    ensures Sum(files[..n]) <= Sum(files)
    decreases |files|
  {
    if n < |files| {
      assert files[..|files| - 1][..n] == files[..n];
      SumPrefix(files[..|files| - 1], n);
    } else {
      assert files[..n] == files;
    }
  }

  lemma {:induction false} BytesAreSum(cs: seq<Child>, files: seq<FileEntry>)
    requires |cs| == |files| && forall i :: 0 <= i < |cs| ==> cs[i].begin.size == files[i].size
    ensures Bytes(cs) == Sum(files)
  {
    if cs != [] {
      BytesAreSum(cs[..|cs| - 1], files[..|files| - 1]);
    }
  }

  lemma ReceivedBytes(r: Receiver, p: Plan, begins: seq<FileBegin>, n: nat)
    requires Valid(r) && BeginsOk(p, begins) && ChildrenAre(r, begins, n)
    ensures r.receivedBytes == Sum(p.files[..n])
  {
    assert forall i :: 0 <= i < n ==> Announces(begins[i], p.files[i]);
    BytesAreSum(r.children, p.files[..n]);
  }

  predicate Destined(r: Receiver, p: Plan) {
    (forall i :: 0 <= i < |p.directories| ==> p.directories[i] in r.destinations) && "" in r.destinations
  }

  lemma ParentThere(r: Receiver, p: Plan, n: nat)
    requires ParentsKnown(p.directories, p.files) && n < |p.files| && Destined(r, p)
    ensures ParentPath(p.files[n].path) in r.destinations
  {
    assert ParentKnown(p.directories, p.files[n]);
  }

  lemma RoomForFile(r: Receiver, p: Plan, begins: seq<FileBegin>, n: nat)
    requires BeginsOk(p, begins) && n < |begins| && p.total == Sum(p.files)
    requires Valid(r) && ChildrenAre(r, begins, n)
    ensures r.receivedBytes + begins[n].size <= p.total
  {
    ReceivedBytes(r, p, begins, n);
    SumPrefix(p.files, n + 1);
    assert p.files[..n + 1][..n] == p.files[..n];
    assert Announces(begins[n], p.files[n]);
  }

  lemma FileDistinct(r: Receiver, p: Plan, begins: seq<FileBegin>, n: nat, f: Folding)
    requires FilesApart(p, f) && BeginsOk(p, begins) && n < |begins| && ChildrenAre(r, begins, n)
    ensures !ChildClashes(r, begins[n], f)
    ensures begins[n].task !in r.others ==> !HasTask(r, begins[n].task)
  {
    forall i | 0 <= i < n ensures !Clashes(r.children[i].begin, begins[n], f) {
      assert f.caseless(p.files[i].path) != f.caseless(p.files[n].path);
      assert Announces(begins[i], p.files[i]) && Announces(begins[n], p.files[n]);
    }
  }

  lemma FileNamed(p: Plan, begins: seq<FileBegin>, n: nat)
    requires BeginsOk(p, begins) && n < |begins|
    ensures begins[n].name == FileName(begins[n].path) && begins[n].path == p.files[n].path
  {
    assert Announces(begins[n], p.files[n]);
  }

  /** The next file of an accepted plan is never refused. */
  lemma FileAccepted(r: Receiver, p: Plan, begins: seq<FileBegin>, n: nat, f: Folding)
    requires Acceptable(p, f) && BeginsOk(p, begins) && n < |begins|
    requires Valid(r) && r.total == p.total && r.expected == |p.files| && ChildrenAre(r, begins, n) && Destined(r, p)
    requires NewTasks(begins, r.others)
    ensures AcceptFile(r, begins[n], f) == Record(r, begins[n])
  {
    RoomForFile(r, p, begins, n);
    ParentThere(r, p, n);
    FileDistinct(r, p, begins, n, f);
    FileNamed(p, begins, n);
    NotRefused(r, begins[n]);
    Accepted(r, begins[n], f);
  }

  lemma NotRefused(r: Receiver, m: FileBegin)
    requires r.received < r.expected && !HasTask(r, m.task) && r.receivedBytes + m.size <= r.total
    requires m.name == FileName(m.path) && ParentPath(m.path) in r.destinations
    ensures !FileRefused(r, m)
  {
  }

  lemma Accepted(r: Receiver, m: FileBegin, f: Folding)
    requires !FileRefused(r, m) && !ChildClashes(r, m, f)
    ensures AcceptFile(r, m, f) == Record(r, m)
  {
  }

  lemma NextFileReady(r: Receiver, p: Plan, begins: seq<FileBegin>, n: nat, f: Folding)
    requires Acceptable(p, f) && BeginsOk(p, begins) && n < |begins|
    requires Receiving(r, p, begins, n) && r.directoriesReady
    ensures Receiving(ProcessFileBegin(r, begins[n], f), p, begins, n + 1)
  {
    assert r.stage.Open?;
    FileAccepted(r, p, begins, n, f);
    AcceptFileValid(r, begins[n], f);
  }

  lemma PendingDistinct(r: Receiver, p: Plan, begins: seq<FileBegin>, n: nat, f: Folding)
    requires FilesApart(p, f) && BeginsOk(p, begins) && n < |begins| && r.pending == begins[..n]
    ensures !PendingClashes(r, begins[n], f)
  {
    forall i | 0 <= i < n ensures begins[i].task != begins[n].task && !Clashes(begins[i], begins[n], f) {
      assert f.caseless(p.files[i].path) != f.caseless(p.files[n].path);
      assert Announces(begins[i], p.files[i]) && Announces(begins[n], p.files[n]);
    }
  }

  lemma NextFileEarly(r: Receiver, p: Plan, begins: seq<FileBegin>, n: nat, f: Folding)
    requires Acceptable(p, f) && BeginsOk(p, begins) && n < |begins|
    requires Receiving(r, p, begins, n) && !r.directoriesReady
    ensures Receiving(ProcessFileBegin(r, begins[n], f), p, begins, n + 1)
  {
    PendingDistinct(r, p, begins, n, f);
    assert begins[..n] + [begins[n]] == begins[..n + 1];
  }

  /** The first k of n files that waited for the directories are accepted. */
  predicate Draining(r: Receiver, p: Plan, begins: seq<FileBegin>, k: nat, n: nat) {
    && k <= n <= |begins| && Valid(r) && r.stage.Open? && r.directoriesReady && r.manifestEnded && r.completed == 0
    && r.total == p.total && r.expected == |p.files| && Destined(r, p) && NewTasks(begins, r.others)
    && ChildrenAre(r, begins, k) && r.pending == begins[k..n]
  }

  lemma DrainsOne(r: Receiver, p: Plan, begins: seq<FileBegin>, k: nat, n: nat, f: Folding)
    requires Acceptable(p, f) && BeginsOk(p, begins) && k < n && Draining(r, p, begins, k, n)
    ensures r.pending[0] == begins[k]
    ensures var s := AcceptFile(r.(pending := r.pending[1..]), begins[k], f);
            Draining(s, p, begins, k + 1, n) && s == Record(r.(pending := r.pending[1..]), begins[k])
  {
    var s := r.(pending := r.pending[1..]);
    FileAccepted(s, p, begins, k, f);
    AcceptFileValid(s, begins[k], f);
  }

  lemma {:induction false} DrainAccepts(r: Receiver, p: Plan, begins: seq<FileBegin>, k: nat, n: nat, f: Folding)
    requires Acceptable(p, f) && BeginsOk(p, begins) && Draining(r, p, begins, k, n)
    ensures var s := DrainPending(r, f); s.directories == r.directories && Draining(s, p, begins, n, n)
    decreases n - k
  {
    if k < n {
      DrainsOne(r, p, begins, k, n, f);
      DrainAccepts(AcceptFile(r.(pending := r.pending[1..]), begins[k], f), p, begins, k + 1, n, f);
    }
  }

  lemma AllBytes(r: Receiver, p: Plan, begins: seq<FileBegin>, f: Folding)
    requires Acceptable(p, f) && BeginsOk(p, begins) && Valid(r) && ChildrenAre(r, begins, |begins|)
    ensures r.receivedBytes == p.total
  {
    ReceivedBytes(r, p, begins, |begins|);
    assert p.files[..|begins|] == p.files;
  }

  /** The last check behind an event. */
  lemma CompletesInTime(r: Receiver, p: Plan, begins: seq<FileBegin>, n: nat, f: Folding)
    requires Acceptable(p, f) && BeginsOk(p, begins) && Valid(r) && r.stage.Open? && r.manifestEnded
    requires r.total == p.total && r.directories == p.directories && r.expected == |p.files|
    requires r.directoriesReady && r.pending == [] && ChildrenAre(r, begins, n) && Destined(r, p)
    requires NewTasks(begins, r.others)
    ensures Receiving(CompleteIfReady(r, true), p, begins, n)
  {
    if n == |p.files| {
      AllBytes(r, p, begins, f);
    }
  }

  /** The preparation of the directories ends, all of them there. */
  lemma DirectoriesReady(r: Receiver, p: Plan, begins: seq<FileBegin>, n: nat, prepared: set<string>, f: Folding)
    requires Acceptable(p, f) && BeginsOk(p, begins)
    requires Receiving(r, p, begins, n) && !r.directoriesReady
    requires forall i :: 0 <= i < |p.directories| ==> p.directories[i] in prepared
    ensures Receiving(DirectoriesPrepared(r, true, prepared, true, f), p, begins, n)
  {
    var s := r.(destinations := prepared + {""}, directoriesReady := true);
    assert s.completed == 0;
    DrainAccepts(s, p, begins, 0, n, f);
    CompletesInTime(DrainPending(s, f), p, begins, n, f);
  }

  /** The child's record and the counts, before the last check. */
  function MarkOver(r: Receiver, i: nat, skipped: bool): Receiver
    requires i < |r.children|
  {
    r.(children := r.children[i := r.children[i].(over := true)], completed := r.completed + 1,
       hadSkipped := r.hadSkipped || skipped)
  }

  lemma MarkOverValid(r: Receiver, i: nat, skipped: bool)
    requires Valid(r) && r.stage.Open? && i < |r.children| && !r.children[i].over
    ensures Valid(MarkOver(r, i, skipped))
    ensures ChildOver(r, i, skipped, true) == CompleteIfReady(MarkOver(r, i, skipped), true)
  {
    CountOverUpdate(r.children, i);
  }

  /** A file ends, transferred or skipped. */
  lemma FileEnds(r: Receiver, p: Plan, begins: seq<FileBegin>, n: nat, i: nat, skipped: bool, f: Folding)
    requires Acceptable(p, f) && BeginsOk(p, begins) && Receiving(r, p, begins, n)
    ensures Receiving(ChildOver(r, i, skipped, true), p, begins, n)
  {
    if i < |r.children| && !r.children[i].over && r.stage.Open? {
      MarkOverValid(r, i, skipped);
      CompletesInTime(MarkOver(r, i, skipped), p, begins, n, f);
    }
  }

  // ---------- every honest run ----------

  datatype Honest =
    | NextBegin
    | DirectoriesDone(prepared: set<string>)
    | FileOver(index: nat, skipped: bool)

  predicate Enabled(r: Receiver, p: Plan, begins: seq<FileBegin>, n: nat, h: Honest) {
    match h
    case NextBegin => n < |begins|
    case DirectoriesDone(prepared) =>
      !r.directoriesReady && forall i :: 0 <= i < |p.directories| ==> p.directories[i] in prepared
    case FileOver(i, _) => i < |r.children|
  }

  function HonestStep(r: Receiver, begins: seq<FileBegin>, n: nat, h: Honest, f: Folding): (Receiver, nat)
    requires h.NextBegin? ==> n < |begins|
  {
    match h
    case NextBegin => (ProcessFileBegin(r, begins[n], f), n + 1)
    case DirectoriesDone(prepared) => (DirectoriesPrepared(r, true, prepared, true, f), n)
    case FileOver(i, skipped) => (ChildOver(r, i, skipped, true), n)
  }

  predicate HonestRun(r: Receiver, p: Plan, begins: seq<FileBegin>, n: nat, hs: seq<Honest>, f: Folding)
    decreases |hs|
  {
    hs == []
    || (Enabled(r, p, begins, n, hs[0])
        && var (s, m) := HonestStep(r, begins, n, hs[0], f); HonestRun(s, p, begins, m, hs[1..], f))
  }

  function HonestEnd(r: Receiver, p: Plan, begins: seq<FileBegin>, n: nat, hs: seq<Honest>, f: Folding): (Receiver, nat)
    requires HonestRun(r, p, begins, n, hs, f)
    decreases |hs|
  {
    if hs == [] then (r, n)
    else var (s, m) := HonestStep(r, begins, n, hs[0], f); HonestEnd(s, p, begins, m, hs[1..], f)
  }

  lemma HonestStepOk(r: Receiver, p: Plan, begins: seq<FileBegin>, n: nat, h: Honest, f: Folding)
    requires Acceptable(p, f) && BeginsOk(p, begins)
    requires Receiving(r, p, begins, n) && Enabled(r, p, begins, n, h)
    ensures var (s, m) := HonestStep(r, begins, n, h, f); Receiving(s, p, begins, m)
  {
    match h
    case NextBegin =>
      if r.directoriesReady {
        NextFileReady(r, p, begins, n, f);
      } else {
        NextFileEarly(r, p, begins, n, f);
      }
    case DirectoriesDone(prepared) => DirectoriesReady(r, p, begins, n, prepared, f);
    case FileOver(i, skipped) => FileEnds(r, p, begins, n, i, skipped, f);
  }

  lemma {:induction false} HonestRunOk(r: Receiver, p: Plan, begins: seq<FileBegin>, n: nat, hs: seq<Honest>,
                                       f: Folding)
    requires Acceptable(p, f) && BeginsOk(p, begins)
    requires Receiving(r, p, begins, n) && HonestRun(r, p, begins, n, hs, f)
    ensures var (s, m) := HonestEnd(r, p, begins, n, hs, f); Receiving(s, p, begins, m)
    decreases |hs|
  {
    if hs != [] {
      HonestStepOk(r, p, begins, n, hs[0], f);
      var (s, m) := HonestStep(r, begins, n, hs[0], f);
      HonestRunOk(s, p, begins, m, hs[1..], f);
    }
  }

  /** Round trip: for every selection the scan accepts, the receiver accepts the manifest and then every
      interleaving of the file announcements, the directories' preparation and files that end; it is
      never broken, and it is done exactly when the directories are ready and every file is over. */
  lemma AcceptedPlanCompletes(selections: seq<Selection>, f: Folding, begins: seq<FileBegin>, others: set<nat>,
                              hs: seq<Honest>)
    requires forall i :: 0 <= i < |selections| ==> SelectionOk(selections[i])
    requires Agrees(f) && ScanPlan(selections, f.folded).Some?
    requires BeginsOk(ScanPlan(selections, f.folded).value, begins) && NewTasks(begins, others)
    ensures var p := ScanPlan(selections, f.folded).value;
            && HandlePlanBegin(p.items, p.total, others).Some?
            && var r := TakeManifest(HandlePlanBegin(p.items, p.total, others).value, Manifest(p)[1..], f);
            && r.directories == p.directories && r.expected == |p.files|
            && (HonestRun(r, p, begins, 0, hs, f) ==>
                  var (s, n) := HonestEnd(r, p, begins, 0, hs, f);
                  && !s.stage.Broken?
                  && (s.stage.Done? <==> s.directoriesReady && n == |p.files| && s.completed == n)
                  && (s.stage.Done? ==> s.receivedBytes == p.total))
  {
    ScannedPlanOk(selections, f.folded);
    var p := ScanPlan(selections, f.folded).value;
    var start := HandlePlanBegin(p.items, p.total, others).value;
    ManifestTaken(start, p, 0, f);
    var r := TakeManifest(start, Manifest(p)[1..], f);
    assert begins[..0] == [];
    ScannedIsAcceptable(p, f);
    if HonestRun(r, p, begins, 0, hs, f) {
      HonestRunOk(r, p, begins, 0, hs, f);
    }
  }
}
