/** Copy plans on the sending side: relative paths, the scan of the selected entries, the manifest
    that is pumped out under backpressure, and the queue of the plan's files. */
module CopyPlan {
  import opened Wrappers

  const MAX_ITEMS: nat := 50000
  const BATCH: nat := 128
  const MAX_UINT64: nat := 0xFFFF_FFFF_FFFF_FFFF

  // ---------- relative paths ----------

  /** The index of the last slash, or -1. */
  function LastSlash(s: string): (r: int)
    ensures -1 <= r < |s|
  {
    if s == "" then -1 else if s[|s| - 1] == '/' then |s| - 1 else LastSlash(s[..|s| - 1])
  }

  function ChildPath(parent: string, name: string): string {
    if parent == "" then name else parent + "/" + name
  }

  function ParentPath(path: string): string {
    var k := LastSlash(path);
    if k < 0 then "" else path[..k]
  }

  function FileName(path: string): string {
    path[LastSlash(path) + 1..]
  }

  /** It is the only index with a slash and none behind. */
  lemma {:induction false} LastSlashIs(s: string, k: int)
    requires -1 <= k < |s|
    ensures LastSlash(s) == k <==> (k >= 0 ==> s[k] == '/') && (forall i :: k < i < |s| ==> s[i] != '/')
  {
    if s != "" && s[|s| - 1] != '/' && k < |s| - 1 {
      LastSlashIs(s[..|s| - 1], k);
    }
  }

  lemma SlashBelow(folder: string, path: string)
    ensures LastSlash(folder + "/" + path)
         == if LastSlash(path) < 0 then |folder| else |folder| + 1 + LastSlash(path)
  {
    var s := folder + "/" + path;
    var k := LastSlash(path);
    LastSlashIs(path, k);
    assert forall i :: 0 <= i < |path| ==> s[|folder| + 1 + i] == path[i];
    LastSlashIs(s, if k < 0 then |folder| else |folder| + 1 + k);
  }

  /** A path below a folder: its parent is the parent's path below the folder. */
  lemma ParentBelow(folder: string, path: string)
    requires folder != "" && path != "" && LastSlash(path) != 0
    ensures ParentPath(ChildPath(folder, path))
         == if ParentPath(path) == "" then folder else ChildPath(folder, ParentPath(path))
    ensures FileName(ChildPath(folder, path)) == FileName(path)
  {
    SlashBelow(folder, path);
    if LastSlash(path) < 0 {
      TopLevelBelow(folder, path);
    } else {
      DeeperBelow(folder, path, LastSlash(path));
    }
  }

  lemma TopLevelBelow(folder: string, path: string)
    ensures (folder + "/" + path)[..|folder|] == folder
    ensures (folder + "/" + path)[|folder| + 1..] == path
  {
  }

  lemma DeeperBelow(folder: string, path: string, k: nat)
    requires k < |path|
    ensures (folder + "/" + path)[..|folder| + 1 + k] == folder + "/" + path[..k]
    ensures (folder + "/" + path)[|folder| + 1 + k + 1..] == path[k + 1..]
  {
    Slices(folder + "/", path, k);
    Slices(folder + "/", path, k + 1);
  }

  lemma Slices(a: string, b: string, n: nat)
    requires n <= |b|
    ensures (a + b)[..|a| + n] == a + b[..n] && (a + b)[|a| + n..] == b[n..]
  {
  }

  // ---------- the scan ----------

  datatype FileEntry = FileEntry(path: string, size: nat)

  /** What the file system finds below a folder, as paths relative to it. */
  datatype Tree = Tree(directories: seq<string>, files: seq<FileEntry>)

  datatype Selection =
    | FileSelection(name: string, size: nat)
    | FolderSelection(name: string, tree: Option<Tree>)   // None: the folder cannot be read

  datatype Scan = Scan(keys: set<string>, items: nat, directories: seq<string>, files: seq<FileEntry>, total: nat)

  const EMPTY_SCAN := Scan({}, 0, [], [], 0)

  function AddDirectory(s: Scan, path: string, fold: string -> string): Option<Scan> {
    if fold(path) in s.keys then None
    else Some(s.(keys := s.keys + {fold(path)}, directories := s.directories + [path]))
  }

  function AddFile(s: Scan, file: FileEntry, fold: string -> string): Option<Scan> {
    if fold(file.path) in s.keys || s.total > MAX_UINT64 - file.size then None
    else Some(s.(keys := s.keys + {fold(file.path)}, files := s.files + [file], total := s.total + file.size))
  }

  function AddDirectories(s: Scan, folder: string, paths: seq<string>, fold: string -> string): Option<Scan>
    decreases |paths|
  {
    if paths == [] then Some(s)
    else
      var t := AddDirectory(s, ChildPath(folder, paths[0]), fold);
      if t.None? then None else AddDirectories(t.value, folder, paths[1..], fold)
  }

  function AddFiles(s: Scan, folder: string, files: seq<FileEntry>, fold: string -> string): Option<Scan>
    decreases |files|
  {
    if files == [] then Some(s)
    else
      var t := AddFile(s, files[0].(path := ChildPath(folder, files[0].path)), fold);
      if t.None? then None else AddFiles(t.value, folder, files[1..], fold)
  }

  /** `expandDirectoryTree` with a limit on the entries. */
  function Expand(tree: Option<Tree>, limit: nat): Option<Tree> {
    if tree.None? || |tree.value.directories| + |tree.value.files| > limit then None else tree
  }

  function AddFolder(s: Scan, name: string, tree: Option<Tree>, fold: string -> string): Option<Scan> {
    if s.items + 1 > MAX_ITEMS then None
    else
      var remaining := MAX_ITEMS - s.items - 1;
      var found := Expand(tree, if remaining > 1 then remaining else 1);
      if found.None? then None
      else
        var t := found.value;
        var items := s.items + 1 + |t.directories| + |t.files|;
        if items > MAX_ITEMS then None
        else
          var a := AddDirectory(s.(items := items), name, fold);
          if a.None? then None
          else
            var b := AddDirectories(a.value, name, t.directories, fold);
            if b.None? then None else AddFiles(b.value, name, t.files, fold)
  }

  function AddSelection(s: Scan, selection: Selection, fold: string -> string): Option<Scan> {
    match selection
    case FileSelection(name, size) =>
      if s.items + 1 > MAX_ITEMS then None
      else AddFile(s.(items := s.items + 1), FileEntry(name, size), fold)
    case FolderSelection(name, tree) => AddFolder(s, name, tree, fold)
  }

  function AddSelections(s: Scan, selections: seq<Selection>, fold: string -> string): Option<Scan>
    decreases |selections|
  {
    if selections == [] then Some(s)
    else
      var t := AddSelection(s, selections[0], fold);
      if t.None? then None else AddSelections(t.value, selections[1..], fold)
  }

  datatype Plan = Plan(directories: seq<string>, files: seq<FileEntry>, items: nat, total: nat)

  function ScanPlan(selections: seq<Selection>, fold: string -> string): Option<Plan> {
    var s := AddSelections(EMPTY_SCAN, selections, fold);
    if s.None? || s.value.items == 0 then None
    else Some(Plan(s.value.directories, s.value.files, |s.value.directories| + |s.value.files|, s.value.total))
  }

  // ---------- what an accepted plan is ----------

  function Sum(files: seq<FileEntry>): nat {
    if files == [] then 0 else Sum(files[..|files| - 1]) + files[|files| - 1].size
  }

  predicate DistinctPaths(directories: seq<string>, files: seq<FileEntry>, fold: string -> string) {
    && (forall i, j :: 0 <= i < j < |directories| ==> fold(directories[i]) != fold(directories[j]))
    && (forall i, j :: 0 <= i < j < |files| ==> fold(files[i].path) != fold(files[j].path))
    && (forall i, j :: 0 <= i < |directories| && 0 <= j < |files| ==> fold(directories[i]) != fold(files[j].path))
  }

  predicate ParentKnown(directories: seq<string>, file: FileEntry) {
    ParentPath(file.path) == "" || ParentPath(file.path) in directories
  }

  predicate ParentsKnown(directories: seq<string>, files: seq<FileEntry>) {
    forall i {:trigger ParentKnown(directories, files[i])} :: 0 <= i < |files| ==> ParentKnown(directories, files[i])
  }

  predicate ScanOk(s: Scan, fold: string -> string) {
    && DistinctPaths(s.directories, s.files, fold)
    && (forall i :: 0 <= i < |s.directories| ==> fold(s.directories[i]) in s.keys)
    && (forall i :: 0 <= i < |s.files| ==> fold(s.files[i].path) in s.keys)
    && ParentsKnown(s.directories, s.files)
    && s.total == Sum(s.files) <= MAX_UINT64
  }

  predicate PlanOk(p: Plan, fold: string -> string) {
    && DistinctPaths(p.directories, p.files, fold) && ParentsKnown(p.directories, p.files)
    && p.items == |p.directories| + |p.files| && 1 <= p.items <= MAX_ITEMS
    && p.total == Sum(p.files) <= MAX_UINT64
  }

  /** What the file system promises of an expansion: no empty or absolute path, and every entry's
      parent folder is listed too. */
  predicate TreeOk(t: Tree) {
    && (forall i :: 0 <= i < |t.directories| ==> t.directories[i] != "" && LastSlash(t.directories[i]) != 0)
    && (forall i :: 0 <= i < |t.files| ==> t.files[i].path != "" && LastSlash(t.files[i].path) != 0)
    && ParentsKnown(t.directories, t.files)
  }

  predicate SelectionOk(s: Selection) {
    s.name != "" && LastSlash(s.name) < 0 && (s.FolderSelection? && s.tree.Some? ==> TreeOk(s.tree.value))
  }

  lemma AddFileOk(s: Scan, file: FileEntry, fold: string -> string)
    requires ScanOk(s, fold) && AddFile(s, file, fold).Some?
    requires ParentKnown(s.directories, file)
    ensures ScanOk(AddFile(s, file, fold).value, fold)
  {
    assert (s.files + [file])[..|s.files|] == s.files;
  }

  lemma AddDirectoryOk(s: Scan, path: string, fold: string -> string)
    requires ScanOk(s, fold) && AddDirectory(s, path, fold).Some?
    ensures ScanOk(AddDirectory(s, path, fold).value, fold)
  {
    forall i | 0 <= i < |s.files| ensures ParentKnown(s.directories + [path], s.files[i]) {
      assert ParentKnown(s.directories, s.files[i]);
    }
  }

  lemma {:induction false} AddDirectoriesOk(s: Scan, folder: string, paths: seq<string>, fold: string -> string)
    requires ScanOk(s, fold) && AddDirectories(s, folder, paths, fold).Some?
    ensures var t := AddDirectories(s, folder, paths, fold).value;
            && ScanOk(t, fold) && t.files == s.files && t.items == s.items
            && |t.directories| == |s.directories| + |paths|
            && (forall d :: d in s.directories ==> d in t.directories)
            && (forall i :: 0 <= i < |paths| ==> ChildPath(folder, paths[i]) in t.directories)
    decreases |paths|
  {
    if paths != [] {
      var t := AddDirectory(s, ChildPath(folder, paths[0]), fold).value;
      AddDirectoryOk(s, ChildPath(folder, paths[0]), fold);
      assert t.directories[|s.directories|] == ChildPath(folder, paths[0]);
      AddDirectoriesOk(t, folder, paths[1..], fold);
      assert forall i :: 0 < i < |paths| ==> paths[i] == paths[1..][i - 1];
    }
  }

  lemma {:induction false} AddFilesOk(s: Scan, folder: string, files: seq<FileEntry>, fold: string -> string)
    requires ScanOk(s, fold) && AddFiles(s, folder, files, fold).Some? && folder in s.directories && folder != ""
    requires forall i :: 0 <= i < |files| ==> files[i].path != "" && LastSlash(files[i].path) != 0
    requires forall i :: 0 <= i < |files| ==>
               ParentPath(files[i].path) == "" || ChildPath(folder, ParentPath(files[i].path)) in s.directories
    ensures var t := AddFiles(s, folder, files, fold).value;
            && ScanOk(t, fold) && t.directories == s.directories && t.items == s.items
            && |t.files| == |s.files| + |files|
    decreases |files|
  {
    if files != [] {
      var file := files[0].(path := ChildPath(folder, files[0].path));
      ParentBelow(folder, files[0].path);
      AddFileOk(s, file, fold);
      AddFilesOk(AddFile(s, file, fold).value, folder, files[1..], fold);
    }
  }

  lemma AddFolderOk(s: Scan, name: string, tree: Option<Tree>, fold: string -> string)
    requires ScanOk(s, fold) && s.items == |s.directories| + |s.files|
    requires name != "" && (tree.Some? ==> TreeOk(tree.value))
    requires AddFolder(s, name, tree, fold).Some?
    ensures var t := AddFolder(s, name, tree, fold).value;
            ScanOk(t, fold) && t.items == |t.directories| + |t.files| <= MAX_ITEMS
  {
    var items := s.items + 1 + |tree.value.directories| + |tree.value.files|;
    var a := AddDirectory(s.(items := items), name, fold).value;
    AddDirectoryOk(s.(items := items), name, fold);
    assert a.directories[|s.directories|] == name;
    AddDirectoriesOk(a, name, tree.value.directories, fold);
    forall i | 0 <= i < |tree.value.files|
      ensures ParentPath(tree.value.files[i].path) == ""
              || ParentPath(tree.value.files[i].path) in tree.value.directories
    {
      assert ParentKnown(tree.value.directories, tree.value.files[i]);
    }
    var b := AddDirectories(a, name, tree.value.directories, fold).value;
    AddFilesOk(b, name, tree.value.files, fold);
  }

  lemma {:induction false} AddSelectionsOk(s: Scan, selections: seq<Selection>, fold: string -> string)
    requires ScanOk(s, fold) && s.items == |s.directories| + |s.files| <= MAX_ITEMS
    requires forall i :: 0 <= i < |selections| ==> SelectionOk(selections[i])
    requires AddSelections(s, selections, fold).Some?
    ensures var t := AddSelections(s, selections, fold).value;
            ScanOk(t, fold) && t.items == |t.directories| + |t.files| <= MAX_ITEMS
    decreases |selections|
  {
    if selections != [] {
      assert SelectionOk(selections[0]);
      match selections[0] {
        case FileSelection(name, size) =>
          AddFileOk(s.(items := s.items + 1), FileEntry(name, size), fold);
        case FolderSelection(name, tree) =>
          AddFolderOk(s, name, tree, fold);
      }
      AddSelectionsOk(AddSelection(s, selections[0], fold).value, selections[1..], fold);
    }
  }

  /** An accepted plan has between 1 and 50000 items with pairwise different folded paths, every
      file's parent folder among its directories, and the exact 64-bit byte total. */
  lemma ScannedPlanOk(selections: seq<Selection>, fold: string -> string)
    requires forall i :: 0 <= i < |selections| ==> SelectionOk(selections[i])
    requires ScanPlan(selections, fold).Some?
    ensures PlanOk(ScanPlan(selections, fold).value, fold)
  {
    AddSelectionsOk(EMPTY_SCAN, selections, fold);
  }

  /** The scan job, with its loops over the selections, the directories and the files. */
  method ScanSelections(selections: seq<Selection>, fold: string -> string) returns (plan: Option<Plan>)
    ensures plan == ScanPlan(selections, fold)
  {
    var s := EMPTY_SCAN;
    var i := 0;
    while i < |selections|
      invariant i <= |selections|
      invariant AddSelections(s, selections[i..], fold) == AddSelections(EMPTY_SCAN, selections, fold)
    {
      var t := ScanSelection(s, selections[i], fold);
      assert selections[i..][1..] == selections[i + 1..];
      if t.None? {
        return None;
      }
      s := t.value;
      i := i + 1;
    }
    plan := if s.items == 0 then None
            else Some(Plan(s.directories, s.files, |s.directories| + |s.files|, s.total));
  }

  method ScanSelection(start: Scan, selection: Selection, fold: string -> string) returns (r: Option<Scan>)
    ensures r == AddSelection(start, selection, fold)
  {
    if selection.FileSelection? {
      var items := start.items + 1;
      if items > MAX_ITEMS {
        return None;
      }
      r := AddFile(start.(items := items), FileEntry(selection.name, selection.size), fold);
      return;
    }
    r := ScanFolder(start, selection.name, selection.tree, fold);
  }

  method ScanFolder(start: Scan, name: string, tree: Option<Tree>, fold: string -> string) returns (r: Option<Scan>)
    ensures r == AddFolder(start, name, tree, fold)
  {
    if start.items + 1 > MAX_ITEMS {
      return None;
    }
    var remaining := MAX_ITEMS - start.items - 1;
    var found := Expand(tree, if remaining > 1 then remaining else 1);
    if found.None? {
      return None;
    }
    var items := start.items + 1 + |found.value.directories| + |found.value.files|;
    if items > MAX_ITEMS {
      return None;
    }
    r := AddDirectory(start.(items := items), name, fold);
    if r.Some? {
      r := ScanDirectories(r.value, name, found.value.directories, fold);
    }
    if r.Some? {
      r := ScanFiles(r.value, name, found.value.files, fold);
    }
  }

  method ScanDirectories(start: Scan, folder: string, paths: seq<string>, fold: string -> string)
    returns (r: Option<Scan>)
    ensures r == AddDirectories(start, folder, paths, fold)
  {
    var s := start;
    var i := 0;
    while i < |paths|
      invariant i <= |paths|
      invariant AddDirectories(s, folder, paths[i..], fold) == AddDirectories(start, folder, paths, fold)
    {
      var t := AddDirectory(s, ChildPath(folder, paths[i]), fold);
      assert paths[i..][1..] == paths[i + 1..];
      if t.None? {
        return None;
      }
      s := t.value;
      i := i + 1;
    }
    r := Some(s);
  }

  method ScanFiles(start: Scan, folder: string, files: seq<FileEntry>, fold: string -> string)
    returns (r: Option<Scan>)
    ensures r == AddFiles(start, folder, files, fold)
  {
    var s := start;
    var i := 0;
    while i < |files|
      invariant i <= |files|
      invariant AddFiles(s, folder, files[i..], fold) == AddFiles(start, folder, files, fold)
    {
      var t := AddFile(s, files[i].(path := ChildPath(folder, files[i].path)), fold);
      assert files[i..][1..] == files[i + 1..];
      if t.None? {
        return None;
      }
      s := t.value;
      i := i + 1;
    }
    r := Some(s);
  }

  // ---------- the manifest ----------

  datatype ManifestMessage = PlanBegin(items: nat, total: nat) | PlanDirectory(path: string) | PlanEnd

  function DirectoryMessages(paths: seq<string>): (r: seq<ManifestMessage>)
    ensures |r| == |paths|
    ensures forall i :: 0 <= i < |paths| ==> r[i] == PlanDirectory(paths[i])
  {
    seq(|paths|, i requires 0 <= i < |paths| => PlanDirectory(paths[i]))
  }

  /** What the receiver must be told: Begin, every directory in order, End. */
  function Manifest(p: Plan): seq<ManifestMessage> {
    [PlanBegin(p.items, p.total)] + DirectoryMessages(p.directories) + [PlanEnd]
  }

  datatype PlanSender = PlanSender(
    plan: Plan, beginSent: bool, nextDirectory: nat, endSent: bool, manifestEnded: bool,
    failed: bool, sent: seq<ManifestMessage>)

  function NewPlanSender(p: Plan): PlanSender {
    PlanSender(p, false, 0, false, false, false, [])
  }

  /** The control path takes `room` messages during one pump; where it stops, the plan fails or, under
      backpressure, waits for the next pump. */
  function StopPump(s: PlanSender, fails: bool): PlanSender {
    if fails then s.(failed := true) else s
  }

  function PumpEnd(s: PlanSender, room: nat, fails: bool): PlanSender {
    if s.endSent then s.(manifestEnded := true)
    else if room == 0 then StopPump(s, fails)
    else s.(endSent := true, sent := s.sent + [PlanEnd], manifestEnded := true)
  }

  function PumpDirectories(s: PlanSender, room: nat, fails: bool): PlanSender
    decreases room
  {
    if s.nextDirectory >= |s.plan.directories| then PumpEnd(s, room, fails)
    else if room == 0 then StopPump(s, fails)
    else PumpDirectories(s.(sent := s.sent + [PlanDirectory(s.plan.directories[s.nextDirectory])],
                            nextDirectory := s.nextDirectory + 1), room - 1, fails)
  }

  function PumpManifest(s: PlanSender, room: nat, fails: bool): PlanSender {
    if s.manifestEnded || s.failed then s
    else if s.beginSent then PumpDirectories(s, room, fails)
    else if room == 0 then StopPump(s, fails)
    else PumpDirectories(s.(beginSent := true, sent := s.sent + [PlanBegin(s.plan.items, s.plan.total)]),
                         room - 1, fails)
  }

  predicate SenderOk(s: PlanSender) {
    && s.nextDirectory <= |s.plan.directories|
    && |s.sent| == (if s.beginSent then 1 else 0) + s.nextDirectory + (if s.endSent then 1 else 0)
    && |s.sent| <= |Manifest(s.plan)| && s.sent == Manifest(s.plan)[..|s.sent|]
    && (!s.beginSent ==> s.nextDirectory == 0 && !s.endSent)
    && (s.endSent ==> s.nextDirectory == |s.plan.directories|)
    && (s.manifestEnded <==> s.endSent)
  }

  function Least(a: nat, b: nat): nat { if a < b then a else b }

  lemma ManifestAt(p: Plan, k: nat)
    requires k < |Manifest(p)|
    ensures Manifest(p)[k] == if k == 0 then PlanBegin(p.items, p.total)
                              else if k <= |p.directories| then PlanDirectory(p.directories[k - 1])
                              else PlanEnd
    ensures Manifest(p)[..k + 1] == Manifest(p)[..k] + [Manifest(p)[k]]
  {
  }

  lemma {:induction false} PumpDirectoriesOk(s: PlanSender, room: nat, fails: bool)
    requires SenderOk(s) && s.beginSent && !s.manifestEnded && !s.failed
    ensures var t := PumpDirectories(s, room, fails);
            && SenderOk(t) && t.plan == s.plan
            && |t.sent| == Least(|s.sent| + room, |Manifest(s.plan)|)
            && (t.failed ==> fails && !t.manifestEnded)
    decreases room
  {
    if s.nextDirectory < |s.plan.directories| {
      if room > 0 {
        ManifestAt(s.plan, |s.sent|);
        PumpDirectoriesOk(s.(sent := s.sent + [PlanDirectory(s.plan.directories[s.nextDirectory])],
                             nextDirectory := s.nextDirectory + 1), room - 1, fails);
      }
    } else if room > 0 {
      ManifestAt(s.plan, |s.sent|);
    }
  }

  /** One pump sends exactly as much of the manifest as the control path takes, in order. */
  lemma PumpOk(s: PlanSender, room: nat, fails: bool)
    requires SenderOk(s)
    ensures var t := PumpManifest(s, room, fails);
            && SenderOk(t) && t.plan == s.plan
            && (!s.failed ==> |t.sent| == Least(|s.sent| + room, |Manifest(s.plan)|))
            && (t.failed ==> s.failed || fails)
  {
    if !s.manifestEnded && !s.failed {
      if s.beginSent {
        PumpDirectoriesOk(s, room, fails);
      } else if room > 0 {
        ManifestAt(s.plan, 0);
        PumpDirectoriesOk(s.(beginSent := true, sent := s.sent + [PlanBegin(s.plan.items, s.plan.total)]),
                          room - 1, fails);
      }
    }
  }

  datatype PumpCall = PumpCall(room: nat, fails: bool)

  function PumpAll(s: PlanSender, calls: seq<PumpCall>): PlanSender
    decreases |calls|
  {
    if calls == [] then s else PumpAll(PumpManifest(s, calls[0].room, calls[0].fails), calls[1..])
  }

  function Room(calls: seq<PumpCall>): nat {
    if calls == [] then 0 else calls[0].room + Room(calls[1..])
  }

  lemma {:induction false} PumpAllOk(s: PlanSender, calls: seq<PumpCall>)
    requires SenderOk(s)
    ensures var t := PumpAll(s, calls);
            && SenderOk(t) && t.plan == s.plan
            && (!s.failed && (forall i :: 0 <= i < |calls| ==> !calls[i].fails) ==>
                  !t.failed && |t.sent| == Least(|s.sent| + Room(calls), |Manifest(s.plan)|))
    decreases |calls|
  {
    if calls != [] {
      PumpOk(s, calls[0].room, calls[0].fails);
      PumpAllOk(PumpManifest(s, calls[0].room, calls[0].fails), calls[1..]);
    }
  }

  /** However often the pump is stopped by backpressure, what it has sent is a prefix of the manifest,
      it counts the manifest as ended exactly when all of it went out, and it gets there as soon as
      the control path has taken that many messages in all. */
  lemma ManifestGoesOutOnce(p: Plan, calls: seq<PumpCall>)
    ensures var t := PumpAll(NewPlanSender(p), calls);
            && |t.sent| <= |Manifest(p)| && t.sent == Manifest(p)[..|t.sent|]
            && (t.manifestEnded <==> t.sent == Manifest(p))
            && ((forall i :: 0 <= i < |calls| ==> !calls[i].fails) && Room(calls) >= |p.directories| + 2
                ==> t.manifestEnded)
  {
    PumpAllOk(NewPlanSender(p), calls);
    var t := PumpAll(NewPlanSender(p), calls);
    assert |t.sent| == |Manifest(p)| ==> t.sent == Manifest(p);
  }

  // ---------- the queue of the plan's files ----------

  datatype QueuedTask = PlanFile(file: FileEntry) | OtherTask(id: nat)

  function PlanFiles(files: seq<FileEntry>): (r: seq<QueuedTask>)
    ensures |r| == |files|
    ensures forall i :: 0 <= i < |files| ==> r[i] == PlanFile(files[i])
  {
    seq(|files|, i requires 0 <= i < |files| => PlanFile(files[i]))
  }

  /** One batch of `queuePlanFiles`: files are put in front of the queue, last to first. */
  function QueueBatch(queue: seq<QueuedTask>, files: seq<FileEntry>, next: int, left: nat):
    (r: (seq<QueuedTask>, int))
    requires -1 <= next < |files|
    ensures -1 <= r.1 <= next
    decreases next + 1
  {
    if next < 0 || left == 0 then (queue, next)
    else QueueBatch([PlanFile(files[next])] + queue, files, next - 1, left - 1)
  }

  lemma PlanFilesGrow(files: seq<FileEntry>, a: nat, b: nat)
    requires a <= b < |files|
    ensures PlanFiles(files[a..b]) + [PlanFile(files[b])] == PlanFiles(files[a..b + 1])
  {
  }

  lemma Associate(a: seq<QueuedTask>, b: seq<QueuedTask>, c: seq<QueuedTask>)
    ensures a + (b + c) == (a + b) + c
  {
  }

  lemma {:induction false} QueueBatchOrder(queue: seq<QueuedTask>, files: seq<FileEntry>, next: int, left: nat)
    requires -1 <= next < |files|
    ensures var (q, n) := QueueBatch(queue, files, next, left);
            && n == (if next - left < -1 then -1 else next - left)
            && q == PlanFiles(files[n + 1..next + 1]) + queue
    decreases next + 1
  {
    if next < 0 || left == 0 {
      assert files[next + 1..next + 1] == [];
    } else {
      QueueBatchOrder([PlanFile(files[next])] + queue, files, next - 1, left - 1);
      var n := QueueBatch(queue, files, next, left).1;
      PlanFilesGrow(files, n + 1, next);
      Associate(PlanFiles(files[n + 1..next]), [PlanFile(files[next])], queue);
    }
  }

  lemma PlanFilesSplit(files: seq<FileEntry>, a: nat, b: nat)
    requires a <= b <= |files|
    ensures PlanFiles(files[a..b]) + PlanFiles(files[b..]) == PlanFiles(files[a..])
  {
  }

  function Back(next: int, rounds: nat): int {
    if next - BATCH * rounds < -1 then -1 else next - BATCH * rounds
  }

  // ---------- the manifest, and then the files ----------

  datatype CopySender = CopySender(
    manifest: PlanSender, queue: seq<QueuedTask>, nextFile: int, childrenQueued: bool)
  {
    predicate InRange() { -1 <= nextFile < |manifest.plan.files| }
  }

  function NewCopySender(p: Plan, queue: seq<QueuedTask>): CopySender {
    CopySender(NewPlanSender(p), queue, |p.files| - 1, false)
  }

  function QueueFiles(c: CopySender): CopySender
    requires c.InRange()
  {
    if c.childrenQueued then c
    else
      var (q, n) := QueueBatch(c.queue, c.manifest.plan.files, c.nextFile, BATCH);
      c.(queue := q, nextFile := n, childrenQueued := n < 0)
  }

  /** `pumpPlanManifest`: the pump that sends the end of the manifest queues the first batch. */
  function Pump(c: CopySender, room: nat, fails: bool): CopySender
    requires c.InRange()
  {
    var d := c.(manifest := PumpManifest(c.manifest, room, fails));
    PumpKeepsPlan(c.manifest, room, fails);
    if d.manifest.manifestEnded && !c.manifest.manifestEnded then QueueFiles(d) else d
  }

  lemma PumpKeepsPlan(s: PlanSender, room: nat, fails: bool)
    ensures PumpManifest(s, room, fails).plan == s.plan
  {
    if s.beginSent {
      PumpDirectoriesPlan(s, room, fails);
    } else if room > 0 {
      PumpDirectoriesPlan(s.(beginSent := true, sent := s.sent + [PlanBegin(s.plan.items, s.plan.total)]),
                          room - 1, fails);
    }
  }

  lemma {:induction false} PumpDirectoriesPlan(s: PlanSender, room: nat, fails: bool)
    ensures PumpDirectories(s, room, fails).plan == s.plan
    decreases room
  {
    if s.nextDirectory < |s.plan.directories| && room > 0 {
      PumpDirectoriesPlan(s.(sent := s.sent + [PlanDirectory(s.plan.directories[s.nextDirectory])],
                             nextDirectory := s.nextDirectory + 1), room - 1, fails);
    }
  }

  /** `NextBatch` is the timer behind an unfinished batch; other tasks may be queued at any time. */
  datatype PlanStep = PumpStep(room: nat, fails: bool) | NextBatch | OthersQueued(tasks: seq<QueuedTask>)

  predicate PlanEnabled(c: CopySender, step: PlanStep) {
    step.NextBatch? ==> c.manifest.manifestEnded && !c.childrenQueued
  }

  function PlanNext(c: CopySender, step: PlanStep): (d: CopySender)
    requires c.InRange()
    ensures d.InRange()
  {
    match step
    case PumpStep(room, fails) =>
      PumpKeepsPlan(c.manifest, room, fails);
      Pump(c, room, fails)
    case NextBatch => QueueFiles(c)
    case OthersQueued(tasks) => c.(queue := c.queue + tasks)
  }

  predicate PlanRuns(c: CopySender, steps: seq<PlanStep>)
    requires c.InRange()
    decreases |steps|
  {
    steps == [] || (PlanEnabled(c, steps[0]) && PlanRuns(PlanNext(c, steps[0]), steps[1..]))
  }

  function PlanAfter(c: CopySender, steps: seq<PlanStep>): CopySender
    requires c.InRange()
    decreases |steps|
  {
    if steps == [] then c else PlanAfter(PlanNext(c, steps[0]), steps[1..])
  }

  /** The tasks that others queued, in order. */
  function OtherTasks(steps: seq<PlanStep>): seq<QueuedTask> {
    if steps == [] then []
    else (if steps[0].OthersQueued? then steps[0].tasks else []) + OtherTasks(steps[1..])
  }

  function Batches(steps: seq<PlanStep>): nat {
    if steps == [] then 0 else (if steps[0].NextBatch? then 1 else 0) + Batches(steps[1..])
  }

  function Taken(steps: seq<PlanStep>): nat {
    if steps == [] then 0 else (if steps[0].PumpStep? then steps[0].room else 0) + Taken(steps[1..])
  }

  predicate FailsNever(steps: seq<PlanStep>) {
    forall i :: 0 <= i < |steps| ==> !(steps[i].PumpStep? && steps[i].fails)
  }

  /** Files are queued only behind all of the manifest, `rounds` batches of them in their order, in
      front of every other task. */
  predicate FilesOk(c: CopySender, others: seq<QueuedTask>, rounds: nat) {
    && c.InRange()
    && c.nextFile == Back(|c.manifest.plan.files| - 1, rounds)
    && (c.manifest.manifestEnded <==> rounds > 0)
    && (c.childrenQueued <==> c.manifest.manifestEnded && c.nextFile < 0)
    && c.queue == PlanFiles(c.manifest.plan.files[c.nextFile + 1..]) + others
  }

  /** A batch takes the last files not yet queued and puts them in front. */
  lemma BatchInOrder(queue: seq<QueuedTask>, files: seq<FileEntry>, next: int, size: nat,
                     others: seq<QueuedTask>)
    requires -1 <= next < |files| && queue == PlanFiles(files[next + 1..]) + others
    ensures var (q, n) := QueueBatch(queue, files, next, size);
            && n == (if next - size < -1 then -1 else next - size)
            && q == PlanFiles(files[n + 1..]) + others
  {
    QueueBatchOrder(queue, files, next, size);
    var (q, n) := QueueBatch(queue, files, next, size);
    PlanFilesSplit(files, n + 1, next + 1);
    InFrontOf(q, PlanFiles(files[n + 1..next + 1]), PlanFiles(files[next + 1..]), others, PlanFiles(files[n + 1..]));
  }

  lemma InFrontOf(q: seq<QueuedTask>, a: seq<QueuedTask>, b: seq<QueuedTask>, c: seq<QueuedTask>,
                  d: seq<QueuedTask>)
    requires q == a + (b + c) && d == a + b
    ensures q == d + c
  {
  }

  lemma QueueFilesOk(c: CopySender, others: seq<QueuedTask>, rounds: nat)
    requires c.InRange() && c.manifest.manifestEnded && !c.childrenQueued
    requires c.nextFile == Back(|c.manifest.plan.files| - 1, rounds)
    requires c.queue == PlanFiles(c.manifest.plan.files[c.nextFile + 1..]) + others
    ensures FilesOk(QueueFiles(c), others, rounds + 1)
  {
    var files := c.manifest.plan.files;
    BatchInOrder(c.queue, files, c.nextFile, BATCH, others);
    BackStep(|files| - 1, rounds);
    var (q, n) := QueueBatch(c.queue, files, c.nextFile, BATCH);
    assert QueueFiles(c) == c.(queue := q, nextFile := n, childrenQueued := n < 0);
  }

  lemma BackStep(next: int, rounds: nat)
    requires next >= -1
    ensures Back(next, rounds + 1)
         == (if Back(next, rounds) - BATCH < -1 then -1 else Back(next, rounds) - BATCH)
  {
  }

  function NextRounds(c: CopySender, step: PlanStep, rounds: nat): nat
    requires c.InRange()
  {
    if PlanNext(c, step).manifest.manifestEnded && !c.manifest.manifestEnded then 1
    else rounds + (if step.NextBatch? then 1 else 0)
  }

  function NextOthers(step: PlanStep, others: seq<QueuedTask>): seq<QueuedTask> {
    if step.OthersQueued? then others + step.tasks else others
  }

  lemma PumpStepOk(c: CopySender, step: PlanStep, others: seq<QueuedTask>, rounds: nat)
    requires FilesOk(c, others, rounds) && step.PumpStep?
    ensures var d := PlanNext(c, step);
            d.manifest.plan == c.manifest.plan && FilesOk(d, others, NextRounds(c, step, rounds))
  {
    PumpKeepsPlan(c.manifest, step.room, step.fails);
    PumpKeepsEnd(c.manifest, step.room, step.fails);
    var m := PumpManifest(c.manifest, step.room, step.fails);
    if m.manifestEnded && !c.manifest.manifestEnded {
      FirstBatchOk(c, m, others, rounds);
    } else {
      SameFiles(c, m, others, rounds);
    }
  }

  lemma PumpKeepsEnd(s: PlanSender, room: nat, fails: bool)
    ensures s.manifestEnded ==> PumpManifest(s, room, fails).manifestEnded
  {
  }

  lemma SameFiles(c: CopySender, m: PlanSender, others: seq<QueuedTask>, rounds: nat)
    requires FilesOk(c, others, rounds)
    requires m.plan == c.manifest.plan && m.manifestEnded == c.manifest.manifestEnded
    ensures FilesOk(c.(manifest := m), others, rounds)
  {
  }

  lemma FirstBatchOk(c: CopySender, m: PlanSender, others: seq<QueuedTask>, rounds: nat)
    requires FilesOk(c, others, rounds)
    requires m.plan == c.manifest.plan && m.manifestEnded && !c.manifest.manifestEnded
    ensures FilesOk(QueueFiles(c.(manifest := m)), others, 1)
    ensures QueueFiles(c.(manifest := m)).manifest == m
  {
    QueueFilesOk(c.(manifest := m), others, 0);
  }

  lemma BatchStepOk(c: CopySender, step: PlanStep, others: seq<QueuedTask>, rounds: nat)
    requires FilesOk(c, others, rounds) && step.NextBatch? && PlanEnabled(c, step)
    ensures PlanNext(c, step).manifest == c.manifest && FilesOk(PlanNext(c, step), others, rounds + 1)
  {
    QueueFilesOk(c, others, rounds);
  }

  lemma OthersStepOk(c: CopySender, step: PlanStep, others: seq<QueuedTask>, rounds: nat)
    requires FilesOk(c, others, rounds) && step.OthersQueued?
    ensures PlanNext(c, step).manifest == c.manifest && FilesOk(PlanNext(c, step), others + step.tasks, rounds)
  {
    Associate(PlanFiles(c.manifest.plan.files[c.nextFile + 1..]), others, step.tasks);
  }

  lemma PlanStepOk(c: CopySender, step: PlanStep, others: seq<QueuedTask>, rounds: nat)
    requires FilesOk(c, others, rounds) && PlanEnabled(c, step)
    ensures var d := PlanNext(c, step);
            d.manifest.plan == c.manifest.plan && FilesOk(d, NextOthers(step, others), NextRounds(c, step, rounds))
  {
    if step.PumpStep? {
      PumpStepOk(c, step, others, rounds);
    } else if step.NextBatch? {
      BatchStepOk(c, step, others, rounds);
    } else {
      OthersStepOk(c, step, others, rounds);
    }
  }

  function RoundsAfter(c: CopySender, steps: seq<PlanStep>, rounds: nat): nat
    requires c.InRange()
    decreases |steps|
  {
    if steps == [] then rounds
    else RoundsAfter(PlanNext(c, steps[0]), steps[1..], NextRounds(c, steps[0], rounds))
  }

  lemma {:induction false} PlanRunOk(c: CopySender, steps: seq<PlanStep>, others: seq<QueuedTask>, rounds: nat)
    requires FilesOk(c, others, rounds) && PlanRuns(c, steps)
    ensures PlanAfter(c, steps).manifest.plan == c.manifest.plan
    ensures FilesOk(PlanAfter(c, steps), others + OtherTasks(steps), RoundsAfter(c, steps, rounds))
    decreases |steps|
  {
    if steps == [] {
      assert others + [] == others;
    } else {
      PlanStepOk(c, steps[0], others, rounds);
      PlanRunOk(PlanNext(c, steps[0]), steps[1..], NextOthers(steps[0], others), NextRounds(c, steps[0], rounds));
      OthersGrow(steps, others);
    }
  }

  /** One batch comes with the end of the manifest, the others with the timer. */
  lemma {:induction false} RoundsAre(c: CopySender, steps: seq<PlanStep>, rounds: nat)
    requires c.InRange() && PlanRuns(c, steps)
    ensures var d := PlanAfter(c, steps);
            && (c.manifest.manifestEnded ==> d.manifest.manifestEnded)
            && (d.manifest.manifestEnded || Batches(steps) == 0)
            && RoundsAfter(c, steps, rounds)
            == (if d.manifest.manifestEnded && !c.manifest.manifestEnded then Batches(steps) + 1
                else rounds + Batches(steps))
    decreases |steps|
  {
    if steps != [] {
      var d := PlanNext(c, steps[0]);
      RoundsAre(d, steps[1..], NextRounds(c, steps[0], rounds));
      if c.manifest.manifestEnded {
        EndedStays(c, steps[0]);
      }
    }
  }

  lemma OthersGrow(steps: seq<PlanStep>, others: seq<QueuedTask>)
    requires steps != []
    ensures NextOthers(steps[0], others) + OtherTasks(steps[1..]) == others + OtherTasks(steps)
  {
    if steps[0].OthersQueued? {
      Associate(others, steps[0].tasks, OtherTasks(steps[1..]));
    } else {
      assert [] + OtherTasks(steps[1..]) == OtherTasks(steps[1..]);
    }
  }

  lemma EndedStays(c: CopySender, step: PlanStep)
    requires c.InRange() && c.manifest.manifestEnded
    ensures PlanNext(c, step).manifest == c.manifest
  {
  }

  lemma PlanStepSends(c: CopySender, step: PlanStep)
    requires c.InRange() && SenderOk(c.manifest)
    ensures var d := PlanNext(c, step);
            && SenderOk(d.manifest) && d.manifest.plan == c.manifest.plan
            && (!c.manifest.failed && !(step.PumpStep? && step.fails) ==>
                  && !d.manifest.failed
                  && |d.manifest.sent| == Least(|c.manifest.sent| + (if step.PumpStep? then step.room else 0),
                                                |Manifest(c.manifest.plan)|))
  {
    if step.PumpStep? {
      PumpOk(c.manifest, step.room, step.fails);
      assert PlanNext(c, step).manifest == PumpManifest(c.manifest, step.room, step.fails);
    }
  }

  lemma {:induction false} PlanRunSends(c: CopySender, steps: seq<PlanStep>)
    requires c.InRange() && SenderOk(c.manifest) && PlanRuns(c, steps)
    ensures var d := PlanAfter(c, steps);
            && SenderOk(d.manifest) && d.manifest.plan == c.manifest.plan
            && (!c.manifest.failed && FailsNever(steps) ==>
                  && !d.manifest.failed
                  && |d.manifest.sent| == Least(|c.manifest.sent| + Taken(steps), |Manifest(c.manifest.plan)|))
    decreases |steps|
  {
    if steps != [] {
      PlanStepSends(c, steps[0]);
      PlanRunSends(PlanNext(c, steps[0]), steps[1..]);
    }
  }

  /** The plan goes out, and then its files are queued. Under any backpressure, and with other tasks
      queued in between, what has been sent is a prefix of Begin, the directories in order, End; the
      plan's files stand in their original order in front of every other task, and none is queued
      before all of the manifest is out; then every batch adds up to 128 of them; and the manifest is
      out as soon as the control path has taken that many messages and refused none. */
  lemma PlanGoesOut(p: Plan, queue: seq<QueuedTask>, steps: seq<PlanStep>)
    requires PlanRuns(NewCopySender(p, queue), steps)
    ensures var c := PlanAfter(NewCopySender(p, queue), steps);
            && |c.manifest.sent| <= |Manifest(p)| && c.manifest.sent == Manifest(p)[..|c.manifest.sent|]
            && (c.manifest.manifestEnded <==> c.manifest.sent == Manifest(p))
            && c.InRange() && c.manifest.plan == p
            && c.queue == PlanFiles(p.files[c.nextFile + 1..]) + (queue + OtherTasks(steps))
            && c.nextFile == Back(|p.files| - 1, if c.manifest.manifestEnded then Batches(steps) + 1 else 0)
            && (c.childrenQueued <==> c.manifest.sent == Manifest(p) && c.nextFile < 0)
            && (FailsNever(steps) && Taken(steps) >= |p.directories| + 2 ==> c.manifest.manifestEnded)
  {
    FirstFiles(p, queue);
    FilesFollow(NewCopySender(p, queue), queue, steps);
    ManifestGoes(p, queue, steps);
  }

  lemma FilesFollow(c: CopySender, others: seq<QueuedTask>, steps: seq<PlanStep>)
    requires FilesOk(c, others, 0) && PlanRuns(c, steps)
    ensures var d := PlanAfter(c, steps);
            && d.manifest.plan == c.manifest.plan
            && FilesOk(d, others + OtherTasks(steps), if d.manifest.manifestEnded then Batches(steps) + 1 else 0)
  {
    PlanRunOk(c, steps, others, 0);
    RoundsAre(c, steps, 0);
  }

  lemma ManifestGoes(p: Plan, queue: seq<QueuedTask>, steps: seq<PlanStep>)
    requires PlanRuns(NewCopySender(p, queue), steps)
    ensures var s := PlanAfter(NewCopySender(p, queue), steps).manifest;
            && |s.sent| <= |Manifest(p)| && s.sent == Manifest(p)[..|s.sent|]
            && (s.manifestEnded <==> s.sent == Manifest(p))
            && (FailsNever(steps) && Taken(steps) >= |p.directories| + 2 ==> s.manifestEnded)
  {
    var first := NewCopySender(p, queue);
    PlanRunSends(first, steps);
    AllSent(PlanAfter(first, steps).manifest);
  }

  lemma FirstFiles(p: Plan, queue: seq<QueuedTask>)
    ensures FilesOk(NewCopySender(p, queue), queue, 0)
  {
    assert PlanFiles(p.files[|p.files|..]) + queue == queue;
  }

  lemma AllSent(s: PlanSender)
    requires SenderOk(s)
    ensures s.manifestEnded <==> s.sent == Manifest(s.plan)
    ensures |s.sent| == |Manifest(s.plan)| <==> s.sent == Manifest(s.plan)
    ensures |Manifest(s.plan)| == |s.plan.directories| + 2
  {
    assert Manifest(s.plan)[..|Manifest(s.plan)|] == Manifest(s.plan);
  }

  class CopyPlanSender {
    const plan: Plan
    var beginSent: bool
    var nextDirectory: nat
    var endSent: bool
    var manifestEnded: bool
    var failed: bool
    var sent: seq<ManifestMessage>
    var nextFile: int
    var childrenQueued: bool
    var taskQueue: seq<QueuedTask>

    function View(): PlanSender
      reads this
    {
      PlanSender(plan, beginSent, nextDirectory, endSent, manifestEnded, failed, sent)
    }

    function Whole(): CopySender
      reads this
    {
      CopySender(View(), taskQueue, nextFile, childrenQueued)
    }

    constructor (plan: Plan, queue: seq<QueuedTask>)
      ensures Whole() == NewCopySender(plan, queue)
    {
      this.plan := plan;
      beginSent, nextDirectory, endSent, manifestEnded, failed, sent := false, 0, false, false, false, [];
      nextFile, childrenQueued, taskQueue := |plan.files| - 1, false, queue;
    }

    /** The sending of `pumpPlanManifest`. */
    method SendManifest(room: nat, fails: bool)
      modifies this`beginSent, this`nextDirectory, this`endSent, this`manifestEnded, this`failed, this`sent
      ensures View() == PumpManifest(old(View()), room, fails)
    {
      if manifestEnded || failed {
        return;
      }
      var left := room;
      if !beginSent {
        if left == 0 {
          failed := fails;
          return;
        }
        sent := sent + [PlanBegin(plan.items, plan.total)];
        beginSent := true;
        left := left - 1;
      }
      while nextDirectory < |plan.directories|
        invariant !manifestEnded && !failed
        invariant PumpDirectories(View(), left, fails) == PumpManifest(old(View()), room, fails)
      {
        if left == 0 {
          failed := fails;
          return;
        }
        sent := sent + [PlanDirectory(plan.directories[nextDirectory])];
        nextDirectory := nextDirectory + 1;
        left := left - 1;
      }
      if !endSent {
        if left == 0 {
          failed := fails;
          return;
        }
        sent := sent + [PlanEnd];
        endSent := true;
      }
      manifestEnded := true;
    }

    /** Behind the end of the manifest the first batch of files is queued. */
    method PumpPlanManifest(room: nat, fails: bool)
      requires Whole().InRange()
      modifies this
      ensures Whole() == Pump(old(Whole()), room, fails) && Whole().InRange()
    {
      if manifestEnded || failed {
        return;
      }
      SendManifest(room, fails);
      if manifestEnded {
        QueuePlanFiles();
      }
    }

    /** The timer for another batch is armed while files are left. */
    method QueuePlanFiles()
      requires Whole().InRange()
      modifies this`taskQueue, this`nextFile, this`childrenQueued
      ensures Whole() == QueueFiles(old(Whole())) && Whole().InRange()
    {
      if childrenQueued {
        return;
      }
      taskQueue, nextFile := QueueOneBatch(taskQueue, plan.files, nextFile, BATCH);
      childrenQueued := nextFile < 0;
    }
  }

  /** The loop of `queuePlanFiles`. */
  method QueueOneBatch(queue: seq<QueuedTask>, files: seq<FileEntry>, next: int, size: nat)
    returns (q: seq<QueuedTask>, n: int)
    requires -1 <= next < |files|
    ensures (q, n) == QueueBatch(queue, files, next, size)
  {
    q, n := queue, next;
    var count := 0;
    while n >= 0 && count < size
      invariant -1 <= n < |files| && count <= size
      invariant QueueBatch(q, files, n, size - count) == QueueBatch(queue, files, next, size)
      decreases n + 1
    {
      q, n := [PlanFile(files[n])] + q, n - 1;
      count := count + 1;
    }
  }
}
