/** The purge as it runs: loops over files, directory entries and classes. */
module PurgeRun {

  import opened Purge
  import PurgeProofs
  import opened Wrappers

  // --------------------------------------------------------- tree shape

  lemma {:induction false} AncestorIn(nodes: Nodes, p: Path, k: nat)
    requires WellFormed(nodes) && p in nodes && k < |p|
    ensures p[..k] in nodes && nodes[p[..k]] == Dir
  {
    assert Parent(p) in nodes && nodes[Parent(p)] == Dir;
    if k < |p| - 1 {
      AncestorIn(nodes, Parent(p), k);
      assert Parent(p)[..k] == p[..k];
    }
  }

  /** The entries at or below any of these. */
  function Trees(nodes: Nodes, tops: set<Path>): set<Path> { set p | p in nodes && Reached(p, tops) }

  predicate Reached(p: Path, tops: set<Path>) { exists t | t in tops :: t <= p }

  lemma OnePrefix(a: Path, b: Path, p: Path)
    requires |a| == |b| && a <= p && b <= p
    ensures a == b
  {}

  lemma TreesAdd(nodes: Nodes, tops: set<Path>, top: Path, n: nat)
    requires top !in tops && |top| == n && forall t | t in tops :: |t| == n
    ensures Trees(nodes, tops + {top}) == Trees(nodes, tops) + SubTree(nodes, top)
    ensures Trees(nodes, tops) !! SubTree(nodes, top)
    ensures |Trees(nodes, tops + {top})| == |Trees(nodes, tops)| + |SubTree(nodes, top)|
  {
    forall p | p in SubTree(nodes, top) ensures p in Trees(nodes, tops + {top}) {
      assert top in tops + {top} && top <= p;
      assert Reached(p, tops + {top});
    }
    forall p | p in Trees(nodes, tops) ensures p in Trees(nodes, tops + {top}) && p !in SubTree(nodes, top) {
      var t :| t in tops && t <= p;
      assert t in tops + {top} && t == p[..n] && t != top;
      assert Reached(p, tops + {top});
      if top <= p { OnePrefix(t, top, p); }
    }
    forall p | p in Trees(nodes, tops + {top}) ensures p in Trees(nodes, tops) + SubTree(nodes, top) {
      var t :| t in tops + {top} && t <= p;
      if t == top {
        assert p in SubTree(nodes, top);
      } else {
        assert t in tops && Reached(p, tops);
        assert p in Trees(nodes, tops);
      }
    }
  }

  lemma TreeOfFile(nodes: Nodes, p: Path)
    requires WellFormed(nodes) && p in nodes && nodes[p] != Dir
    ensures SubTree(nodes, p) == {p}
  {
    forall q | q in SubTree(nodes, p) ensures q == p {
      assert q[..|p|] == p;
      if |q| > |p| { AncestorIn(nodes, q, |p|); }
    }
  }

  lemma TreeSplits(nodes: Nodes, dir: Path)
    requires WellFormed(nodes) && dir in nodes
    ensures SubTree(nodes, dir) == {dir} + Trees(nodes, Children(nodes, dir)) && dir !in Trees(nodes, Children(nodes, dir))
    ensures |SubTree(nodes, dir)| == 1 + |Trees(nodes, Children(nodes, dir))|
  {
    hide WellFormed;
    forall p | p in SubTree(nodes, dir) && p != dir ensures p in Trees(nodes, Children(nodes, dir)) {
      var top := p[..|dir| + 1];
      if |p| > |dir| + 1 { AncestorIn(nodes, p, |dir| + 1); } else { assert top == p; }
      assert top in Children(nodes, dir);
    }
    forall p | p in Trees(nodes, Children(nodes, dir)) ensures p in SubTree(nodes, dir) && p != dir {
      var t :| t in Children(nodes, dir) && t <= p;
      assert dir <= t <= p;
    }
  }

  lemma ChildTree(nodes: Nodes, dir: Path, child: Path)
    requires dir in nodes && child in Children(nodes, dir)
    ensures SubTree(nodes, child) <= SubTree(nodes, dir) && child in SubTree(nodes, dir) && child != dir && child in nodes
    ensures |SubTree(nodes, child)| < |SubTree(nodes, dir)|
  {
    forall p | p in SubTree(nodes, child) ensures p in SubTree(nodes, dir) && p != dir { assert dir <= child <= p; }
    Smaller(SubTree(nodes, child), SubTree(nodes, dir), dir);
  }

  lemma Smaller<T>(a: set<T>, b: set<T>, x: T)
    requires a <= b && x in b && x !in a
    ensures |a| < |b|
  {
    assert b == a + (b - a);
    assert x in b - a;
  }

  ghost predicate CleanEntry(nodes: Nodes, w: Weather, c: Class, p: Path)
    requires p in nodes
  {
    w.fails(Attempt(c, Look, p)).None? && nodes[p] != Symlink && (nodes[p] == Dir ==> w.fails(Attempt(c, List, p)).None?)
  }

  /** The trees of these entries are clean and counted, with one for their parent. */
  ghost predicate Counting(nodes: Nodes, w: Weather, c: Class, done: set<Path>, total: nat) {
    total == 1 + |Trees(nodes, done)| && forall p | p in Trees(nodes, done) :: CleanEntry(nodes, w, c, p)
  }

  lemma CountingStep(nodes: Nodes, w: Weather, c: Class, done: set<Path>, total: nat, entry: Path, n: nat)
    requires Counting(nodes, w, c, done, total)
    requires entry !in done && |entry| == n && forall t | t in done :: |t| == n
    requires forall p | p in SubTree(nodes, entry) :: CleanEntry(nodes, w, c, p)
    ensures Counting(nodes, w, c, done + {entry}, total + |SubTree(nodes, entry)|)
  {
    hide Trees, SubTree, CleanEntry;
    TreesAdd(nodes, done, entry, n);
  }

  lemma CountingStart(nodes: Nodes, w: Weather, c: Class)
    ensures Counting(nodes, w, c, {}, 1)
  {
    assert Trees(nodes, {}) == {};
  }

  lemma CountingEnd(nodes: Nodes, w: Weather, c: Class, dir: Path, total: nat)
    requires WellFormed(nodes) && dir in nodes && w.fails(Attempt(c, List, dir)).None?
    requires Counting(nodes, w, c, Children(nodes, dir), total)
    ensures TreeClean(nodes, w, c, dir) && total == |SubTree(nodes, dir)|
  {
    hide Trees, SubTree, Children;
    TreeSplits(nodes, dir);
  }

  lemma CleanTreeEntries(nodes: Nodes, w: Weather, c: Class, entry: Path)
    requires WellFormed(nodes) && entry in nodes && w.fails(Attempt(c, Look, entry)).None? && nodes[entry] != Symlink
    requires nodes[entry] == Dir ==> TreeClean(nodes, w, c, entry)
    ensures forall p | p in SubTree(nodes, entry) :: CleanEntry(nodes, w, c, p)
    ensures nodes[entry] != Dir ==> |SubTree(nodes, entry)| == 1
  {
    if nodes[entry] != Dir { TreeOfFile(nodes, entry); }
  }

  /** `count_tree_entries`: one for the directory and one for everything below
      it, or nothing when the tree holds a link or cannot be read throughout. */
  method CountTreeEntries(nodes: Nodes, w: Weather, c: Class, dir: Path) returns (count: Option<nat>)
    requires WellFormed(nodes) && dir in nodes && nodes[dir] == Dir
    ensures count.Some? <==> TreeClean(nodes, w, c, dir)
    ensures count.Some? ==> count.value == |SubTree(nodes, dir)|
    decreases |SubTree(nodes, dir)|, 0
  {
    hide WellFormed, SubTree, Counting, Children, TreeClean;
    UncleanAt(nodes, w, c, dir);
    if w.fails(Attempt(c, List, dir)).Some? { return None; }
    var total := 1;
    var todo := Children(nodes, dir);
    ghost var done: set<Path> := {};
    CountingStart(nodes, w, c);
    while todo != {}
      invariant done !! todo && done + todo == Children(nodes, dir)
      invariant Counting(nodes, w, c, done, total)
      decreases |todo|
    {
      var entry :| entry in todo;
      ChildTree(nodes, dir, entry);
      ChildLengths(nodes, dir, done + todo);
      var inner := CountEntry(nodes, w, c, dir, entry);
      if inner.None? { return None; }
      CountingStep(nodes, w, c, done, total, entry, |dir| + 1);
      total := total + inner.value;
      todo, done := todo - {entry}, done + {entry};
    }
    assert done == Children(nodes, dir);
    CountingEnd(nodes, w, c, dir, total);
    count := Some(total);
  }

  /** One entry of the listing. */
  method CountEntry(nodes: Nodes, w: Weather, c: Class, dir: Path, entry: Path) returns (inner: Option<nat>)
    requires WellFormed(nodes) && dir in nodes && nodes[dir] == Dir && entry in Children(nodes, dir)
    ensures inner.None? ==> !TreeClean(nodes, w, c, dir)
    ensures inner.Some? ==> inner.value == |SubTree(nodes, entry)|
    ensures inner.Some? ==> forall p | p in SubTree(nodes, entry) :: CleanEntry(nodes, w, c, p)
    decreases |SubTree(nodes, entry)|, 1
  {
    UncleanBelow(nodes, w, c, dir, entry);
    hide WellFormed, SubTree, Children, TreeClean;
    if w.fails(Attempt(c, Look, entry)).Some? || nodes[entry] == Symlink { return None; }
    inner := Some(1);
    if nodes[entry] == Dir {
      inner := CountTreeEntries(nodes, w, c, entry);
      if inner.None? { return; }
    }
    CleanTreeEntries(nodes, w, c, entry);
  }

  lemma ChildLengths(nodes: Nodes, dir: Path, children: set<Path>)
    requires children == Children(nodes, dir)
    ensures forall p | p in children :: |p| == |dir| + 1 && p in nodes && dir <= p
  {}

  lemma UncleanAt(nodes: Nodes, w: Weather, c: Class, dir: Path)
    requires dir in nodes
    ensures w.fails(Attempt(c, List, dir)).Some? ==> !TreeClean(nodes, w, c, dir)
  {}

  lemma UncleanBelow(nodes: Nodes, w: Weather, c: Class, dir: Path, child: Path)
    requires dir in nodes && child in Children(nodes, dir)
    ensures !CleanEntry(nodes, w, c, child) ==> !TreeClean(nodes, w, c, dir)
    ensures nodes[child] == Dir && !TreeClean(nodes, w, c, child) ==> !TreeClean(nodes, w, c, dir)
  {
    ChildTree(nodes, dir, child);
  }

  // --------------------------------------------------------------- loops

  lemma PurgePathsStep(nodes: Nodes, w: Weather, c: Class, paths: seq<Path>, k: nat)
    requires k < |paths|
    ensures PurgePaths(nodes, w, c, paths[..k + 1]) == PurgeOne(PurgePaths(nodes, w, c, paths[..k]), w, c, paths[k])
  {
    assert paths[..k + 1][..k] == paths[..k];
  }

  lemma CountPresentStep(nodes: Nodes, w: Weather, c: Class, paths: seq<Path>, k: nat)
    requires k <= |paths|
    ensures CountPresent(nodes, w, c, paths[..k]).error.Some? ==>
      CountPresent(nodes, w, c, paths) == CountPresent(nodes, w, c, paths[..k])
    decreases |paths| - k
  {
    if k == |paths| {
      assert paths[..k] == paths;
    } else {
      assert paths[..k + 1][..k] == paths[..k];
      CountPresentStep(nodes, w, c, paths, k + 1);
    }
  }

  lemma CountPresentNext(nodes: Nodes, w: Weather, c: Class, paths: seq<Path>, k: nat)
    requires k < |paths| && CountPresent(nodes, w, c, paths[..k]).error.None?
    ensures var t, next := CountPresent(nodes, w, c, paths[..k]), CountPresent(nodes, w, c, paths[..k + 1]);
      match LookAt(nodes, w, c, paths[k])
      case Absent => next == t
      case Broken(_) => next == t.(error := Some(Io))
      case Found(_) => next == t.(count := t.count + 1)
  {
    assert paths[..k + 1][..k] == paths[..k];
  }

  lemma StrangerStep(strange: set<Path>, done: set<Path>, entry: Path)
    requires entry !in done
    ensures |strange * (done + {entry})| == |strange * done| + if entry in strange then 1 else 0
  {
    if entry in strange {
      assert strange * (done + {entry}) == strange * done + {entry};
    } else {
      assert strange * (done + {entry}) == strange * done;
    }
  }

  lemma StrangerName(nodes: Nodes, dir: Path, known: seq<string>, entry: Path)
    requires entry in Children(nodes, dir)
    ensures |entry| == |dir| + 1 && (entry in Strangers(nodes, dir, known) <==> entry[|dir|] !in known)
    ensures Strangers(nodes, dir, known) <= Children(nodes, dir)
  {}

  /** The strange entries among the children no longer to do have been counted. */
  ghost predicate Tallied(count: nat, todo: set<Path>, nodes: Nodes, dir: Path, known: seq<string>) {
    todo <= Children(nodes, dir) && count == |Strangers(nodes, dir, known) * (Children(nodes, dir) - todo)|
  }

  lemma NoneTallied(nodes: Nodes, dir: Path, known: seq<string>)
    ensures Tallied(0, Children(nodes, dir), nodes, dir, known)
  {
    hide Children, Strangers;
    assert Strangers(nodes, dir, known) * (Children(nodes, dir) - Children(nodes, dir)) == {};
  }

  lemma OneTallied(count: nat, todo: set<Path>, nodes: Nodes, dir: Path, known: seq<string>, entry: Path)
    requires Tallied(count, todo, nodes, dir, known) && entry in todo
    ensures |entry| == |dir| + 1
    ensures Tallied(if entry[|dir|] !in known then count + 1 else count, todo - {entry}, nodes, dir, known)
  {
    hide Children, Strangers;
    var all := Children(nodes, dir);
    StrangerName(nodes, dir, known, entry);
    StrangerStep(Strangers(nodes, dir, known), all - todo, entry);
    assert all - (todo - {entry}) == (all - todo) + {entry};
  }

  lemma AllTallied(count: nat, nodes: Nodes, dir: Path, known: seq<string>)
    requires Tallied(count, {}, nodes, dir, known)
    ensures count == |Strangers(nodes, dir, known)|
  {
    var all := Children(nodes, dir);
    assert Strangers(nodes, dir, known) * (all - {}) == Strangers(nodes, dir, known);
  }

  /** The disk being purged; the weather is what its accesses meet. */
  class Disk {
    var nodes: Nodes
    const weather: Weather

    constructor (nodes: Nodes, weather: Weather)
      ensures this.nodes == nodes && this.weather == weather
    {
      this.nodes, this.weather := nodes, weather;
    }

    /** Remove a list of plain files; the loop of `purge_files` and of the
        configured database. */
    method RemoveFiles(c: Class, paths: seq<Path>) returns (receipt: ClassReceipt)
      modifies this
      ensures var t := PurgePaths(old(nodes), weather, c, paths);
        nodes == t.nodes && receipt == TallyReceipt(c, t)
    {
      var count := 0;
      var category: Option<Category> := None;
      for k := 0 to |paths|
        invariant Tally(nodes, count, category) == PurgePaths(old(nodes), weather, c, paths[..k])
      {
        PurgePathsStep(old(nodes), weather, c, paths, k);
        var path := paths[k];
        match LookAt(nodes, weather, c, path) {
          case Absent =>
          case Broken(error) => category := First(category, error);
          case Found(kind) =>
            count := count + 1;
            if kind != File {
              category := First(category, UnsafePath);
            } else {
              var fault := weather.fails(Attempt(c, Unlink, path));
              if fault.Some? { category := First(category, fault.value); } else { nodes := Without(nodes, {path}); }
            }
        }
      }
      assert paths[..|paths|] == paths;
      receipt := ClassReceipt(c, if category.None? then Removed else FailedAs(category.value), count, category);
    }

    method RemoveFileClass(c: Class, root: Path, names: seq<string>) returns (receipt: ClassReceipt)
      modifies this
      ensures Phase(nodes, receipt) == PurgeFiles(old(nodes), weather, c, root, names)
    {
      receipt := RemoveFiles(c, Under(root, names));
    }

    method DeferFilesOf(c: Class, root: Path, names: seq<string>) returns (receipt: ClassReceipt)
      ensures receipt == DeferFiles(nodes, weather, c, root, names).receipt
    {
      var count := 0;
      hide LookAt;
      ghost var paths := Under(root, names);
      for k := 0 to |names|
        invariant Tally(nodes, count, None) == CountPresent(nodes, weather, c, paths[..k])
      {
        CountPresentNext(nodes, weather, c, paths, k);
        match LookAt(nodes, weather, c, root + [names[k]]) {
          case Absent =>
          case Broken(_) =>
            CountPresentStep(nodes, weather, c, paths, k + 1);
            return ClassReceipt(c, NeedsRetry, count, Some(Io));
          case Found(_) => count := count + 1;
        }
      }
      assert paths[..|names|] == paths;
      receipt := ClassReceipt(c, Deferred, count, Some(ClassIncomplete));
    }

    method RemoveConfiguredDatabase(root: Path, config: ConfigRead) returns (receipt: ClassReceipt)
      modifies this
      ensures Phase(nodes, receipt) == PurgeConfiguredDatabase(old(nodes), weather, root, config)
    {
      match config {
        case Missing => receipt := ClassReceipt(ConfiguredDatabase, Removed, 0, None);
        case Unreadable => receipt := ClassReceipt(ConfiguredDatabase, Deferred, 0, Some(UnresolvedConfig));
        case Malformed => receipt := ClassReceipt(ConfiguredDatabase, Deferred, 0, Some(UnresolvedConfig));
        case RelativePath => receipt := ClassReceipt(ConfiguredDatabase, Deferred, 0, Some(UnresolvedExternalPath));
        case AbsolutePath(path) =>
          if path == root + ["gilbreth.db"] {
            receipt := ClassReceipt(ConfiguredDatabase, Removed, 0, None);
          } else {
            receipt := RemoveFiles(ConfiguredDatabase, Family(path));
          }
      }
    }

    method RemoveDirectoryClass(c: Class, dir: Path) returns (receipt: ClassReceipt)
      requires WellFormed(nodes)
      modifies this
      ensures Phase(nodes, receipt) == PurgeDirectory(old(nodes), weather, c, dir)
    {
      var looked := LookAt(nodes, weather, c, dir);
      if looked.Absent? { return ClassReceipt(c, Removed, 0, None); }
      if looked.Broken? { return ClassReceipt(c, NeedsRetry, 0, Some(looked.error)); }
      if looked.kind != Dir { return ClassReceipt(c, NeedsRetry, 1, Some(UnsafePath)); }
      var count := CountTreeEntries(nodes, weather, c, dir);
      if count.None? { return ClassReceipt(c, NeedsRetry, 1, Some(UnreadableTree)); }
      var fault := weather.fails(Attempt(c, RemoveTree, dir));
      if fault.None? {
        nodes := Without(nodes, SubTree(nodes, dir));
        receipt := ClassReceipt(c, Removed, count.value, None);
      } else {
        nodes := Without(nodes, Torn(nodes, dir, weather.kept(c)));
        receipt := ClassReceipt(c, FailedAs(fault.value), count.value, Some(fault.value));
      }
    }

    method CountUnknownEntries(c: Class, dir: Path, known: seq<string>) returns (counted: Counted)
      ensures counted == CountUnknown(nodes, weather, c, dir, known)
    {
      var fault := weather.fails(Attempt(c, List, dir));
      if fault.Some? { return Uncounted(fault.value); }
      if dir !in nodes { return Counted(0); }
      if nodes[dir] != Dir { return Uncounted(Io); }
      assert CountUnknown(nodes, weather, c, dir, known) == Counted(|Strangers(nodes, dir, known)|);
      hide *;
      var count := 0;
      var todo := Children(nodes, dir);
      NoneTallied(nodes, dir, known);
      while todo != {}
        invariant Tallied(count, todo, nodes, dir, known)
        decreases |todo|
      {
        var entry :| entry in todo;
        OneTallied(count, todo, nodes, dir, known, entry);
        if entry[|dir|] !in known { count := count + 1; }
        todo := todo - {entry};
      }
      AllTallied(count, nodes, dir, known);
      counted := Counted(count);
    }

    method RemoveEmptyDir(c: Class, dir: Path) returns (count: nat, error: Option<Category>)
      modifies this
      ensures Tally(nodes, count, error) == RemoveDir(old(nodes), weather, c, dir)
    {
      var t := RemoveDir(nodes, weather, c, dir);
      nodes, count, error := t.nodes, t.count, t.error;
    }

    method RemoveLegacyProgramFiles(root: Path) returns (receipt: ClassReceipt, unknown: Counted)
      modifies this
      ensures Legacy(Phase(nodes, receipt), unknown) == PurgeLegacyProgramFiles(old(nodes), weather, root)
    {
      var bin := root + ["bin"];
      var looked := LookAt(nodes, weather, LegacyPrograms, bin);
      if looked.Absent? { return ClassReceipt(LegacyPrograms, Removed, 0, None), Counted(0); }
      if looked.Broken? { return ClassReceipt(LegacyPrograms, NeedsRetry, 0, Some(looked.error)), Uncounted(looked.error); }
      if looked.kind != Dir { return ClassReceipt(LegacyPrograms, NeedsRetry, 1, Some(UnsafePath)), Uncounted(UnsafePath); }
      unknown := CountUnknownEntries(LegacyPrograms, bin, PROGRAMS);
      receipt := RemoveFiles(LegacyPrograms, Under(bin, PROGRAMS));
      if unknown == Counted(0) && receipt.outcome == Removed {
        var count, error := RemoveEmptyDir(LegacyPrograms, bin);
        if error.Some? { receipt := receipt.(outcome := NeedsRetry, error := error); }
      }
    }

    /** One class of the purge, on the disk as the earlier classes left it. */
    method RunOne(c: Class, env: Env, unresolved: bool, ghost before: Progress) returns (receipt: ClassReceipt, unknown: Counted)
      requires c in ORDER && env.weather == weather && WellFormed(nodes)
      requires before.nodes == nodes && before.unresolved == unresolved
      modifies this
      ensures Phase(nodes, receipt) == RunClass(before, env, c) && WellFormed(nodes)
      ensures c == LegacyPrograms ==> unknown == PurgeLegacyProgramFiles(old(nodes), weather, env.root).unknown
    {
      hide PurgeFiles, PurgePaths, PurgeDirectory, PurgeLegacyProgramFiles, PurgeConfiguredDatabase, WellFormed, DirectoryOf,
           DeferFiles;
      unknown := Counted(0);
      PurgeProofs.ClassIsHonest(before, env, c);
      if c == Database {
        receipt := RemoveFileClass(c, env.root, DATABASE);
      } else if c == ConfiguredDatabase {
        receipt := RemoveConfiguredDatabase(env.root, env.config);
      } else if c == Configuration {
        if unresolved {
          DeferringLeaves(nodes, weather, c, env.root, ConfigNames(env.marker));
          receipt := DeferFilesOf(c, env.root, ConfigNames(env.marker));
        } else {
          receipt := RemoveFileClass(c, env.root, ConfigNames(env.marker));
        }
      } else if c == Sidecars {
        receipt := RemoveFileClass(c, env.root, SIDECARS);
      } else if c == UiState {
        receipt := RemoveFileClass(c, env.root, UI_STATE);
      } else if c == LegacyPrograms {
        receipt, unknown := RemoveLegacyProgramFiles(env.root);
      } else {
        receipt := RemoveDirectoryClass(c, env.root + [DirectoryOf(c)]);
      }
    }

    /** The disk classes, one after another. */
    method RunClasses(env: Env) returns (classes: seq<ClassReceipt>, binUnknown: Counted)
      requires env.weather == weather && WellFormed(nodes)
      modifies this
      ensures var p := Upto(old(nodes), env, |ORDER|);
        nodes == p.nodes && classes == p.classes && binUnknown == p.binUnknown && WellFormed(nodes)
    {
      hide RunClass, Upto, ORDER, WellFormed, Unfinished;
      classes, binUnknown := [], Counted(0);
      var unresolved := false;
      ghost var start := nodes;
      PurgeProofs.StartsEmpty(start, env);
      for k := 0 to |ORDER|
        invariant WellFormed(nodes)
        invariant Progress(nodes, classes, unresolved, binUnknown) == Upto(start, env, k)
      {
        PurgeProofs.OrderIs(k);
        PurgeProofs.AdvanceFacts(start, env, k);
        PurgeProofs.AdvanceBin(start, env, k);
        var receipt, unknown := RunOne(ORDER[k], env, unresolved, Upto(start, env, k));
        if ORDER[k] == ConfiguredDatabase { unresolved := Unfinished(receipt); }
        if ORDER[k] == LegacyPrograms { binUnknown := unknown; }
        classes := classes + [receipt];
      }
    }

    /** The whole purge and its receipt. */
    method PurgeRoot(env: Env) returns (receipt: Receipt)
      requires env.weather == weather && WellFormed(nodes)
      modifies this
      ensures Purged(nodes, receipt) == PurgeDataRoot(old(nodes), env)
    {
      hide Upto, CountUnknown, RemoveDir, AnyUnfinished, KNOWN;
      var looked := LookAt(nodes, weather, DataRoot, env.root);
      if looked.Broken? { return Receipt(false, [ClassReceipt(DataRoot, NeedsRetry, 1, Some(looked.error))]); }
      if looked.Found? && looked.kind != Dir {
        return Receipt(false, [ClassReceipt(DataRoot, NeedsRetry, 1, Some(UnsafePath))]);
      }
      var classes, binUnknown := RunClasses(env);
      var rootUnknown := CountUnknownEntries(UnknownEntries, env.root, KNOWN);
      classes := classes + [ClassReceipt(ExternalExports, Retained, 0, None), UnknownReceipt(rootUnknown, binUnknown)];
      var incomplete := AnyUnfinished(classes);
      if incomplete {
        var there := env.root in nodes && weather.fails(Attempt(DataRoot, Exists, env.root)).None?;
        classes := classes + [ClassReceipt(DataRoot, Deferred, if there then 1 else 0, Some(ClassIncomplete))];
      } else {
        var count, error := RemoveEmptyDir(DataRoot, env.root);
        incomplete := error.Some?;
        classes := classes + [ClassReceipt(DataRoot, if error.None? then Removed else NeedsRetry, count, error)];
      }
      receipt := Receipt(!incomplete, classes);
    }
  }

  lemma DeferringLeaves(nodes: Nodes, w: Weather, c: Class, root: Path, names: seq<string>)
    ensures DeferFiles(nodes, w, c, root, names).nodes == nodes
  {}
}
