/** What a receipt that says "removed" means for the disk, name by name, and what a
    completed purge leaves of the configured database wherever that lies. */
module PurgeGone {

  import opened Purge
  import opened PurgeProofs
  import opened PurgeResults
  import PurgeCompletes
  import PurgeRun
  import opened Wrappers

  /** The entry of `dir` with one of these names. */
  predicate Named(dir: Path, names: seq<string>, p: Path) { dir <= p && |p| == |dir| + 1 && p[|dir|] in names }

  /** The entry is the database or one of its two companions. */
  predicate OfDatabase(database: Path, p: Path) {
    if database == [] then p in [[], ["-wal"], ["-shm"]] else
      var name := database[|database| - 1];
      Named(database[..|database| - 1], [name, name + "-wal", name + "-shm"], p)
  }

  /** Another place than the default is configured. */
  predicate Elsewhere(env: Env) { env.config.AbsolutePath? && env.config.path != env.root + ["gilbreth.db"] }

  /** The entries a class has to get rid of. */
  predicate Owns(env: Env, c: Class, p: Path) {
    var root := env.root;
    match c
    case Database => Named(root, ["gilbreth.db", "gilbreth.db-wal", "gilbreth.db-shm"], p)
    case ConfiguredDatabase => Elsewhere(env) && OfDatabase(env.config.path, p)
    case Configuration =>
      || Named(root, ["config.toml", "config.toml.tmp", "config.toml.upgrade.tmp", "config.toml.tray.tmp",
                      "config.toml.dashboard.tmp", "config.toml.lock"], p)
      || (env.marker && Named(root, [".gilbreth-purge-test-root"], p))
    case Sidecars =>
      Named(root, ["spheres.json", "spheres.json.tmp", "notices.json", "notices.json.tmp", "hotkey-status.json",
                   "notification-access.json"], p)
    case UiState => Named(root, ["dashboard-ui.ron", "dashboard-ui.lock"], p)
    case Logs => root + ["logs"] <= p
    case Archives => root + ["archives"] <= p
    case OperationReceipts => root + ["operation-receipts"] <= p
    case Rollback => root + ["rollback"] <= p
    case LegacyPrograms => Named(root + ["bin"], ["gilbreth-app.exe", "gilbreth-elevated-record-helper.exe"], p)
    case DataRoot => root <= p
    case ExternalExports => false
    case UnknownEntries => false
  }

  ghost predicate Gone(nodes: Nodes, env: Env, c: Class) { forall p | Owns(env, c, p) :: p !in nodes }

  // ------------------------------------------------------------ single classes

  lemma NamedIsUnder(dir: Path, names: seq<string>, p: Path)
    ensures Named(dir, names, p) <==> p in Under(dir, names)
  {
    if Named(dir, names, p) {
      NameUnder(dir, names, p[|dir|]);
      assert p == dir + [p[|dir|]];
    }
    UnderName(dir, names, p);
  }

  lemma OfDatabaseIs(database: Path, p: Path)
    ensures OfDatabase(database, p) <==> p in Family(database)
  {
    if database != [] && OfDatabase(database, p) {
      assert p == database[..|database| - 1] + [p[|database| - 1]];
      assert database == database[..|database| - 1] + [database[|database| - 1]];
    }
  }

  lemma FilesGone(nodes: Nodes, w: Weather, c: Class, dir: Path, names: seq<string>)
    requires WellFormed(nodes)
    ensures var phase := PurgeFiles(nodes, w, c, dir, names);
      phase.receipt.outcome == Removed ==> forall p | Named(dir, names, p) :: p !in phase.nodes
  {
    hide WellFormed, PurgePaths, Under, Named;
    PathsPurged(nodes, w, c, Under(dir, names));
    forall p ensures Named(dir, names, p) <==> p in Under(dir, names) { NamedIsUnder(dir, names, p); }
  }

  lemma ConfiguredGone(nodes: Nodes, env: Env)
    requires WellFormed(nodes)
    ensures var phase := PurgeConfiguredDatabase(nodes, env.weather, env.root, env.config);
      phase.receipt.outcome == Removed ==> Gone(phase.nodes, env, ConfiguredDatabase)
  {
    hide WellFormed, PurgePaths, Family, OfDatabase;
    if Elsewhere(env) {
      PathsPurged(nodes, env.weather, ConfiguredDatabase, Family(env.config.path));
      forall p ensures OfDatabase(env.config.path, p) <==> p in Family(env.config.path) { OfDatabaseIs(env.config.path, p); }
    }
  }

  lemma TreeGoes(nodes: Nodes, w: Weather, c: Class, dir: Path)
    requires WellFormed(nodes)
    ensures var phase := PurgeDirectory(nodes, w, c, dir);
      phase.receipt.outcome == Removed ==> forall p | dir <= p :: p !in phase.nodes
  {
    hide WellFormed, PurgeDirectory;
    DirectoryPurged(nodes, w, c, dir);
    var left := PurgeDirectory(nodes, w, c, dir).nodes;
    if dir !in left { NoneBelow(left, dir); }
  }

  lemma NoneBelow(nodes: Nodes, dir: Path)
    requires WellFormed(nodes) && dir !in nodes
    ensures forall p | dir <= p :: p !in nodes
  {
    hide WellFormed;
    forall p | dir <= p && p in nodes ensures false {
      assert p[..|dir|] == dir;
      if p != dir { PurgeRun.AncestorIn(nodes, p, |dir|); }
    }
  }

  lemma ProgramsGone(nodes: Nodes, w: Weather, root: Path)
    requires WellFormed(nodes)
    ensures var phase := PurgeLegacyProgramFiles(nodes, w, root).phase;
      phase.receipt.outcome == Removed ==> forall p | Named(root + ["bin"], PROGRAMS, p) :: p !in phase.nodes
  {
    hide WellFormed, PurgePaths, Under, RemoveDir, CountUnknown, PROGRAMS;
    var bin := root + ["bin"];
    FilesGone(nodes, w, LegacyPrograms, bin, PROGRAMS);
    var files := PurgeFiles(nodes, w, LegacyPrograms, bin, PROGRAMS);
    PathsPurged(nodes, w, LegacyPrograms, Under(bin, PROGRAMS));
    DirRemoved(files.nodes, w, LegacyPrograms, bin);
    if bin !in nodes { NoneBelow(nodes, bin); }
  }

  /** The names each class goes through. */
  lemma OwnsIs(env: Env, c: Class, p: Path)
    ensures Owns(env, c, p) <==>
      match c
      case Database => Named(env.root, DATABASE, p)
      case ConfiguredDatabase => Elsewhere(env) && OfDatabase(env.config.path, p)
      case Configuration => Named(env.root, ConfigNames(env.marker), p)
      case Sidecars => Named(env.root, SIDECARS, p)
      case UiState => Named(env.root, UI_STATE, p)
      case LegacyPrograms => Named(env.root + ["bin"], PROGRAMS, p)
      case DataRoot => env.root <= p
      case ExternalExports => false
      case UnknownEntries => false
      case _ => env.root + [DirectoryOf(c)] <= p
  {}

  /** A class that reports success has left none of its entries. */
  lemma RemovedMeansGone(p: Progress, env: Env, c: Class)
    requires c in ORDER && WellFormed(p.nodes)
    ensures RunClass(p, env, c).receipt.outcome == Removed ==> Gone(RunClass(p, env, c).nodes, env, c)
  {
    hide WellFormed, PurgeFiles, PurgeDirectory, PurgeLegacyProgramFiles, PurgeConfiguredDatabase, CountPresent, Under, ConfigNames,
         DirectoryOf, Owns, Named, OfDatabase;
    var nodes, w, root := p.nodes, env.weather, env.root;
    match c {
      case Database => FilesGone(nodes, w, c, root, DATABASE);
      case ConfiguredDatabase => ConfiguredGone(nodes, env);
      case Configuration => FilesGone(nodes, w, c, root, ConfigNames(env.marker));
      case Sidecars => FilesGone(nodes, w, c, root, SIDECARS);
      case UiState => FilesGone(nodes, w, c, root, UI_STATE);
      case LegacyPrograms => ProgramsGone(nodes, w, root);
      case _ => TreeGoes(nodes, w, c, root + [DirectoryOf(c)]);
    }
    if RunClass(p, env, c).receipt.outcome == Removed {
      forall q | Owns(env, c, q) ensures q !in RunClass(p, env, c).nodes { OwnsIs(env, c, q); }
    }
  }

  // ------------------------------------------------------------ the whole run

  ghost predicate ReceiptsTrue(nodes: Nodes, env: Env, classes: seq<ClassReceipt>) {
    forall k :: 0 <= k < |classes| && classes[k].outcome == Removed ==> Gone(nodes, env, classes[k].class_)
  }

  lemma ReceiptsTrueStep(before: Nodes, after: Nodes, env: Env, classes: seq<ClassReceipt>, last: ClassReceipt)
    requires ReceiptsTrue(before, env, classes) && Within(after, before)
    requires last.outcome == Removed ==> Gone(after, env, last.class_)
    ensures ReceiptsTrue(after, env, classes + [last])
  {
    hide Owns;
  }

  lemma {:induction false} ReceiptsStayTrue(nodes: Nodes, env: Env, k: nat)
    requires k <= |ORDER| && WellFormed(nodes)
    ensures ReceiptsTrue(Upto(nodes, env, k).nodes, env, Upto(nodes, env, k).classes)
  {
    hide *;
    StartsEmpty(nodes, env);
    if k == 0 {
      NoReceipts(nodes, env);
    } else {
      ReceiptsStayTrue(nodes, env, k - 1);
      var p, c := Upto(nodes, env, k - 1), ORDER[k - 1];
      RunTakesClaimed(nodes, env, k - 1);
      TookWellFormed(nodes, env, k - 1, p.nodes);
      AdvanceFacts(nodes, env, k - 1);
      OrderIs(k - 1);
      RemovedMeansGone(p, env, c);
      NextWithin(nodes, env, k - 1);
      ClassOf(p, env, c);
      ReceiptsTrueStep(p.nodes, Upto(nodes, env, k).nodes, env, p.classes, RunClass(p, env, c).receipt);
    }
  }

  lemma NoReceipts(nodes: Nodes, env: Env)
    ensures ReceiptsTrue(nodes, env, [])
  {}

  lemma ClassOf(p: Progress, env: Env, c: Class)
    requires c in ORDER && WellFormed(p.nodes)
    ensures RunClass(p, env, c).receipt.class_ == c && RunClass(p, env, c).receipt.outcome != Retained
  {
    hide WellFormed, RunClass, ORDER, Claims;
    ClassIsHonest(p, env, c);
  }

  /** Whatever fails, what a receipt calls removed is not on the disk when the purge is
      over: each class's own names, the root with all it held, and the configured
      database with its companions, wherever it lies. */
  lemma RemovedIsGone(nodes: Nodes, env: Env)
    requires WellFormed(nodes)
    ensures ReceiptsTrue(PurgeDataRoot(nodes, env).nodes, env, PurgeDataRoot(nodes, env).receipt.classes)
  {
    hide WellFormed, Upto, CountUnknown, UnknownReceipt, RemoveDir, LookAt, AnyUnfinished, Owns, ReceiptsTrue, Gone, ORDER, KNOWN;
    ReceiptsStayTrue(nodes, env, |ORDER|);
    RunTakesClaimed(nodes, env, |ORDER|);
    var p := Upto(nodes, env, |ORDER|);
    TookWellFormed(nodes, env, |ORDER|, p.nodes);
    var unknown := UnknownReceipt(CountUnknown(p.nodes, env.weather, UnknownEntries, env.root, KNOWN), p.binUnknown);
    UnknownIs(CountUnknown(p.nodes, env.weather, UnknownEntries, env.root, KNOWN), p.binUnknown);
    FinishTrue(p.nodes, env, p.classes, unknown);
    NoReceipts(nodes, env);
    OneFailure(nodes, env);
  }

  lemma OneFailure(nodes: Nodes, env: Env)
    ensures forall error :: ReceiptsTrue(nodes, env, RootFailure(nodes, error).receipt.classes)
  {
    hide Owns;
  }

  lemma UnknownIs(root: Counted, bin: Counted)
    ensures UnknownReceipt(root, bin).class_ == UnknownEntries
  {}

  lemma FinishTrue(nodes: Nodes, env: Env, classes: seq<ClassReceipt>, unknown: ClassReceipt)
    requires WellFormed(nodes) && ReceiptsTrue(nodes, env, classes) && unknown.class_ == UnknownEntries
    ensures var all := classes + [ClassReceipt(ExternalExports, Retained, 0, None), unknown];
      var o := FinishRoot(nodes, env, all); ReceiptsTrue(o.nodes, env, o.receipt.classes)
  {
    var external := ClassReceipt(ExternalExports, Retained, 0, None);
    var all := classes + [external, unknown];
    hide ReceiptsTrue, Gone, WellFormed, AnyUnfinished, RemoveDir;
    NoneOwned(nodes, env);
    WithinItself(nodes);
    ReceiptsTrueStep(nodes, nodes, env, classes, external);
    ReceiptsTrueStep(nodes, nodes, env, classes + [external], unknown);
    assert classes + [external] + [unknown] == all;
    var o := FinishRoot(nodes, env, all);
    DirRemoved(nodes, env.weather, DataRoot, env.root);
    RootGone(o.nodes, env);
    ReceiptsTrueStep(nodes, o.nodes, env, all, o.receipt.classes[|all|]);
  }

  lemma RootGone(nodes: Nodes, env: Env)
    ensures WellFormed(nodes) && env.root !in nodes ==> Gone(nodes, env, DataRoot)
  {
    hide WellFormed;
    if WellFormed(nodes) && env.root !in nodes { NoneBelow(nodes, env.root); }
  }

  lemma NoneOwned(nodes: Nodes, env: Env)
    ensures Gone(nodes, env, UnknownEntries) && Gone(nodes, env, ExternalExports)
  {}

  /** A completed purge leaves neither the configured database nor a companion of it on
      the disk, wherever they lie. */
  lemma CompletedLeavesNoDatabase(nodes: Nodes, env: Env, p: Path)
    requires WellFormed(nodes) && PurgeDataRoot(nodes, env).receipt.completed
    requires env.config.AbsolutePath? && OfDatabase(env.config.path, p)
    ensures p !in PurgeDataRoot(nodes, env).nodes
  {
    hide *;
    if Elsewhere(env) {
      RemovedIsGone(nodes, env);
      ConfiguredSlot(nodes, env);
      OwnedIsGone(PurgeDataRoot(nodes, env).nodes, env, PurgeDataRoot(nodes, env).receipt.classes, 1, p);
    } else {
      DefaultInRoot(env, p);
      CompletedMeansGone(nodes, env);
    }
  }

  lemma DefaultInRoot(env: Env, p: Path)
    requires env.config.AbsolutePath? && OfDatabase(env.config.path, p) && !Elsewhere(env)
    ensures env.root <= p
  {
    assert env.config.path[..|env.config.path| - 1] == env.root;
  }

  lemma OwnedIsGone(nodes: Nodes, env: Env, classes: seq<ClassReceipt>, k: nat, p: Path)
    requires ReceiptsTrue(nodes, env, classes) && k < |classes| && classes[k].outcome == Removed
    requires classes[k].class_ == ConfiguredDatabase && Elsewhere(env) && OfDatabase(env.config.path, p)
    ensures p !in nodes
  {
    hide OfDatabase;
    assert Gone(nodes, env, classes[k].class_);
    assert Owns(env, ConfiguredDatabase, p);
  }

  lemma ConfiguredSlot(nodes: Nodes, env: Env)
    requires WellFormed(nodes) && PurgeDataRoot(nodes, env).receipt.completed
    ensures var classes := PurgeDataRoot(nodes, env).receipt.classes;
      |classes| > 1 && classes[1].class_ == ConfiguredDatabase && classes[1].outcome == Removed
  {
    hide WellFormed, Upto, RemoveDir, PurgeDataRoot, ORDER, PurgeConfiguredDatabase;
    PurgeCompletes.CompletedShape(nodes, env);
    PurgeCompletes.OrderTen();
    UnresolvedStays(nodes, env, |ORDER|);
    ConfiguredClass(nodes, env);
  }

  lemma ConfiguredClass(nodes: Nodes, env: Env)
    ensures ConfiguredPhase(nodes, env).receipt.class_ == ConfiguredDatabase
  {
    hide Upto, PurgePaths;
  }

  // ------------------------------------------------- what a file class does

  predicate Distinct(paths: seq<Path>) { forall j, k :: 0 <= j < k < |paths| ==> paths[j] != paths[k] }

  /** What keeps a file from being removed. */
  function Trouble(nodes: Nodes, w: Weather, c: Class, p: Path): Option<Category> {
    var look, unlink := w.fails(Attempt(c, Look, p)), w.fails(Attempt(c, Unlink, p));
    if look.Some? then Some(look.value)
    else if p !in nodes then None
    else if nodes[p] != File then Some(UnsafePath)
    else if unlink.Some? then Some(unlink.value)
    else None
  }

  predicate Visible(w: Weather, c: Class, p: Path) { w.fails(Attempt(c, Look, p)).None? }

  function Found(nodes: Nodes, w: Weather, c: Class, paths: seq<Path>): set<Path> {
    set p | p in paths && p in nodes && Visible(w, c, p)
  }

  /** The first trouble met along the list. */
  function FirstTrouble(nodes: Nodes, w: Weather, c: Class, paths: seq<Path>): Option<Category> {
    if paths == [] then None else
      var earlier := FirstTrouble(nodes, w, c, paths[..|paths| - 1]);
      if earlier.Some? then earlier else Trouble(nodes, w, c, paths[|paths| - 1])
  }

  /** A file loop counts every listed entry it can see, removes exactly those with no
      trouble, and reports the first trouble. */
  ghost predicate Exact(nodes: Nodes, w: Weather, c: Class, paths: seq<Path>, t: Tally) {
    && t.count == |Found(nodes, w, c, paths)| && t.error == FirstTrouble(nodes, w, c, paths)
    && Leaves(nodes, w, c, paths, t.nodes)
  }

  ghost predicate Leaves(nodes: Nodes, w: Weather, c: Class, paths: seq<Path>, after: Nodes) {
    Within(after, nodes) && forall p | p in nodes :: p in after <==> !(p in paths && Trouble(nodes, w, c, p).None?)
  }

  lemma {:induction false} PathsExactly(nodes: Nodes, w: Weather, c: Class, paths: seq<Path>)
    requires Distinct(paths)
    ensures Exact(nodes, w, c, paths, PurgePaths(nodes, w, c, paths))
  {
    hide Exact, PurgeOne, Distinct;
    if paths == [] {
      NothingExactly(nodes, w, c);
    } else {
      var n := |paths| - 1;
      assert paths == paths[..n] + [paths[n]];
      LastDistinct(paths);
      PathsExactly(nodes, w, c, paths[..n]);
      OneExactly(nodes, w, c, paths[..n], paths[n], PurgePaths(nodes, w, c, paths[..n]));
    }
  }

  lemma NothingExactly(nodes: Nodes, w: Weather, c: Class)
    ensures Exact(nodes, w, c, [], Tally(nodes, 0, None))
  {}

  lemma LastDistinct(paths: seq<Path>)
    requires Distinct(paths) && paths != []
    ensures Distinct(paths[..|paths| - 1]) && paths[|paths| - 1] !in paths[..|paths| - 1]
  {}

  lemma FoundStep(nodes: Nodes, w: Weather, c: Class, paths: seq<Path>, p: Path)
    requires p !in paths
    ensures |Found(nodes, w, c, paths + [p])| == |Found(nodes, w, c, paths)| + if p in nodes && Visible(w, c, p) then 1 else 0
  {
    hide Visible;
    var was, now := Found(nodes, w, c, paths), Found(nodes, w, c, paths + [p]);
    forall q ensures q in now <==> q in was || (q == p && p in nodes && Visible(w, c, p)) {
      assert q in paths + [p] <==> q in paths || q == p;
    }
    hide Found;
    if p in nodes && Visible(w, c, p) { assert now == was + {p}; } else { assert now == was; }
  }

  lemma TroubleStep(nodes: Nodes, w: Weather, c: Class, paths: seq<Path>, p: Path)
    ensures FirstTrouble(nodes, w, c, paths + [p])
      == if FirstTrouble(nodes, w, c, paths).Some? then FirstTrouble(nodes, w, c, paths) else Trouble(nodes, w, c, p)
  {
    hide Trouble;
    assert (paths + [p])[..|paths|] == paths;
  }

  lemma OneIs(nodes: Nodes, w: Weather, c: Class, p: Path, t: Tally)
    requires Within(t.nodes, nodes) && (p in nodes <==> p in t.nodes)
    ensures var r := PurgeOne(t, w, c, p); var trouble := Trouble(nodes, w, c, p);
      && r.count == t.count + (if p in nodes && Visible(w, c, p) then 1 else 0)
      && r.error == (if t.error.Some? then t.error else trouble)
      && r.nodes == if p in nodes && trouble.None? then Without(t.nodes, {p}) else t.nodes
  {
    hide Without;
  }

  lemma LeavesStep(nodes: Nodes, w: Weather, c: Class, paths: seq<Path>, p: Path, after: Nodes, next: Nodes)
    requires Leaves(nodes, w, c, paths, after) && p !in paths
    requires next == if p in nodes && Trouble(nodes, w, c, p).None? then Without(after, {p}) else after
    ensures Leaves(nodes, w, c, paths + [p], next)
  {
    hide Trouble, Without;
    if p in nodes {
      RemoveOne(after, p);
      WithinTrans(Without(after, {p}), after, nodes);
    }
    forall q | q in nodes ensures q in next <==> !(q in paths + [p] && Trouble(nodes, w, c, q).None?) {
      assert q in paths + [p] <==> q in paths || q == p;
    }
  }

  lemma OneExactly(nodes: Nodes, w: Weather, c: Class, paths: seq<Path>, p: Path, t: Tally)
    requires Exact(nodes, w, c, paths, t) && p !in paths
    ensures Exact(nodes, w, c, paths + [p], PurgeOne(t, w, c, p))
  {
    FoundStep(nodes, w, c, paths, p);
    TroubleStep(nodes, w, c, paths, p);
    LeavesHere(nodes, w, c, paths, p, t.nodes);
    OneIs(nodes, w, c, p, t);
    LeavesStep(nodes, w, c, paths, p, t.nodes, PurgeOne(t, w, c, p).nodes);
    hide Found, FirstTrouble, PurgeOne, Trouble, Visible, Without, Within, Leaves;
  }

  lemma LeavesHere(nodes: Nodes, w: Weather, c: Class, paths: seq<Path>, p: Path, after: Nodes)
    requires Leaves(nodes, w, c, paths, after) && p !in paths
    ensures Within(after, nodes) && (p in nodes <==> p in after)
  {
    hide Trouble;
  }

  // ------------------------------------------- the lists name no file twice

  lemma UnderDistinct(dir: Path, names: seq<string>)
    requires forall j, k :: 0 <= j < k < |names| ==> names[j] != names[k]
    ensures Distinct(Under(dir, names))
  {
    var r := Under(dir, names);
    forall j, k | 0 <= j < k < |r| ensures r[j] != r[k] {
      assert r[j][|dir|] == names[j] && r[k][|dir|] == names[k];
    }
  }

  lemma FamilyDistinct(database: Path)
    ensures Distinct(Family(database))
  {
    SuffixDiffers(database, "-wal");
    SuffixDiffers(database, "-shm");
    CompanionsDiffer(database);
    hide Suffixed;
  }

  lemma ListsDistinct(names: seq<string>)
    requires names in [DATABASE, ConfigNames(true), ConfigNames(false), SIDECARS, UI_STATE]
    ensures forall j, k :: 0 <= j < k < |names| ==> names[j] != names[k]
  {
  }

  /** The classes that go through a list of files. */
  predicate GoesThroughFiles(p: Progress, env: Env, c: Class) {
    c.Database? || c.Sidecars? || c.UiState? || (c.Configuration? && !p.unresolved) || (c.ConfiguredDatabase? && Elsewhere(env))
  }

  function Listed(env: Env, c: Class): seq<Path>
    requires c.Database? || c.Sidecars? || c.UiState? || c.Configuration? || (c.ConfiguredDatabase? && env.config.AbsolutePath?)
  {
    if c.ConfiguredDatabase? then Family(env.config.path) else
      Under(env.root, if c.Database? then DATABASE else if c.Sidecars? then SIDECARS else if c.UiState? then UI_STATE
                      else ConfigNames(env.marker))
  }

  lemma ListedIsOwned(p: Progress, env: Env, c: Class)
    requires GoesThroughFiles(p, env, c)
    ensures forall q :: q in Listed(env, c) <==> Owns(env, c, q)
    ensures Distinct(Listed(env, c))
    ensures var t := PurgePaths(p.nodes, env.weather, c, Listed(env, c));
      c in ORDER ==> RunClass(p, env, c) == Phase(t.nodes, TallyReceipt(c, t))
  {
    hide PurgePaths, Under, Family, Named, OfDatabase, Owns, Distinct, DATABASE, SIDECARS, UI_STATE, ConfigNames;
    forall q ensures q in Listed(env, c) <==> Owns(env, c, q) {
      OwnsIs(env, c, q);
      if c.ConfiguredDatabase? { OfDatabaseIs(env.config.path, q); } else {
        NamedIsUnder(env.root, DATABASE, q);
        NamedIsUnder(env.root, SIDECARS, q);
        NamedIsUnder(env.root, UI_STATE, q);
        NamedIsUnder(env.root, ConfigNames(env.marker), q);
      }
    }
    if c.ConfiguredDatabase? {
      FamilyDistinct(env.config.path);
    } else {
      var names := if c.Database? then DATABASE else if c.Sidecars? then SIDECARS else if c.UiState? then UI_STATE
                   else ConfigNames(env.marker);
      ListsDistinct(names);
      UnderDistinct(env.root, names);
    }
  }

  lemma {:induction false} TroubleIsReal(nodes: Nodes, w: Weather, c: Class, paths: seq<Path>)
    ensures FirstTrouble(nodes, w, c, paths).None? <==> forall q | q in paths :: Trouble(nodes, w, c, q).None?
    ensures FirstTrouble(nodes, w, c, paths).Some? ==>
      exists q :: q in paths && Trouble(nodes, w, c, q) == FirstTrouble(nodes, w, c, paths)
  {
    hide Trouble;
    if paths != [] {
      var n := |paths| - 1;
      assert paths == paths[..n] + [paths[n]];
      TroubleIsReal(nodes, w, c, paths[..n]);
      assert paths[n] in paths;
    }
  }

  /** What a file class may have seen of its own. */
  function Spotted(nodes: Nodes, env: Env, c: Class): set<Path> {
    set q | q in nodes && Owns(env, c, q) && Visible(env.weather, c, q)
  }

  /** A class of files removes exactly those of its entries that nothing keeps, counts
      every one it could see, and reports success exactly when nothing kept any. It is
      deferred when its trouble is a lock, and needs a retry for any other. */
  lemma FileClassIsExact(p: Progress, env: Env, c: Class)
    requires c in ORDER && GoesThroughFiles(p, env, c)
    ensures var phase := RunClass(p, env, c); var receipt := phase.receipt;
      && (forall q | q in p.nodes :: q in phase.nodes <==> !(Owns(env, c, q) && Trouble(p.nodes, env.weather, c, q).None?))
      && receipt.count == |Spotted(p.nodes, env, c)|
      && (receipt.outcome == Removed <==> forall q | Owns(env, c, q) :: Trouble(p.nodes, env.weather, c, q).None?)
      && (receipt.outcome != Removed ==>
            && receipt.outcome == (if receipt.error == Some(Locked) then Deferred else NeedsRetry)
            && exists q :: Owns(env, c, q) && receipt.error == Trouble(p.nodes, env.weather, c, q) && receipt.error.Some?)
  {
    hide RunClass, Listed, Owns, Trouble, Visible, PurgePaths, FirstTrouble, Distinct, Within, ORDER;
    var paths := Listed(env, c);
    ListedIsOwned(p, env, c);
    PathsExactly(p.nodes, env.weather, c, paths);
    TroubleIsReal(p.nodes, env.weather, c, paths);
    assert Found(p.nodes, env.weather, c, paths) == Spotted(p.nodes, env, c);
  }

  // ----------------------------------------------------- the receipt's lines

  /** One line for each class, in the order in which they run. */
  const LINES: seq<Class> :=
    [Database, ConfiguredDatabase, Configuration, Sidecars, UiState, Logs, Archives, OperationReceipts, Rollback, LegacyPrograms,
     ExternalExports, UnknownEntries, DataRoot]

  /** Every line so far is of its class, and none says retained. */
  ghost predicate InLine(classes: seq<ClassReceipt>) {
    && |classes| <= |LINES|
    && forall k :: 0 <= k < |classes| ==>
         classes[k].class_ == LINES[k] && (classes[k].outcome == Retained <==> LINES[k] == ExternalExports)
  }

  lemma InLineStep(classes: seq<ClassReceipt>, last: ClassReceipt)
    requires InLine(classes) && |classes| < |LINES| && last.class_ == LINES[|classes|]
    requires last.outcome == Retained <==> last.class_ == ExternalExports
    ensures InLine(classes + [last])
  {
    hide LINES;
  }

  lemma OrderIsInLine(k: nat)
    requires k < |ORDER|
    ensures |LINES| == 13 && |ORDER| == 10 && ORDER[k] == LINES[k] && ORDER[k] != ExternalExports
    ensures LINES[10] == ExternalExports && LINES[11] == UnknownEntries && LINES[12] == DataRoot
  {}

  lemma {:induction false} LinesSoFar(nodes: Nodes, env: Env, k: nat)
    requires k <= |ORDER| && WellFormed(nodes)
    ensures |Upto(nodes, env, k).classes| == k && InLine(Upto(nodes, env, k).classes)
  {
    hide WellFormed, RunClass, Upto, ORDER, LINES, TookClaimed, InLine;
    StartsEmpty(nodes, env);
    if k == 0 {
      NoLines();
    } else {
      LinesSoFar(nodes, env, k - 1);
      RunTakesClaimed(nodes, env, k - 1);
      TookWellFormed(nodes, env, k - 1, Upto(nodes, env, k - 1).nodes);
      AdvanceFacts(nodes, env, k - 1);
      OrderIs(k - 1);
      OrderIsInLine(k - 1);
      ClassOf(Upto(nodes, env, k - 1), env, ORDER[k - 1]);
      InLineStep(Upto(nodes, env, k - 1).classes, RunClass(Upto(nodes, env, k - 1), env, ORDER[k - 1]).receipt);
    }
  }

  lemma NoLines()
    ensures InLine([])
  {}

  lemma FinishInLine(nodes: Nodes, env: Env, classes: seq<ClassReceipt>, unknown: ClassReceipt)
    requires InLine(classes) && |classes| == 10 && unknown.class_ == UnknownEntries && unknown.outcome != Retained
    ensures var all := classes + [ClassReceipt(ExternalExports, Retained, 0, None), unknown];
      var lines := FinishRoot(nodes, env, all).receipt.classes; |lines| == 13 && InLine(lines)
  {
    hide InLine, AnyUnfinished, RemoveDir, LINES;
    OrderIsInLine(0);
    var external := ClassReceipt(ExternalExports, Retained, 0, None);
    InLineStep(classes, external);
    InLineStep(classes + [external], unknown);
    assert classes + [external] + [unknown] == classes + [external, unknown];
    var lines := FinishRoot(nodes, env, classes + [external, unknown]).receipt.classes;
    InLineStep(classes + [external, unknown], lines[12]);
  }

  lemma UnknownNotRetained(root: Counted, bin: Counted)
    ensures UnknownReceipt(root, bin).class_ == UnknownEntries && UnknownReceipt(root, bin).outcome != Retained
  {}

  lemma LinesInAll(nodes: Nodes, env: Env)
    requires WellFormed(nodes) && BeforeRootRuns(nodes, env)
    ensures |PurgeDataRoot(nodes, env).receipt.classes| == 13 && InLine(PurgeDataRoot(nodes, env).receipt.classes)
  {
    hide WellFormed, Upto, CountUnknown, UnknownReceipt, FinishRoot, InLine, LookAt, ORDER, KNOWN;
    PurgeCompletes.OrderTen();
    LinesSoFar(nodes, env, |ORDER|);
    var p := Upto(nodes, env, |ORDER|);
    var root := CountUnknown(p.nodes, env.weather, UnknownEntries, env.root, KNOWN);
    UnknownNotRetained(root, p.binUnknown);
    FinishInLine(p.nodes, env, p.classes, UnknownReceipt(root, p.binUnknown));
  }

  /** A purge that runs writes thirteen lines, whatever fails, and is complete exactly
      when all of them but the exports' say removed. */
  lemma ReceiptHasEveryLine(nodes: Nodes, env: Env)
    requires WellFormed(nodes) && BeforeRootRuns(nodes, env)
    ensures var receipt := PurgeDataRoot(nodes, env).receipt;
      && |receipt.classes| == 13 && (forall k :: 0 <= k < 13 ==> receipt.classes[k].class_ == LINES[k])
      && (receipt.completed <==> forall k :: 0 <= k < 13 && k != 10 ==> receipt.classes[k].outcome == Removed)
  {
    hide WellFormed, PurgeDataRoot, BeforeRootRuns;
    LinesInAll(nodes, env);
    StatusIsHonest(nodes, env);
    SaysRemoved(PurgeDataRoot(nodes, env).receipt.classes);
  }

  lemma SaysRemoved(classes: seq<ClassReceipt>)
    requires InLine(classes) && |classes| == 13
    ensures AnyUnfinished(classes) <==> exists k :: 0 <= k < 13 && k != 10 && classes[k].outcome != Removed
  {
    forall k | 0 <= k < 13 ensures Unfinished(classes[k]) <==> k != 10 && classes[k].outcome != Removed {
      LinesApart(k);
    }
    hide Unfinished, LINES, InLine;
  }

  lemma LinesApart(k: nat)
    requires k < 13
    ensures |LINES| == 13 && (LINES[k] == ExternalExports <==> k == 10)
  {}

  // ------------------------------------------------------------- the count

  lemma AfterDatabase(nodes: Nodes, env: Env)
    requires WellFormed(nodes) && RunClass(Upto(nodes, env, 0), env, Database).receipt.outcome == Removed
    ensures forall q | q in nodes :: q in Upto(nodes, env, 1).nodes <==> !Owns(env, Database, q)
    ensures Within(Upto(nodes, env, 1).nodes, nodes)
  {
    hide WellFormed, RunClass, Owns, Trouble, Spotted, Upto, Within;
    OrderIsInLine(0);
    AdvanceFacts(nodes, env, 0);
    StartsEmpty(nodes, env);
    NextWithin(nodes, env, 0);
    FileClassIsExact(Upto(nodes, env, 0), env, Database);
  }

  /** The count a completed purge shows for a database configured elsewhere is how many
      of its three files were there, and not among the default ones removed before. */
  lemma CompletedCountsDatabase(nodes: Nodes, env: Env)
    requires WellFormed(nodes) && PurgeDataRoot(nodes, env).receipt.completed && Elsewhere(env)
    ensures var classes := PurgeDataRoot(nodes, env).receipt.classes;
      |classes| > 1 && classes[1].count == |set q | q in nodes && OfDatabase(env.config.path, q) && !Owns(env, Database, q)|
  {
    hide WellFormed, RunClass, Owns, Trouble, Upto, Within, PurgeDataRoot, OfDatabase, ORDER, BeforeRootRuns;
    PurgeCompletes.CompletedShape(nodes, env);
    PurgeCompletes.OrderTen();
    OrderIs(1);
    UnresolvedStays(nodes, env, |ORDER|);
    FirstLine(nodes, env, |ORDER|);
    AfterDatabase(nodes, env);
    var p := Upto(nodes, env, 1);
    FileClassIsExact(p, env, ConfiguredDatabase);
    SpottedIs(nodes, p.nodes, env);
  }

  lemma SpottedIs(nodes: Nodes, after: Nodes, env: Env)
    requires Within(after, nodes) && Elsewhere(env)
    requires forall q | q in nodes :: q in after <==> !Owns(env, Database, q)
    requires forall q | Owns(env, ConfiguredDatabase, q) :: Trouble(after, env.weather, ConfiguredDatabase, q).None?
    ensures Spotted(after, env, ConfiguredDatabase) == set q | q in nodes && OfDatabase(env.config.path, q) && !Owns(env, Database, q)
  {
    hide OfDatabase, Named;
    forall q ensures q in Spotted(after, env, ConfiguredDatabase)
      <==> q in nodes && OfDatabase(env.config.path, q) && !Owns(env, Database, q)
    {
      assert Owns(env, ConfiguredDatabase, q) <==> OfDatabase(env.config.path, q);
    }
  }

  lemma {:induction false} FirstLine(nodes: Nodes, env: Env, k: nat)
    requires 1 <= k <= |ORDER|
    ensures |Upto(nodes, env, k).classes| == k
    ensures Upto(nodes, env, k).classes[0] == RunClass(Upto(nodes, env, 0), env, Database).receipt
  {
    hide RunClass, Upto;
    OrderIsInLine(0);
    StartsEmpty(nodes, env);
    AdvanceFacts(nodes, env, k - 1);
    if k > 1 { FirstLine(nodes, env, k - 1); }
  }
}
