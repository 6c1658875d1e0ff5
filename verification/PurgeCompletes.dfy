/** When nothing fails and nothing strange is in the way, the purge completes,
    and its receipt accounts for every entry it removed. */
module PurgeCompletes {

  import opened Purge
  import opened PurgeProofs
  import opened PurgeResults
  import PurgeRun
  import opened Wrappers

  ghost predicate Calm(w: Weather) { forall a: Attempt :: w.fails(a).None? }

  predicate FilesAt(nodes: Nodes, paths: seq<Path>) { forall k :: 0 <= k < |paths| ==> paths[k] in nodes ==> nodes[paths[k]] == File }

  /** A directory class finds no link in its tree, and a directory if anything. */
  predicate PlainTree(nodes: Nodes, dir: Path) {
    (dir in nodes ==> nodes[dir] == Dir) && forall p | p in SubTree(nodes, dir) :: nodes[p] != Symlink
  }

  predicate PlainPrograms(nodes: Nodes, bin: Path) {
    && (bin in nodes ==> nodes[bin] == Dir)
    && FilesAt(nodes, Under(bin, PROGRAMS))
    && Strangers(nodes, bin, PROGRAMS) == {}
  }

  predicate ConfigResolves(nodes: Nodes, config: ConfigRead) {
    config.Missing? || (config.AbsolutePath? && FilesAt(nodes, Family(config.path)))
  }

  /** What each class needs to succeed. */
  predicate TidyFor(nodes: Nodes, env: Env, c: Class) {
    var root := env.root;
    match c
    case Database => FilesAt(nodes, Under(root, DATABASE))
    case ConfiguredDatabase => ConfigResolves(nodes, env.config)
    case Configuration => FilesAt(nodes, Under(root, ConfigNames(env.marker)))
    case Sidecars => FilesAt(nodes, Under(root, SIDECARS))
    case UiState => FilesAt(nodes, Under(root, UI_STATE))
    case LegacyPrograms => PlainPrograms(nodes, root + ["bin"])
    case _ => PlainTree(nodes, root + [DirectoryOf(c)])
  }

  /** The root, if there is one, is a directory of known entries. */
  predicate TidyRoot(nodes: Nodes, env: Env) {
    && (env.root in nodes ==> nodes[env.root] == Dir)
    && Strangers(nodes, env.root, KNOWN) == {}
    && (env.root + [MARKER] in nodes ==> env.marker)
  }

  predicate Tidy(nodes: Nodes, env: Env) {
    TidyRoot(nodes, env) && forall k :: 0 <= k < |ORDER| ==> TidyFor(nodes, env, ORDER[k])
  }

  lemma FewerStrangers(after: Nodes, before: Nodes, dir: Path, known: seq<string>)
    requires Within(after, before) && Strangers(before, dir, known) == {}
    ensures Strangers(after, dir, known) == {}
  {
    assert Strangers(after, dir, known) <= Strangers(before, dir, known);
  }

  lemma TidyForLess(after: Nodes, before: Nodes, env: Env, c: Class)
    requires Within(after, before) && TidyFor(before, env, c)
    ensures TidyFor(after, env, c)
  {
    hide Under, Strangers, ConfigNames, Family, DirectoryOf;
    if c == LegacyPrograms { FewerStrangers(after, before, env.root + ["bin"], PROGRAMS); }
  }

  // ------------------------------------------------------------ single classes

  lemma {:induction false} CalmFiles(nodes: Nodes, w: Weather, c: Class, paths: seq<Path>)
    requires Calm(w) && FilesAt(nodes, paths) && WellFormed(nodes)
    ensures PurgePaths(nodes, w, c, paths).error.None?
  {
    hide WellFormed, FilesPurged, PurgeOne, Calm;
    if paths != [] {
      var n := |paths| - 1;
      CalmFiles(nodes, w, c, paths[..n]);
      PathsPurged(nodes, w, c, paths[..n]);
      assert paths[n] in nodes ==> nodes[paths[n]] == File;
      CalmFile(nodes, PurgePaths(nodes, w, c, paths[..n]), w, c, paths[..n], paths[n]);
    }
  }

  lemma CalmFile(nodes: Nodes, t: Tally, w: Weather, c: Class, paths: seq<Path>, p: Path)
    requires Calm(w) && FilesPurged(nodes, t, paths) && t.error.None? && (p in nodes ==> nodes[p] == File)
    ensures PurgeOne(t, w, c, p).error.None?
  {
    hide WellFormed, Without;
  }

  lemma CalmDirectory(nodes: Nodes, w: Weather, c: Class, dir: Path)
    requires Calm(w) && PlainTree(nodes, dir)
    ensures PurgeDirectory(nodes, w, c, dir).receipt.outcome == Removed
  {}

  lemma CalmPrograms(nodes: Nodes, w: Weather, root: Path)
    requires Calm(w) && PlainPrograms(nodes, root + ["bin"]) && WellFormed(nodes)
    ensures var legacy := PurgeLegacyProgramFiles(nodes, w, root);
      legacy.phase.receipt.outcome == Removed && legacy.unknown == Counted(0) && root + ["bin"] !in legacy.phase.nodes
  {
    hide WellFormed, PurgePaths, FilesAt, Under, Without;
    var bin := root + ["bin"];
    CalmFiles(nodes, w, LegacyPrograms, Under(bin, PROGRAMS));
    PathsPurged(nodes, w, LegacyPrograms, Under(bin, PROGRAMS));
    var left := PurgePaths(nodes, w, LegacyPrograms, Under(bin, PROGRAMS)).nodes;
    FewerStrangers(left, nodes, bin, PROGRAMS);
    NoChildren(left, bin, PROGRAMS);
    if bin in nodes { RemoveOne(left, bin); }
  }

  /** With every known child gone and no stranger there are no children. */
  lemma NoChildren(nodes: Nodes, dir: Path, names: seq<string>)
    requires Strangers(nodes, dir, names) == {} && forall p | p in Under(dir, names) :: p !in nodes
    ensures Children(nodes, dir) == {}
  {
    if Children(nodes, dir) != {} {
      var p :| p in Children(nodes, dir);
      KnownChild(nodes, dir, names, p);
    }
  }

  lemma KnownChild(nodes: Nodes, dir: Path, names: seq<string>, p: Path)
    requires p in Children(nodes, dir) && p !in Strangers(nodes, dir, names)
    ensures p in nodes && p in Under(dir, names)
  {
    var k :| 0 <= k < |names| && names[k] == p[|dir|];
    assert p == dir + [names[k]] == Under(dir, names)[k];
  }

  /** The entries a class leaves none of. */
  ghost predicate Cleared(nodes: Nodes, env: Env, c: Class) {
    var root := env.root;
    match c
    case Database => forall p | p in Under(root, DATABASE) :: p !in nodes
    case ConfiguredDatabase =>
      env.config.AbsolutePath? && env.config.path != root + ["gilbreth.db"] ==> forall p | p in Family(env.config.path) :: p !in nodes
    case Configuration => forall p | p in Under(root, ConfigNames(env.marker)) :: p !in nodes
    case Sidecars => forall p | p in Under(root, SIDECARS) :: p !in nodes
    case UiState => forall p | p in Under(root, UI_STATE) :: p !in nodes
    case LegacyPrograms => root + ["bin"] !in nodes
    case _ => root + [DirectoryOf(c)] !in nodes
  }

  lemma FilesComplete(nodes: Nodes, w: Weather, c: Class, root: Path, names: seq<string>)
    requires Calm(w) && WellFormed(nodes) && FilesAt(nodes, Under(root, names))
    ensures var phase := PurgeFiles(nodes, w, c, root, names);
      phase.receipt.outcome == Removed && forall p | p in Under(root, names) :: p !in phase.nodes
  {
    hide WellFormed, PurgePaths, Under, FilesAt;
    CalmFiles(nodes, w, c, Under(root, names));
    PathsPurged(nodes, w, c, Under(root, names));
  }

  lemma ConfiguredComplete(nodes: Nodes, env: Env)
    requires Calm(env.weather) && WellFormed(nodes) && ConfigResolves(nodes, env.config)
    ensures var phase := PurgeConfiguredDatabase(nodes, env.weather, env.root, env.config);
      phase.receipt.outcome == Removed && Cleared(phase.nodes, env, ConfiguredDatabase)
  {
    hide WellFormed, PurgePaths, Family, FilesAt;
    if env.config.AbsolutePath? {
      CalmFiles(nodes, env.weather, ConfiguredDatabase, Family(env.config.path));
      PathsPurged(nodes, env.weather, ConfiguredDatabase, Family(env.config.path));
    }
  }

  lemma DirectoryComplete(nodes: Nodes, w: Weather, c: Class, dir: Path)
    requires Calm(w) && WellFormed(nodes) && PlainTree(nodes, dir)
    ensures var phase := PurgeDirectory(nodes, w, c, dir); phase.receipt.outcome == Removed && dir !in phase.nodes
  {
    hide WellFormed, PurgeDirectory, PlainTree;
    CalmDirectory(nodes, w, c, dir);
    DirectoryPurged(nodes, w, c, dir);
  }

  lemma ClassCompletes(p: Progress, env: Env, c: Class)
    requires c in ORDER && Calm(env.weather) && WellFormed(p.nodes) && TidyFor(p.nodes, env, c) && !p.unresolved
    ensures RunClass(p, env, c).receipt.outcome == Removed && Cleared(RunClass(p, env, c).nodes, env, c)
    ensures c == LegacyPrograms ==> PurgeLegacyProgramFiles(p.nodes, env.weather, env.root).unknown == Counted(0)
  {
    hide WellFormed, Calm, PurgeFiles, PurgeDirectory, PurgeLegacyProgramFiles, PurgeConfiguredDatabase, Under, ConfigNames,
         FilesAt, PlainTree, PlainPrograms, ConfigResolves, DirectoryOf, Family;
    var nodes, w, root := p.nodes, env.weather, env.root;
    match c {
      case Database => FilesComplete(nodes, w, c, root, DATABASE);
      case ConfiguredDatabase => ConfiguredComplete(nodes, env);
      case Configuration => FilesComplete(nodes, w, c, root, ConfigNames(env.marker));
      case Sidecars => FilesComplete(nodes, w, c, root, SIDECARS);
      case UiState => FilesComplete(nodes, w, c, root, UI_STATE);
      case LegacyPrograms => CalmPrograms(nodes, w, root);
      case _ => DirectoryComplete(nodes, w, c, root + [DirectoryOf(c)]);
    }
  }

  // ---------------------------------------------------------------- the run

  /** The first `k` classes all succeed. */
  ghost predicate GoingWell(nodes: Nodes, env: Env, k: nat)
    requires k <= |ORDER|
  {
    var p := Upto(nodes, env, k);
    && !p.unresolved && |p.classes| == k && p.binUnknown == Counted(0)
    && (forall j :: 0 <= j < k ==> p.classes[j].outcome == Removed)
    && (forall j :: 0 <= j < k ==> Cleared(p.nodes, env, ORDER[j]))
  }

  lemma ClearedStays(after: Nodes, before: Nodes, env: Env, c: Class)
    requires Within(after, before) && Cleared(before, env, c)
    ensures Cleared(after, env, c)
  {
    hide Under, ConfigNames, DirectoryOf, Family;
  }

  lemma GoesOn(nodes: Nodes, env: Env, k: nat)
    requires k < |ORDER| && GoingWell(nodes, env, k) && Calm(env.weather) && WellFormed(nodes)
    requires TidyFor(nodes, env, ORDER[k])
    ensures GoingWell(nodes, env, k + 1)
  {
    hide WellFormed, Calm, RunClass, Upto, ORDER, TidyFor, Cleared, TookClaimed, PurgeLegacyProgramFiles;
    var p := Upto(nodes, env, k);
    OrderIs(k);
    RunTakesClaimed(nodes, env, k);
    TookWellFormed(nodes, env, k, p.nodes);
    TookWithin(nodes, env, k, p.nodes);
    TidyForLess(p.nodes, nodes, env, ORDER[k]);
    ClassCompletes(p, env, ORDER[k]);
    AdvanceFacts(nodes, env, k);
    AdvanceBin(nodes, env, k);
    LaterWithin(nodes, env, k, k + 1);
    forall j | 0 <= j < k ensures Cleared(Upto(nodes, env, k + 1).nodes, env, ORDER[j]) {
      ClearedStays(Upto(nodes, env, k + 1).nodes, p.nodes, env, ORDER[j]);
    }
  }

  lemma TookWithin(nodes: Nodes, env: Env, k: nat, after: Nodes)
    requires k <= |ORDER| && TookClaimed(nodes, env, k, after)
    ensures Within(after, nodes)
  {}

  lemma {:induction false} AllGoWell(nodes: Nodes, env: Env, k: nat)
    requires k <= |ORDER| && Calm(env.weather) && WellFormed(nodes) && Tidy(nodes, env)
    ensures GoingWell(nodes, env, k)
  {
    hide WellFormed, Calm, RunClass, TidyFor, Cleared, GoingWell, ORDER, TidyRoot;
    if k == 0 {
      NothingYet(nodes, env);
    } else {
      AllGoWell(nodes, env, k - 1);
      GoesOn(nodes, env, k - 1);
    }
  }

  lemma NothingYet(nodes: Nodes, env: Env)
    ensures GoingWell(nodes, env, 0)
  {}

  /** Once every class has cleared its entries, no known name is left in the root. */
  lemma NoKnownLeft(nodes: Nodes, env: Env)
    requires TidyRoot(nodes, env) && forall j :: 0 <= j < |ORDER| ==> Cleared(nodes, env, ORDER[j])
    ensures forall p | p in Under(env.root, KNOWN) :: p !in nodes
  {
    hide Under, DATABASE, CONFIGURATION, SIDECARS, UI_STATE, DIRECTORIES, MARKER, Strangers;
    var root := env.root;
    assert Cleared(nodes, env, ORDER[0]) && Cleared(nodes, env, ORDER[2]) && Cleared(nodes, env, ORDER[3]);
    assert Cleared(nodes, env, ORDER[4]) && Cleared(nodes, env, ORDER[5]) && Cleared(nodes, env, ORDER[6]);
    assert Cleared(nodes, env, ORDER[7]) && Cleared(nodes, env, ORDER[8]) && Cleared(nodes, env, ORDER[9]);
    forall p | p in Under(root, KNOWN) ensures p !in nodes {
      KnownPlace(root, p, env.marker);
    }
  }

  lemma InUnder(root: Path, names: seq<string>, name: string)
    requires name in names
    ensures root + [name] in Under(root, names)
  {
    var k :| 0 <= k < |names| && names[k] == name;
    assert Under(root, names)[k] == root + [name];
  }

  lemma KnownPlace(root: Path, p: Path, marker: bool)
    requires p in Under(root, KNOWN)
    ensures p in Under(root, DATABASE) || p in Under(root, ConfigNames(marker)) || (!marker && p == root + [MARKER])
      || p in Under(root, SIDECARS) || p in Under(root, UI_STATE)
      || p == root + ["logs"] || p == root + ["archives"] || p == root + ["operation-receipts"] || p == root + ["rollback"]
      || p == root + ["bin"]
  {
    hide Under, DATABASE, CONFIGURATION, SIDECARS, UI_STATE, MARKER;
    UnderName(root, KNOWN, p);
    var name := p[|root|];
    assert p == root + [name];
    if name in DATABASE { InUnder(root, DATABASE, name); }
    else if name in CONFIGURATION || (marker && name == MARKER) { InUnder(root, ConfigNames(marker), name); }
    else if name in SIDECARS { InUnder(root, SIDECARS, name); }
    else if name in UI_STATE { InUnder(root, UI_STATE, name); }
    else if name != MARKER { FiveDirectories(name); }
  }

  /** When nothing fails, a root that holds nothing but what the classes expect,
      or no root at all, is purged completely. */
  lemma TidyPurgeCompletes(nodes: Nodes, env: Env)
    requires WellFormed(nodes) && Calm(env.weather) && Tidy(nodes, env)
    ensures PurgeDataRoot(nodes, env).receipt.completed
  {
    hide WellFormed, RunClass, TidyFor, Cleared, Upto, ORDER, KNOWN, TookClaimed, Children, Calm, AnyUnfinished, FinishRoot,
         Strangers;
    AllGoWell(nodes, env, |ORDER|);
    RunTakesClaimed(nodes, env, |ORDER|);
    var p := Upto(nodes, env, |ORDER|);
    TookWithin(nodes, env, |ORDER|, p.nodes);
    FewerStrangers(p.nodes, nodes, env.root, KNOWN);
    NoKnownLeft(p.nodes, env);
    NoChildren(p.nodes, env.root, KNOWN);
    assert |Strangers(p.nodes, env.root, KNOWN)| == 0;
    CalmAt(env.weather, Attempt(DataRoot, Look, env.root));
    CalmAt(env.weather, Attempt(UnknownEntries, List, env.root));
    FinishesClean(p.nodes, env, p.classes);
  }

  lemma CalmAt(w: Weather, a: Attempt)
    requires Calm(w)
    ensures w.fails(a).None?
  {}

  lemma FinishesClean(nodes: Nodes, env: Env, classes: seq<ClassReceipt>)
    requires Calm(env.weather) && (env.root in nodes ==> nodes[env.root] == Dir) && Children(nodes, env.root) == {}
    requires forall j :: 0 <= j < |classes| ==> classes[j].outcome == Removed
    ensures FinishRoot(nodes, env,
      classes + [ClassReceipt(ExternalExports, Retained, 0, None), ClassReceipt(UnknownEntries, Removed, 0, None)]).receipt.completed
  {}

  // ------------------------------------------------------------ the rerun

  predicate Seen(w: Weather, c: Class, paths: seq<Path>) {
    forall k :: 0 <= k < |paths| ==> w.fails(Attempt(c, Look, paths[k])).None?
  }

  /** With nothing there, all a class does is look. */
  predicate ClassSees(env: Env, c: Class) {
    var w, root := env.weather, env.root;
    match c
    case Database => Seen(w, c, Under(root, DATABASE))
    case ConfiguredDatabase => env.config.Missing?
    case Configuration => Seen(w, c, Under(root, ConfigNames(env.marker)))
    case Sidecars => Seen(w, c, Under(root, SIDECARS))
    case UiState => Seen(w, c, Under(root, UI_STATE))
    case LegacyPrograms => Seen(w, c, [root + ["bin"]])
    case _ => Seen(w, c, [root + [DirectoryOf(c)]])
  }

  /** Nothing that a purge of a missing root has to look at, list or remove fails. */
  predicate SeesNothing(env: Env) {
    && Seen(env.weather, DataRoot, [env.root]) && (forall k :: 0 <= k < |ORDER| ==> ClassSees(env, ORDER[k]))
    && env.weather.fails(Attempt(UnknownEntries, List, env.root)).None?
    && env.weather.fails(Attempt(DataRoot, RemoveDirectory, env.root)).None?
  }

  lemma SeenOne(w: Weather, c: Class, p: Path)
    ensures Seen(w, c, [p]) <==> w.fails(Attempt(c, Look, p)).None?
  {
    if Seen(w, c, [p]) { assert w.fails(Attempt(c, Look, [p][0])).None?; }
  }

  ghost predicate NoneThere(nodes: Nodes, root: Path) { forall p | p in nodes :: !(root <= p) }

  lemma {:induction false} AbsentPaths(nodes: Nodes, w: Weather, c: Class, paths: seq<Path>)
    requires forall k :: 0 <= k < |paths| ==> paths[k] !in nodes
    ensures var t := PurgePaths(nodes, w, c, paths); t.nodes == nodes && (t.error.None? <==> Seen(w, c, paths))
  {
    if paths != [] { AbsentPaths(nodes, w, c, paths[..|paths| - 1]); }
  }

  lemma AbsentUnder(nodes: Nodes, root: Path, dir: Path, names: seq<string>)
    requires NoneThere(nodes, root) && root <= dir
    ensures forall k :: 0 <= k < |Under(dir, names)| ==> Under(dir, names)[k] !in nodes
    ensures dir !in nodes
  {
    forall k | 0 <= k < |Under(dir, names)| ensures Under(dir, names)[k] !in nodes {
      PrefixTrans(root, dir, Under(dir, names)[k]);
    }
  }

  lemma AbsentFiles(nodes: Nodes, env: Env, c: Class, names: seq<string>)
    requires NoneThere(nodes, env.root)
    ensures var phase := PurgeFiles(nodes, env.weather, c, env.root, names);
      phase.nodes == nodes && (Unfinished(phase.receipt) <==> !Seen(env.weather, c, Under(env.root, names)))
  {
    hide Under, PurgePaths, Seen;
    AbsentUnder(nodes, env.root, env.root, names);
    AbsentPaths(nodes, env.weather, c, Under(env.root, names));
  }

  lemma AbsentClass(p: Progress, env: Env, c: Class)
    requires c in ORDER && NoneThere(p.nodes, env.root) && !env.config.AbsolutePath? && !p.unresolved
    ensures RunClass(p, env, c).nodes == p.nodes
    ensures Unfinished(RunClass(p, env, c).receipt) <==> !ClassSees(env, c)
    ensures c == LegacyPrograms && ClassSees(env, c) ==>
      PurgeLegacyProgramFiles(p.nodes, env.weather, env.root).unknown == Counted(0)
  {
    hide PurgeFiles, Under, NoneThere, ORDER, DATABASE, CONFIGURATION, SIDECARS, UI_STATE, PROGRAMS, DirectoryOf, TreeClean;
    match c {
      case Database => AbsentFiles(p.nodes, env, c, DATABASE);
      case ConfiguredDatabase =>
      case Configuration => AbsentFiles(p.nodes, env, c, ConfigNames(env.marker));
      case Sidecars => AbsentFiles(p.nodes, env, c, SIDECARS);
      case UiState => AbsentFiles(p.nodes, env, c, UI_STATE);
      case LegacyPrograms =>
        AbsentUnder(p.nodes, env.root, env.root + ["bin"], []);
        SeenOne(env.weather, c, env.root + ["bin"]);
      case _ =>
        AbsentUnder(p.nodes, env.root, env.root + [DirectoryOf(c)], []);
        SeenOne(env.weather, c, env.root + [DirectoryOf(c)]);
    }
  }

  predicate AllSee(env: Env, k: nat)
    requires k <= |ORDER|
  {
    forall j :: 0 <= j < k ==> ClassSees(env, ORDER[j])
  }

  /** Over a missing root the classes stay finished just as long as they see. */
  lemma {:induction false} AbsentRun(nodes: Nodes, env: Env, k: nat)
    requires k <= |ORDER| && NoneThere(nodes, env.root) && !env.config.AbsolutePath?
    ensures AnyUnfinished(Upto(nodes, env, k).classes) <==> !AllSee(env, k)
    ensures AllSee(env, k) ==> Upto(nodes, env, k).nodes == nodes
    ensures AllSee(env, k) ==> !Upto(nodes, env, k).unresolved && Upto(nodes, env, k).binUnknown == Counted(0)
  {
    hide RunClass, ClassSees, ORDER, Unfinished, AnyUnfinished, NoneThere, PurgeLegacyProgramFiles;
    if k == 0 {
      NoneUnfinished();
    } else {
      AbsentRun(nodes, env, k - 1);
      var p := Upto(nodes, env, k - 1);
      OrderIs(k - 1);
      AdvanceFacts(nodes, env, k - 1);
      AdvanceBin(nodes, env, k - 1);
      LastUnfinished(p.classes, RunClass(p, env, ORDER[k - 1]).receipt);
      if AllSee(env, k - 1) { AbsentClass(p, env, ORDER[k - 1]); }
    }
  }

  lemma NoneUnfinished()
    ensures !AnyUnfinished([])
  {}

  lemma AbsentFinish(nodes: Nodes, env: Env, classes: seq<ClassReceipt>, bin: Counted)
    requires NoneThere(nodes, env.root) && (!AnyUnfinished(classes) ==> bin == Counted(0))
    ensures var unknown := UnknownReceipt(CountUnknown(nodes, env.weather, UnknownEntries, env.root, KNOWN), bin);
      FinishRoot(nodes, env, classes + [ClassReceipt(ExternalExports, Retained, 0, None), unknown]).receipt.completed
      <==> !AnyUnfinished(classes) && env.weather.fails(Attempt(UnknownEntries, List, env.root)).None?
           && env.weather.fails(Attempt(DataRoot, RemoveDirectory, env.root)).None?
  {
    hide AnyUnfinished, KNOWN;
    var exports := ClassReceipt(ExternalExports, Retained, 0, None);
    var unknown := UnknownReceipt(CountUnknown(nodes, env.weather, UnknownEntries, env.root, KNOWN), bin);
    LastUnfinished(classes, exports);
    LastUnfinished(classes + [exports], unknown);
    assert classes + [exports] + [unknown] == classes + [exports, unknown];
  }

  /** Over a missing root a purge completes exactly when nothing it looks at fails. */
  lemma AbsentCompletesIff(nodes: Nodes, env: Env)
    requires WellFormed(nodes) && NoneThere(nodes, env.root) && !env.config.AbsolutePath?
    ensures PurgeDataRoot(nodes, env).receipt.completed <==> SeesNothing(env)
  {
    hide Upto, WellFormed, NoneThere, FinishRoot, UnknownReceipt, CountUnknown, ClassSees, AnyUnfinished, ORDER;
    AbsentUnder(nodes, env.root, env.root, []);
    SeenOne(env.weather, DataRoot, env.root);
    AbsentRun(nodes, env, |ORDER|);
    var p := Upto(nodes, env, |ORDER|);
    AbsentGone(nodes, env, |ORDER|);
    AbsentFinish(p.nodes, env, p.classes, p.binUnknown);
  }

  lemma AbsentGone(nodes: Nodes, env: Env, k: nat)
    requires k <= |ORDER| && WellFormed(nodes) && NoneThere(nodes, env.root)
    ensures NoneThere(Upto(nodes, env, k).nodes, env.root)
  {
    hide Upto, WellFormed, TookClaimed, ORDER;
    RunTakesClaimed(nodes, env, k);
    TookWithin(nodes, env, k, Upto(nodes, env, k).nodes);
  }

  /** Rerunning after a completed purge changes nothing, whatever fails, and completes
      again exactly when the configuration reads as missing and nothing it looks at fails. */
  lemma RerunIsANoOp(nodes: Nodes, env: Env, again: Env)
    requires WellFormed(nodes) && PurgeDataRoot(nodes, env).receipt.completed
    requires again.root == env.root && !again.config.AbsolutePath?
    ensures var done := PurgeDataRoot(nodes, env).nodes;
      PurgeDataRoot(done, again).nodes == done && (PurgeDataRoot(done, again).receipt.completed <==> SeesNothing(again))
  {
    hide PurgeDataRoot, WellFormed, TookClaimed, BeforeRoot, SeesNothing;
    var done := PurgeDataRoot(nodes, env).nodes;
    RootLast(nodes, env);
    CompletedMeansGone(nodes, env);
    RerunTouchesNothing(done, again);
    AbsentCompletesIff(done, again);
  }

  lemma PrefixTrans(a: Path, b: Path, p: Path)
    requires a <= b
    ensures b <= p ==> a <= p
  {}

  // ------------------------------------------------- the receipt adds up

  function Counts(classes: seq<ClassReceipt>): nat {
    if classes == [] then 0 else Counts(classes[..|classes| - 1]) + classes[|classes| - 1].count
  }

  lemma CountsStep(classes: seq<ClassReceipt>, last: ClassReceipt)
    ensures Counts(classes + [last]) == Counts(classes) + last.count
  {
    assert (classes + [last])[..|classes|] == classes;
  }

  predicate AllRemoved(classes: seq<ClassReceipt>) { forall k :: 0 <= k < |classes| ==> classes[k].outcome == Removed }

  predicate HasProgramDirectory(nodes: Nodes, env: Env) {
    env.root + ["bin"] in nodes && nodes[env.root + ["bin"]] == Dir
  }

  lemma FilesKeepDirectories(nodes: Nodes, w: Weather, c: Class, paths: seq<Path>, dir: Path)
    requires WellFormed(nodes) && dir in nodes && nodes[dir] == Dir
    ensures dir in PurgePaths(nodes, w, c, paths).nodes
  {
    hide WellFormed, PurgePaths;
    PathsPurged(nodes, w, c, paths);
  }

  lemma OtherTreesKeep(env: Env, nodes: Nodes, c: Class)
    requires WellFormed(nodes) && HasProgramDirectory(nodes, env)
    ensures env.root + ["bin"] in PurgeDirectory(nodes, env.weather, c, env.root + [DirectoryOf(c)]).nodes
  {
    hide WellFormed, PurgeDirectory, DirectoryOf, DIRECTORIES;
    DirectoryOfIs(c);
    var bin, dir := env.root + ["bin"], env.root + [DirectoryOf(c)];
    assert bin[|env.root|] == "bin" && dir[|env.root|] == DirectoryOf(c);
    DirectoryPurged(nodes, env.weather, c, dir);
  }

  /** Only its own class removes the program directory. */
  lemma ClassKeepsPrograms(p: Progress, env: Env, c: Class)
    requires c in ORDER && c != LegacyPrograms && WellFormed(p.nodes) && HasProgramDirectory(p.nodes, env)
    ensures env.root + ["bin"] in RunClass(p, env, c).nodes
  {
    hide WellFormed, PurgePaths, PurgeDirectory, DirectoryOf, Under, ConfigNames, Family, CountPresent;
    var nodes, w, root := p.nodes, env.weather, env.root;
    match c {
      case Database => FilesKeepDirectories(nodes, w, c, Under(root, DATABASE), root + ["bin"]);
      case ConfiguredDatabase =>
        if env.config.AbsolutePath? { FilesKeepDirectories(nodes, w, c, Family(env.config.path), root + ["bin"]); }
      case Configuration => FilesKeepDirectories(nodes, w, c, Under(root, ConfigNames(env.marker)), root + ["bin"]);
      case Sidecars => FilesKeepDirectories(nodes, w, c, Under(root, SIDECARS), root + ["bin"]);
      case UiState => FilesKeepDirectories(nodes, w, c, Under(root, UI_STATE), root + ["bin"]);
      case _ => OtherTreesKeep(env, nodes, c);
    }
  }

  /** Before the program class runs, success so far means every entry that went
      was counted, and the program directory is still there. */
  lemma OneCounted(p: Progress, env: Env, c: Class)
    requires c in ORDER && c != LegacyPrograms && WellFormed(p.nodes)
    ensures var phase := RunClass(p, env, c);
      && (phase.receipt.outcome == Removed ==> |p.nodes| == |phase.nodes| + phase.receipt.count)
      && (HasProgramDirectory(phase.nodes, env) <==> HasProgramDirectory(p.nodes, env))
  {
    hide WellFormed, RunClass, ORDER, Claims;
    ClassIsHonest(p, env, c);
    if HasProgramDirectory(p.nodes, env) { ClassKeepsPrograms(p, env, c); }
  }

  /** What a purge has counted so far, as long as every class reports success. */
  ghost predicate CountedBy(nodes: Nodes, env: Env, p: Progress, k: nat) {
    && |p.classes| == k && (AllRemoved(p.classes) ==> |nodes| == |p.nodes| + Counts(p.classes))
    && (HasProgramDirectory(p.nodes, env) <==> HasProgramDirectory(nodes, env))
  }

  lemma CountedNext(nodes: Nodes, env: Env, p: Progress, next: Progress, receipt: ClassReceipt, k: nat)
    requires CountedBy(nodes, env, p, k) && next.classes == p.classes + [receipt]
    requires receipt.outcome == Removed ==> |p.nodes| == |next.nodes| + receipt.count
    requires HasProgramDirectory(next.nodes, env) <==> HasProgramDirectory(p.nodes, env)
    ensures CountedBy(nodes, env, next, k + 1)
  {
    hide AllRemoved, Counts, HasProgramDirectory;
    CountsStep(p.classes, receipt);
    AllRemovedStep(p.classes, receipt);
  }

  lemma NothingCounted(nodes: Nodes, env: Env)
    ensures CountedBy(nodes, env, Progress(nodes, [], false, Counted(0)), 0)
  {}

  lemma {:induction false} CountedSteps(nodes: Nodes, env: Env, k: nat)
    requires k < |ORDER| && WellFormed(nodes)
    ensures CountedBy(nodes, env, Upto(nodes, env, k), k)
  {
    hide *;
    if k == 0 {
      StartsEmpty(nodes, env);
      NothingCounted(nodes, env);
    } else {
      CountedSteps(nodes, env, k - 1);
      var p, c := Upto(nodes, env, k - 1), ORDER[k - 1];
      RunTakesClaimed(nodes, env, k - 1);
      TookWellFormed(nodes, env, k - 1, p.nodes);
      AdvanceFacts(nodes, env, k - 1);
      OrderIs(k - 1);
      ProgramsLast(k - 1);
      OneCounted(p, env, c);
      CountedNext(nodes, env, p, Upto(nodes, env, k), RunClass(p, env, c).receipt, k - 1);
    }
  }

  lemma CountedSoFar(nodes: Nodes, env: Env, k: nat)
    requires k < |ORDER| && WellFormed(nodes)
    ensures |Upto(nodes, env, k).classes| == k
    ensures AllRemoved(Upto(nodes, env, k).classes) ==>
      |nodes| == |Upto(nodes, env, k).nodes| + Counts(Upto(nodes, env, k).classes)
    ensures HasProgramDirectory(Upto(nodes, env, k).nodes, env) <==> HasProgramDirectory(nodes, env)
  {
    CountedSteps(nodes, env, k);
    hide WellFormed, Upto, ORDER, AllRemoved, Counts, HasProgramDirectory;
  }

  lemma ProgramsLast(k: nat)
    requires k < |ORDER|
    ensures ORDER[k] == LegacyPrograms <==> k == |ORDER| - 1
  {}

  lemma AllRemovedStep(classes: seq<ClassReceipt>, last: ClassReceipt)
    ensures AllRemoved(classes + [last]) <==> AllRemoved(classes) && last.outcome == Removed
  {
    if AllRemoved(classes + [last]) {
      forall k | 0 <= k < |classes| ensures classes[k].outcome == Removed { assert (classes + [last])[k] == classes[k]; }
      assert (classes + [last])[|classes|] == last;
    }
  }

  /** After all the classes only the program directory itself may have gone uncounted. */
  lemma CountedAll(nodes: Nodes, env: Env)
    requires WellFormed(nodes) && AllRemoved(Upto(nodes, env, |ORDER|).classes)
    ensures var p := Upto(nodes, env, |ORDER|);
      |nodes| == |p.nodes| + Counts(p.classes)
        + if HasProgramDirectory(nodes, env) && !HasProgramDirectory(p.nodes, env) then 1 else 0
  {
    hide WellFormed, RunClass, Upto, ORDER, TookClaimed, Claims, AllRemoved;
    OrderTen();
    var k := |ORDER| - 1;
    var p := Upto(nodes, env, k);
    CountedSoFar(nodes, env, k);
    RunTakesClaimed(nodes, env, k);
    TookWellFormed(nodes, env, k, p.nodes);
    AdvanceFacts(nodes, env, k);
    OrderIs(k);
    ProgramsLast(k);
    ClassIsHonest(p, env, ORDER[k]);
    CountsStep(p.classes, RunClass(p, env, ORDER[k]).receipt);
    AllRemovedStep(p.classes, RunClass(p, env, ORDER[k]).receipt);
    LegacyTakesDirectory(p, env);
  }

  lemma OrderTen()
    ensures |ORDER| == 10
  {}

  lemma LegacyTakesDirectory(p: Progress, env: Env)
    ensures var after := RunClass(p, env, LegacyPrograms).nodes; var bin := env.root + ["bin"];
      WellFormed(p.nodes) && bin in p.nodes && bin !in after ==> p.nodes[bin] == Dir
  {
    hide WellFormed, PurgePaths, Under, Without;
    var bin := env.root + ["bin"];
    if WellFormed(p.nodes) {
      PathsPurged(p.nodes, env.weather, LegacyPrograms, Under(bin, PROGRAMS));
      NotUnder(bin, PROGRAMS);
    }
  }

  lemma {:induction false} NoneRetained(nodes: Nodes, env: Env, k: nat)
    requires k <= |ORDER| && WellFormed(nodes)
    ensures |Upto(nodes, env, k).classes| == k
    ensures forall j :: 0 <= j < k ==> Upto(nodes, env, k).classes[j].outcome != Retained
  {
    hide WellFormed, RunClass, Upto, ORDER, TookClaimed, Claims;
    if k == 0 {
      StartsEmpty(nodes, env);
    } else {
      NoneRetained(nodes, env, k - 1);
      RunTakesClaimed(nodes, env, k - 1);
      TookWellFormed(nodes, env, k - 1, Upto(nodes, env, k - 1).nodes);
      AdvanceFacts(nodes, env, k - 1);
      OrderIs(k - 1);
      ClassIsHonest(Upto(nodes, env, k - 1), env, ORDER[k - 1]);
    }
  }

  /** What a completed run's receipt looks like. */
  lemma CompletedShape(nodes: Nodes, env: Env)
    requires WellFormed(nodes) && PurgeDataRoot(nodes, env).receipt.completed
    ensures var p := Upto(nodes, env, |ORDER|);
      var gone := RemoveDir(p.nodes, env.weather, DataRoot, env.root);
      && AllRemoved(p.classes) && gone.error.None? && PurgeDataRoot(nodes, env).nodes == gone.nodes
      && PurgeDataRoot(nodes, env).receipt.classes
         == p.classes + [ClassReceipt(ExternalExports, Retained, 0, None), ClassReceipt(UnknownEntries, Removed, 0, None)]
            + [ClassReceipt(DataRoot, Removed, gone.count, None)]
  {
    hide WellFormed, Upto, CountUnknown, RemoveDir, LookAt;
    NoneRetained(nodes, env, |ORDER|);
    var p := Upto(nodes, env, |ORDER|);
    var unknown := UnknownReceipt(CountUnknown(p.nodes, env.weather, UnknownEntries, env.root, KNOWN), p.binUnknown);
    var classes := p.classes + [ClassReceipt(ExternalExports, Retained, 0, None), unknown];
    assert !AnyUnfinished(classes);
    forall k | 0 <= k < |p.classes| ensures p.classes[k].outcome == Removed { assert !Unfinished(classes[k]) && classes[k] == p.classes[k]; }
    assert !Unfinished(classes[|p.classes| + 1]);
  }

  /** A completed purge's receipt accounts for every entry that went: the class
      counts add up to the whole loss, but for the program directory itself,
      which no class counts. */
  lemma CompletedCountsEverything(nodes: Nodes, env: Env)
    requires WellFormed(nodes) && PurgeDataRoot(nodes, env).receipt.completed
    ensures |nodes| == |PurgeDataRoot(nodes, env).nodes| + Counts(PurgeDataRoot(nodes, env).receipt.classes)
      + if HasProgramDirectory(nodes, env) then 1 else 0
  {
    hide WellFormed, Upto, RemoveDir, PurgeDataRoot, AllRemoved, TookClaimed, Counts;
    CompletedShape(nodes, env);
    CountedAll(nodes, env);
    var p := Upto(nodes, env, |ORDER|);
    RunTakesClaimed(nodes, env, |ORDER|);
    TookWellFormed(nodes, env, |ORDER|, p.nodes);
    DirRemoved(p.nodes, env.weather, DataRoot, env.root);
    var external, unknown := ClassReceipt(ExternalExports, Retained, 0, None), ClassReceipt(UnknownEntries, Removed, 0, None);
    CountsStep(p.classes, external);
    CountsStep(p.classes + [external], unknown);
    assert p.classes + [external] + [unknown] == p.classes + [external, unknown];
    CountsStep(p.classes + [external, unknown], ClassReceipt(DataRoot, Removed, RemoveDir(p.nodes, env.weather, DataRoot, env.root).count, None));
    CompletedMeansGone(nodes, env);
    assert env.root <= env.root + ["bin"];
  }
}
