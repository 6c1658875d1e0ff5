/** What a purge may touch, what its receipt promises, and when it completes. */
module PurgeProofs {

  import opened Purge
  import opened Wrappers

  // ------------------------------------------------------------- shrinking

  /** `after` is what is left of `before`. */
  predicate Within(after: Nodes, before: Nodes) { forall p | p in after :: p in before && after[p] == before[p] }

  lemma WithinTrans(a: Nodes, b: Nodes, c: Nodes)
    requires Within(a, b) && Within(b, c)
    ensures Within(a, c)
  {}

  lemma RemoveSet(nodes: Nodes, gone: set<Path>)
    requires gone <= nodes.Keys
    ensures Within(Without(nodes, gone), nodes) && |Without(nodes, gone)| == |nodes| - |gone|
    ensures forall p :: p in Without(nodes, gone) <==> p in nodes && p !in gone
  {
    assert Without(nodes, gone).Keys == nodes.Keys - gone;
    assert nodes.Keys == (nodes.Keys - gone) + gone;
  }

  lemma RemoveOne(nodes: Nodes, p: Path)
    requires p in nodes
    ensures Within(Without(nodes, {p}), nodes) && |Without(nodes, {p})| == |nodes| - 1
    ensures forall q :: q in Without(nodes, {p}) <==> q in nodes && q != p
  {
    RemoveSet(nodes, {p});
  }

  /** Removing a set that holds everything below its members leaves a well-formed disk. */
  lemma DownClosedGone(nodes: Nodes, gone: set<Path>)
    requires WellFormed(nodes) && gone <= nodes.Keys
    requires forall p, q | p in gone && q in nodes && p <= q :: q in gone
    ensures WellFormed(Without(nodes, gone))
  {
    hide Without;
    RemoveSet(nodes, gone);
    var left := Without(nodes, gone);
    forall q | q in left && q != [] ensures Parent(q) in left && left[Parent(q)] == Dir {
      assert Parent(q) <= q;
    }
  }

  /** Removing a childless entry leaves a well-formed disk. */
  lemma LeafGone(nodes: Nodes, p: Path)
    requires WellFormed(nodes) && p in nodes && (nodes[p] != Dir || Children(nodes, p) == {})
    ensures WellFormed(Without(nodes, {p}))
  {
    hide Without;
    RemoveOne(nodes, p);
    var left := Without(nodes, {p});
    forall q | q in left && q != [] ensures Parent(q) in left && left[Parent(q)] == Dir {
      assert q in Children(nodes, Parent(q));
    }
  }

  // ------------------------------------------------------------- the classes

  ghost predicate FilesPurged(before: Nodes, t: Tally, paths: seq<Path>) {
    && Within(t.nodes, before) && WellFormed(t.nodes)
    && (forall p | p in before && p !in t.nodes :: p in paths && before[p] == File)
    && (t.error.None? ==> |before| == |t.nodes| + t.count && forall p | p in paths :: p !in t.nodes)
  }

  /** A file loop removes only plain files from its list; when it reports no
      trouble nothing on the list is left and the count is what went. */
  lemma {:induction false} PathsPurged(nodes: Nodes, w: Weather, c: Class, paths: seq<Path>)
    requires WellFormed(nodes)
    ensures FilesPurged(nodes, PurgePaths(nodes, w, c, paths), paths)
  {
    hide FilesPurged, WellFormed, PurgeOne;
    if paths == [] {
      NothingPurged(nodes);
    } else {
      var n := |paths| - 1;
      PathsPurged(nodes, w, c, paths[..n]);
      PathPurged(nodes, PurgePaths(nodes, w, c, paths[..n]), w, c, paths[..n], paths[n]);
      assert paths == paths[..n] + [paths[n]];
    }
  }

  lemma NothingPurged(nodes: Nodes)
    requires WellFormed(nodes)
    ensures FilesPurged(nodes, Tally(nodes, 0, None), [])
  {}

  lemma PathPurged(before: Nodes, t: Tally, w: Weather, c: Class, paths: seq<Path>, p: Path)
    requires FilesPurged(before, t, paths)
    ensures FilesPurged(before, PurgeOne(t, w, c, p), paths + [p])
  {
    PurgeOneIs(t, w, c, p);
    hide PurgeOne, FilesPurged;
    if PurgeOne(t, w, c, p).nodes == t.nodes && !(p in t.nodes && PurgeOne(t, w, c, p).error.None?) {
      PathKept(before, t, PurgeOne(t, w, c, p), paths, p);
    } else {
      PathGone(before, t, paths, p);
    }
  }

  /** One turn of the file loop leaves the disk alone, or removes a plain file. */
  lemma PurgeOneIs(t: Tally, w: Weather, c: Class, p: Path)
    ensures var r := PurgeOne(t, w, c, p);
      || (r.nodes == t.nodes && (r.error.Some? || (p !in t.nodes && r == t)))
      || (p in t.nodes && t.nodes[p] == File && r == Tally(Without(t.nodes, {p}), t.count + 1, t.error))
  {
    hide Without;
  }

  lemma PathKept(before: Nodes, t: Tally, r: Tally, paths: seq<Path>, p: Path)
    requires FilesPurged(before, t, paths) && r.nodes == t.nodes && (r.error.Some? || (p !in t.nodes && r == t))
    ensures FilesPurged(before, r, paths + [p])
  {
    hide WellFormed, Within;
  }

  lemma PathGone(before: Nodes, t: Tally, paths: seq<Path>, p: Path)
    requires FilesPurged(before, t, paths) && p in t.nodes && t.nodes[p] == File
    ensures FilesPurged(before, Tally(Without(t.nodes, {p}), t.count + 1, t.error), paths + [p])
  {
    hide WellFormed, Children, Without, Within;
    RemoveOne(t.nodes, p);
    LeafGone(t.nodes, p);
    WithinTrans(Without(t.nodes, {p}), t.nodes, before);
    SameKind(t.nodes, before, p);
  }

  lemma SameKind(after: Nodes, before: Nodes, p: Path)
    requires Within(after, before) && p in after
    ensures p in before && before[p] == after[p]
  {}

  lemma TreeGone(nodes: Nodes, dir: Path, kept: set<Path>)
    requires WellFormed(nodes)
    ensures WellFormed(Without(nodes, SubTree(nodes, dir))) && WellFormed(Without(nodes, Torn(nodes, dir, kept)))
    ensures Torn(nodes, dir, kept) <= SubTree(nodes, dir) <= nodes.Keys
    ensures (forall p | p in SubTree(nodes, dir) :: dir <= p) && (dir in nodes ==> dir in SubTree(nodes, dir))
  {
    hide WellFormed, Without;
    forall p, q | p in SubTree(nodes, dir) && q in nodes && p <= q ensures q in SubTree(nodes, dir) { assert dir <= p <= q; }
    DownClosedGone(nodes, SubTree(nodes, dir));
    forall p, q | p in Torn(nodes, dir, kept) && q in nodes && p <= q ensures q in Torn(nodes, dir, kept) {
      assert dir <= p <= q;
      StillAbove(p, q, kept * SubTree(nodes, dir));
    }
    DownClosedGone(nodes, Torn(nodes, dir, kept));
  }

  lemma StillAbove(p: Path, q: Path, kept: set<Path>)
    requires p <= q
    ensures Purge.Above(q, kept) ==> Purge.Above(p, kept)
  {
    if Purge.Above(q, kept) {
      var k :| k in kept && q <= k;
      assert p <= q <= k;
    }
  }

  lemma Itself(nodes: Nodes)
    ensures Within(nodes, nodes)
  {}

  lemma DirectoryPurged(nodes: Nodes, w: Weather, c: Class, dir: Path)
    requires WellFormed(nodes)
    ensures var phase := PurgeDirectory(nodes, w, c, dir);
      && Within(phase.nodes, nodes) && WellFormed(phase.nodes)
      && (forall p | p in nodes && p !in phase.nodes :: dir <= p)
      && (phase.receipt.outcome == Removed ==> |nodes| == |phase.nodes| + phase.receipt.count && dir !in phase.nodes)
      && phase.receipt.class_ == c && phase.receipt.outcome != Retained
  {
    hide WellFormed, TreeClean, SubTree, Torn, Within, Without;
    Itself(nodes);
    TreeGone(nodes, dir, w.kept(c));
    RemoveSet(nodes, SubTree(nodes, dir));
    RemoveSet(nodes, Torn(nodes, dir, w.kept(c)));
  }

  lemma DirRemoved(nodes: Nodes, w: Weather, c: Class, dir: Path)
    requires WellFormed(nodes)
    ensures var t := RemoveDir(nodes, w, c, dir);
      && Within(t.nodes, nodes) && WellFormed(t.nodes)
      && (forall p | p in nodes && p !in t.nodes :: p == dir)
      && (t.error.None? ==> dir !in t.nodes && |nodes| == |t.nodes| + t.count)
  {
    hide WellFormed, Without;
    if dir in nodes && nodes[dir] == Dir && Children(nodes, dir) == {} {
      RemoveOne(nodes, dir);
      LeafGone(nodes, dir);
    }
  }

  lemma LegacyPurged(nodes: Nodes, w: Weather, root: Path)
    requires WellFormed(nodes)
    ensures var phase := PurgeLegacyProgramFiles(nodes, w, root).phase;
      && Within(phase.nodes, nodes) && WellFormed(phase.nodes)
      && (forall p | p in nodes && p !in phase.nodes :: p == root + ["bin"] || p in Under(root + ["bin"], PROGRAMS))
      && (phase.receipt.outcome == Removed ==>
            |nodes| == |phase.nodes| + phase.receipt.count + if root + ["bin"] in nodes && root + ["bin"] !in phase.nodes then 1 else 0)
      && phase.receipt.class_ == LegacyPrograms && phase.receipt.outcome != Retained
  {
    hide WellFormed, PurgePaths, RemoveDir, CountUnknown;
    var bin := root + ["bin"];
    PathsPurged(nodes, w, LegacyPrograms, Under(bin, PROGRAMS));
    var files := PurgeFiles(nodes, w, LegacyPrograms, bin, PROGRAMS);
    DirRemoved(files.nodes, w, LegacyPrograms, bin);
    RemoveDirCounts(files.nodes, w, LegacyPrograms, bin);
    NotUnder(bin, PROGRAMS);
  }

  lemma RemoveDirCounts(nodes: Nodes, w: Weather, c: Class, dir: Path)
    ensures RemoveDir(nodes, w, c, dir).error.None? ==> RemoveDir(nodes, w, c, dir).count == if dir in nodes then 1 else 0
  {}

  lemma NotUnder(dir: Path, names: seq<string>)
    ensures dir !in Under(dir, names)
  {}

  // ------------------------------------------------- what each class claims

  /** The entries a class may remove. */
  ghost predicate Claims(env: Env, c: Class, p: Path)
    requires c in ORDER
  {
    var root := env.root;
    match c
    case Database => p in Under(root, DATABASE)
    case ConfiguredDatabase => env.config.AbsolutePath? && p in Family(env.config.path)
    case Configuration => p in Under(root, ConfigNames(env.marker))
    case Sidecars => p in Under(root, SIDECARS)
    case UiState => p in Under(root, UI_STATE)
    case LegacyPrograms => p == root + ["bin"] || p in Under(root + ["bin"], PROGRAMS)
    case _ => root + [DirectoryOf(c)] <= p
  }

  predicate BinGone(env: Env, before: Nodes, after: Nodes) { env.root + ["bin"] in before && env.root + ["bin"] !in after }

  /** The program directory itself goes uncounted. */
  function BinExtra(c: Class, env: Env, before: Nodes, after: Nodes): nat {
    if c == LegacyPrograms && BinGone(env, before, after) then 1 else 0
  }

  /** One class removes only what it claims, and counts it when it reports success. */
  ghost predicate ClassHonest(env: Env, c: Class, before: Nodes, phase: Phase)
    requires c in ORDER
  {
    && Within(phase.nodes, before) && WellFormed(phase.nodes)
    && (forall p | p in before && p !in phase.nodes :: Claims(env, c, p))
    && (phase.receipt.outcome == Removed ==>
          |before| == |phase.nodes| + phase.receipt.count + BinExtra(c, env, before, phase.nodes))
    && phase.receipt.class_ == c && phase.receipt.outcome != Retained
  }

  lemma FilesHonest(env: Env, c: Class, nodes: Nodes, paths: seq<Path>)
    requires c in ORDER && c != LegacyPrograms && WellFormed(nodes) && forall p | p in paths :: Claims(env, c, p)
    ensures var t := PurgePaths(nodes, env.weather, c, paths); ClassHonest(env, c, nodes, Phase(t.nodes, TallyReceipt(c, t)))
  {
    hide WellFormed, PurgePaths, Claims, Within;
    PathsPurged(nodes, env.weather, c, paths);
  }

  lemma IdleHonest(env: Env, c: Class, nodes: Nodes, receipt: ClassReceipt)
    requires c in ORDER && WellFormed(nodes) && receipt.class_ == c && receipt.outcome != Retained
    requires receipt.outcome == Removed ==> receipt.count == 0
    ensures ClassHonest(env, c, nodes, Phase(nodes, receipt))
  {
    hide WellFormed, Claims, Within;
    Itself(nodes);
  }

  lemma ConfiguredHonest(env: Env, nodes: Nodes)
    requires WellFormed(nodes)
    ensures ClassHonest(env, ConfiguredDatabase, nodes, PurgeConfiguredDatabase(nodes, env.weather, env.root, env.config))
  {
    hide WellFormed, PurgePaths, Family, ClassHonest;
    if env.config.AbsolutePath? && env.config.path != env.root + ["gilbreth.db"] {
      FilesHonest(env, ConfiguredDatabase, nodes, Family(env.config.path));
    } else {
      IdleHonest(env, ConfiguredDatabase, nodes, PurgeConfiguredDatabase(nodes, env.weather, env.root, env.config).receipt);
    }
  }

  lemma DirectoryHonest(env: Env, c: Class, nodes: Nodes)
    requires c in ORDER && (c.Logs? || c.Archives? || c.OperationReceipts? || c.Rollback?) && WellFormed(nodes)
    ensures ClassHonest(env, c, nodes, PurgeDirectory(nodes, env.weather, c, env.root + [DirectoryOf(c)]))
  {
    hide WellFormed, PurgeDirectory, Within, DirectoryOf;
    DirectoryPurged(nodes, env.weather, c, env.root + [DirectoryOf(c)]);
  }

  lemma LegacyHonest(env: Env, nodes: Nodes)
    requires WellFormed(nodes)
    ensures ClassHonest(env, LegacyPrograms, nodes, PurgeLegacyProgramFiles(nodes, env.weather, env.root).phase)
  {
    hide WellFormed, PurgeLegacyProgramFiles, Within, Under;
    LegacyPurged(nodes, env.weather, env.root);
  }

  lemma ClassIsHonest(p: Progress, env: Env, c: Class)
    requires c in ORDER && WellFormed(p.nodes)
    ensures ClassHonest(env, c, p.nodes, RunClass(p, env, c))
  {
    hide WellFormed, PurgePaths, PurgeDirectory, PurgeLegacyProgramFiles, CountPresent, Under, ConfigNames, ClassHonest,
         PurgeConfiguredDatabase, DirectoryOf;
    var nodes, root := p.nodes, env.root;
    match c {
      case Database => FilesHonest(env, c, nodes, Under(root, DATABASE));
      case ConfiguredDatabase => ConfiguredHonest(env, nodes);
      case Configuration =>
        if p.unresolved { IdleHonest(env, c, nodes, RunClass(p, env, c).receipt); }
        else { FilesHonest(env, c, nodes, Under(root, ConfigNames(env.marker))); }
      case Sidecars => FilesHonest(env, c, nodes, Under(root, SIDECARS));
      case UiState => FilesHonest(env, c, nodes, Under(root, UI_STATE));
      case LegacyPrograms => LegacyHonest(env, nodes);
      case _ => DirectoryHonest(env, c, nodes);
    }
  }

  // ------------------------------------------------------------ the whole run

  /** Some class among the first `k` claims the entry. */
  ghost predicate ClaimedBy(env: Env, k: nat, p: Path)
    requires k <= |ORDER|
  {
    exists j :: 0 <= j < k && Claims(env, ORDER[j], p)
  }

  /** What the first `k` classes took. */
  ghost predicate TookClaimed(nodes: Nodes, env: Env, k: nat, after: Nodes)
    requires k <= |ORDER|
  {
    Within(after, nodes) && WellFormed(after) && forall q | q in nodes && q !in after :: ClaimedBy(env, k, q)
  }

  lemma TookMore(nodes: Nodes, env: Env, k: nat, p: Progress, phase: Phase)
    requires k < |ORDER| && TookClaimed(nodes, env, k, p.nodes) && ClassHonest(env, ORDER[k], p.nodes, phase)
    ensures TookClaimed(nodes, env, k + 1, phase.nodes)
  {
    hide WellFormed, Claims;
    var c := ORDER[k];
    forall q | q in nodes && q !in phase.nodes ensures ClaimedBy(env, k + 1, q) {
      if q in p.nodes {
        assert Claims(env, ORDER[k], q);
      } else {
        assert ClaimedBy(env, k, q);
        var j :| 0 <= j < k && Claims(env, ORDER[j], q);
        assert Claims(env, ORDER[j], q);
      }
    }
  }

  lemma {:induction false} RunTakesClaimed(nodes: Nodes, env: Env, k: nat)
    requires k <= |ORDER| && WellFormed(nodes)
    ensures TookClaimed(nodes, env, k, Upto(nodes, env, k).nodes)
  {
    hide WellFormed, TookClaimed, ClassHonest, RunClass, Upto, ORDER;
    if k == 0 {
      StartsEmpty(nodes, env);
      TookNothing(nodes, env);
    } else {
      AdvanceFacts(nodes, env, k - 1);
      OrderIs(k - 1);
      var p := Upto(nodes, env, k - 1);
      RunTakesClaimed(nodes, env, k - 1);
      TookWellFormed(nodes, env, k - 1, p.nodes);
      ClassIsHonest(p, env, ORDER[k - 1]);
      TookMore(nodes, env, k - 1, p, RunClass(p, env, ORDER[k - 1]));
    }
  }

  lemma TookNothing(nodes: Nodes, env: Env)
    requires WellFormed(nodes)
    ensures TookClaimed(nodes, env, 0, nodes)
  {}

  lemma TookWellFormed(nodes: Nodes, env: Env, k: nat, after: Nodes)
    requires k <= |ORDER| && TookClaimed(nodes, env, k, after)
    ensures WellFormed(after)
  {}

  // ---------------------------------------------------- from class to class

  lemma AdvanceFacts(nodes: Nodes, env: Env, k: nat)
    requires k < |ORDER|
    ensures var p, next := Upto(nodes, env, k), Upto(nodes, env, k + 1); var phase := RunClass(p, env, ORDER[k]);
      && next.nodes == phase.nodes && next.classes == p.classes + [phase.receipt]
      && next.unresolved == if ORDER[k] == ConfiguredDatabase then Unfinished(phase.receipt) else p.unresolved
  {
    hide RunClass;
  }

  lemma OrderIs(k: nat)
    requires k < |ORDER|
    ensures ORDER[1] == ConfiguredDatabase && ORDER[2] == Configuration && ORDER[k] in ORDER
    ensures ORDER[k] == ConfiguredDatabase <==> k == 1
    ensures ORDER[k] == Configuration <==> k == 2
  {}

  lemma StartsEmpty(nodes: Nodes, env: Env)
    ensures Upto(nodes, env, 0) == Progress(nodes, [], false, Counted(0))
  {}

  lemma AdvanceBin(nodes: Nodes, env: Env, k: nat)
    requires k < |ORDER|
    ensures var p := Upto(nodes, env, k);
      Upto(nodes, env, k + 1).binUnknown
      == if ORDER[k] == LegacyPrograms then PurgeLegacyProgramFiles(p.nodes, env.weather, env.root).unknown else p.binUnknown
  {
    hide RunClass, PurgeLegacyProgramFiles;
  }
}
