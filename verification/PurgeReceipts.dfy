/** What the receipt says when something is in the way: every line of a failing or
    deferring class, against what is on the disk and which accesses fail. */
module PurgeReceipts {

  import opened Purge
  import PurgeCompletes
  import opened PurgeGone
  import opened PurgeProofs
  import PurgeResults
  import opened Wrappers

  // ------------------------------------------------------- the directories

  predicate OwnsTree(c: Class) { c.Logs? || c.Archives? || c.OperationReceipts? || c.Rollback? }

  function TopOf(env: Env, c: Class): Path
    requires OwnsTree(c)
  {
    env.root + [if c.Logs? then "logs" else if c.Archives? then "archives" else if c.OperationReceipts? then "operation-receipts"
                else "rollback"]
  }

  /** Something keeps the class from even trying: its directory cannot be looked at, is
      none, or holds what cannot be read or a link. */
  ghost function Obstacle(nodes: Nodes, w: Weather, c: Class, dir: Path): Option<Category> {
    if w.fails(Attempt(c, Look, dir)).Some? then Some(w.fails(Attempt(c, Look, dir)).value)
    else if dir !in nodes then None
    else if nodes[dir] != Dir then Some(UnsafePath)
    else if !TreeClean(nodes, w, c, dir) then Some(UnreadableTree)
    else None
  }

  lemma DirectoryRuns(p: Progress, env: Env, c: Class)
    requires c in ORDER && OwnsTree(c)
    ensures RunClass(p, env, c) == PurgeDirectory(p.nodes, env.weather, c, TopOf(env, c))
  {
    hide PurgeDirectory;
  }

  /** A directory class with an obstacle touches nothing and needs a retry. */
  lemma ObstructedClassIsExact(p: Progress, env: Env, c: Class)
    requires c in ORDER && OwnsTree(c) && Obstacle(p.nodes, env.weather, c, TopOf(env, c)).Some?
    ensures RunClass(p, env, c) ==
      Phase(p.nodes, ClassReceipt(c, NeedsRetry, if env.weather.fails(Attempt(c, Look, TopOf(env, c))).Some? then 0 else 1,
                                  Obstacle(p.nodes, env.weather, c, TopOf(env, c))))
  {
    DirectoryRuns(p, env, c);
    hide RunClass, TreeClean, SubTree, TopOf;
  }

  /** Without an obstacle it takes its whole tree and counts it, or what the failing
      removal takes, deferred when the failure is a lock. */
  lemma DirectoryClassIsExact(p: Progress, env: Env, c: Class)
    requires c in ORDER && OwnsTree(c) && Obstacle(p.nodes, env.weather, c, TopOf(env, c)).None?
    ensures var phase := RunClass(p, env, c); var receipt, top := phase.receipt, TopOf(env, c);
      var fault := env.weather.fails(Attempt(c, RemoveTree, top));
      && (top !in p.nodes ==> phase == Phase(p.nodes, ClassReceipt(c, Removed, 0, None)))
      && (top in p.nodes ==>
            && (forall q | q in p.nodes && !(top <= q) :: q in phase.nodes)
            && receipt.count == |set q | q in p.nodes && top <= q|
            && (fault.None? ==> receipt.outcome == Removed && receipt.error == None && forall q | top <= q :: q !in phase.nodes)
            && (fault.Some? ==>
                  && receipt.outcome == (if fault.value == Locked then Deferred else NeedsRetry)
                  && receipt.error == Some(fault.value)
                  && forall q | q in p.nodes && top <= q ::
                       q in phase.nodes <==> exists k | k in env.weather.kept(c) :: k in p.nodes && q <= k))
  {
    var top := TopOf(env, c);
    DirectoryRuns(p, env, c);
    assert SubTree(p.nodes, top) == set q | q in p.nodes && top <= q;
    forall q | q in p.nodes && top <= q
      ensures q in Torn(p.nodes, top, env.weather.kept(c)) <==> !exists k | k in env.weather.kept(c) :: k in p.nodes && q <= k
    {
      KeptAbove(p.nodes, top, env.weather.kept(c), q);
    }
    assert forall q | q in Torn(p.nodes, top, env.weather.kept(c)) :: top <= q;
    hide RunClass, TreeClean, SubTree, Above, TopOf, Torn;
  }

  lemma KeptAbove(nodes: Nodes, top: Path, kept: set<Path>, q: Path)
    requires top <= q
    ensures Above(q, kept * SubTree(nodes, top)) <==> exists k | k in kept :: k in nodes && q <= k
  {
    if Above(q, kept * SubTree(nodes, top)) {
      var k :| k in kept * SubTree(nodes, top) && q <= k;
      assert k in kept && k in nodes;
    }
    if exists k | k in kept :: k in nodes && q <= k {
      var k :| k in kept && k in nodes && q <= k;
      PathTrans(top, q, k);
      assert k in kept * SubTree(nodes, top);
    }
  }

  lemma PathTrans(a: Path, b: Path, c: Path)
    requires a <= b && b <= c
    ensures a <= c
  {}

  // ------------------------------------------------ the program directory

  lemma ProgramsOutOfReach(nodes: Nodes, env: Env)
    ensures var legacy, bin := PurgeLegacyProgramFiles(nodes, env.weather, env.root), env.root + ["bin"];
      var blind := env.weather.fails(Attempt(LegacyPrograms, Look, bin));
      && (blind.Some? ==>
            legacy == Legacy(Phase(nodes, ClassReceipt(LegacyPrograms, NeedsRetry, 0, Some(blind.value))), Uncounted(blind.value)))
      && (blind.None? && bin !in nodes ==> legacy == Legacy(Phase(nodes, ClassReceipt(LegacyPrograms, Removed, 0, None)), Counted(0)))
      && (blind.None? && bin in nodes && nodes[bin] != Dir ==>
            legacy == Legacy(Phase(nodes, ClassReceipt(LegacyPrograms, NeedsRetry, 1, Some(UnsafePath))), Uncounted(UnsafePath)))
  {}

  /** The strangers in the program directory, if they can be counted. */
  function ProgramStrangers(nodes: Nodes, env: Env): Counted {
    var bin := env.root + ["bin"];
    var fault := env.weather.fails(Attempt(LegacyPrograms, List, bin));
    if fault.Some? then Uncounted(fault.value)
    else
      Counted(|set q | q in nodes && |q| == |bin| + 1 && bin <= q
                       && q[|bin|] !in ["gilbreth-app.exe", "gilbreth-elevated-record-helper.exe"]|)
  }

  lemma StrangersCounted(nodes: Nodes, env: Env)
    requires env.root + ["bin"] in nodes && nodes[env.root + ["bin"]] == Dir
    ensures CountUnknown(nodes, env.weather, LegacyPrograms, env.root + ["bin"], PROGRAMS) == ProgramStrangers(nodes, env)
  {
    var bin := env.root + ["bin"];
    assert Strangers(nodes, bin, PROGRAMS) ==
      set q | q in nodes && |q| == |bin| + 1 && bin <= q && q[|bin|] !in ["gilbreth-app.exe", "gilbreth-elevated-record-helper.exe"];
  }

  /** A program that something keeps. */
  ghost predicate ProgramKept(nodes: Nodes, env: Env) {
    exists q :: Owns(env, LegacyPrograms, q) && Trouble(nodes, env.weather, LegacyPrograms, q).Some?
  }

  function SpottedPrograms(nodes: Nodes, env: Env): set<Path> {
    set q | q in nodes && Owns(env, LegacyPrograms, q) && Visible(env.weather, LegacyPrograms, q)
  }

  /** What the file loop makes of the two programs. */
  ghost predicate ProgramsTallied(nodes: Nodes, env: Env, t: Tally) {
    var w := env.weather;
    && Within(t.nodes, nodes) && t.count == |SpottedPrograms(nodes, env)|
    && (forall q | q in nodes :: q in t.nodes <==> !(Owns(env, LegacyPrograms, q) && Trouble(nodes, w, LegacyPrograms, q).None?))
    && (t.error.None? <==> !ProgramKept(nodes, env))
    && (t.error.Some? ==> exists q :: Owns(env, LegacyPrograms, q) && Trouble(nodes, w, LegacyPrograms, q) == t.error)
  }

  lemma ProgramsApart(bin: Path)
    ensures PurgeGone.Distinct(Under(bin, PROGRAMS))
  {
    assert forall j, k :: 0 <= j < k < |PROGRAMS| ==> PROGRAMS[j] != PROGRAMS[k];
    hide Under;
    UnderDistinct(bin, PROGRAMS);
  }

  lemma ProgramsTally(nodes: Nodes, env: Env)
    ensures ProgramsTallied(nodes, env, PurgePaths(nodes, env.weather, LegacyPrograms, Under(env.root + ["bin"], PROGRAMS)))
  {
    var bin, w, c := env.root + ["bin"], env.weather, LegacyPrograms;
    var paths := Under(bin, PROGRAMS);
    ProgramsApart(bin);
    hide Under, Trouble, Visible, PurgePaths, Distinct, PROGRAMS, Named, FirstTrouble, Owns;
    PathsExactly(nodes, w, c, paths);
    TroubleIsReal(nodes, w, c, paths);
    forall q ensures q in paths <==> Owns(env, c, q) {
      OwnsIs(env, c, q);
      NamedIsUnder(bin, PROGRAMS, q);
    }
    assert PurgeGone.Found(nodes, w, c, paths) == SpottedPrograms(nodes, env);
  }

  lemma RemoveDirIs(nodes: Nodes, w: Weather, c: Class, dir: Path)
    requires dir in nodes && nodes[dir] == Dir && Children(nodes, dir) == {}
    ensures var gone, fault := RemoveDir(nodes, w, c, dir), w.fails(Attempt(c, RemoveDirectory, dir));
      && (fault.Some? ==> gone.nodes == nodes && gone.error == Some(fault.value))
      && (fault.None? ==> gone.error == None && forall q :: q in gone.nodes <==> q in nodes && q != dir)
  {
    RemoveOne(nodes, dir);
    hide Without;
  }

  /** What the class and its line come to for a directory within reach. */
  ghost predicate ProgramsExact(nodes: Nodes, env: Env, legacy: Legacy) {
    var w, bin, receipt, after := env.weather, env.root + ["bin"], legacy.phase.receipt, legacy.phase.nodes;
    var unknown, fault := ProgramStrangers(nodes, env), w.fails(Attempt(LegacyPrograms, RemoveDirectory, bin));
    var goes := !ProgramKept(nodes, env) && unknown == Counted(0);
    && legacy.unknown == unknown
    && (forall q | q in nodes && q != bin ::
          q in after <==> !(Owns(env, LegacyPrograms, q) && Trouble(nodes, w, LegacyPrograms, q).None?))
    && (bin in after <==> !goes || fault.Some?)
    && receipt.class_ == LegacyPrograms && receipt.count == |SpottedPrograms(nodes, env)|
    && (receipt.outcome == Removed <==> !ProgramKept(nodes, env) && !(goes && fault.Some?))
    && (receipt.outcome == Removed ==> receipt.error == None)
    && (goes && fault.Some? ==> receipt.outcome == NeedsRetry && receipt.error == Some(fault.value))
    && (ProgramKept(nodes, env) ==>
          && receipt.outcome == (if receipt.error == Some(Locked) then Deferred else NeedsRetry) && receipt.error.Some?
          && exists q :: Owns(env, LegacyPrograms, q) && Trouble(nodes, w, LegacyPrograms, q) == receipt.error)
  }

  lemma StayingIsExact(nodes: Nodes, env: Env, t: Tally)
    requires env.root + ["bin"] in nodes && ProgramsTallied(nodes, env, t)
    requires ProgramKept(nodes, env) || ProgramStrangers(nodes, env) != Counted(0)
    ensures ProgramsExact(nodes, env, Legacy(Phase(t.nodes, TallyReceipt(LegacyPrograms, t)), ProgramStrangers(nodes, env)))
  {
    BinNotOwned(env);
    hide Owns, Trouble, SpottedPrograms, ProgramStrangers, ProgramKept, Within;
  }

  lemma LeavingIsExact(nodes: Nodes, env: Env, t: Tally, gone: Tally)
    requires env.root + ["bin"] in nodes && ProgramsTallied(nodes, env, t)
    requires !ProgramKept(nodes, env) && ProgramStrangers(nodes, env) == Counted(0)
    requires var fault := env.weather.fails(Attempt(LegacyPrograms, RemoveDirectory, env.root + ["bin"]));
      if fault.Some? then gone.nodes == t.nodes && gone.error == Some(fault.value)
      else gone.error == None && forall q :: q in gone.nodes <==> q in t.nodes && q != env.root + ["bin"]
    ensures var receipt := TallyReceipt(LegacyPrograms, t);
      ProgramsExact(nodes, env,
        Legacy(Phase(gone.nodes, if gone.error.None? then receipt else receipt.(outcome := NeedsRetry, error := gone.error)), Counted(0)))
  {
    BinNotOwned(env);
    hide Owns, Trouble, SpottedPrograms, ProgramStrangers, ProgramKept, Within;
  }

  lemma ProgramsWithinReach(nodes: Nodes, env: Env)
    requires WellFormed(nodes) && env.root + ["bin"] in nodes && nodes[env.root + ["bin"]] == Dir
    requires env.weather.fails(Attempt(LegacyPrograms, Look, env.root + ["bin"])).None?
    ensures ProgramsExact(nodes, env, PurgeLegacyProgramFiles(nodes, env.weather, env.root))
  {
    hide *;
    var w, c, bin := env.weather, LegacyPrograms, env.root + ["bin"];
    var t := PurgePaths(nodes, w, c, Under(bin, PROGRAMS));
    StrangersCounted(nodes, env);
    ProgramsTally(nodes, env);
    TalliedMeans(nodes, env, t);
    LegacyUnfolds(nodes, env);
    if ProgramStrangers(nodes, env) != Counted(0) || ProgramKept(nodes, env) {
      StayingIsExact(nodes, env, t);
    } else {
      EmptyDirectory(nodes, t, env);
      RemoveDirIs(t.nodes, w, c, bin);
      LeavingIsExact(nodes, env, t, RemoveDir(t.nodes, w, c, bin));
    }
  }

  /** In a directory within reach exactly the programs go that nothing keeps, and every
      one in sight is counted. The directory goes too when none is kept, there are no
      strangers and it can be removed; strangers keep it without failing the class, and a
      failing removal fails it. With the directory out of reach nothing is touched, and
      the line and the count of unknown entries say why. */
  lemma ProgramsAreExact(nodes: Nodes, env: Env)
    requires WellFormed(nodes)
    ensures var legacy, bin := PurgeLegacyProgramFiles(nodes, env.weather, env.root), env.root + ["bin"];
      var blind := env.weather.fails(Attempt(LegacyPrograms, Look, bin));
      && (blind.Some? ==>
            legacy == Legacy(Phase(nodes, ClassReceipt(LegacyPrograms, NeedsRetry, 0, Some(blind.value))), Uncounted(blind.value)))
      && (blind.None? && bin !in nodes ==> legacy == Legacy(Phase(nodes, ClassReceipt(LegacyPrograms, Removed, 0, None)), Counted(0)))
      && (blind.None? && bin in nodes && nodes[bin] != Dir ==>
            legacy == Legacy(Phase(nodes, ClassReceipt(LegacyPrograms, NeedsRetry, 1, Some(UnsafePath))), Uncounted(UnsafePath)))
      && (blind.None? && bin in nodes && nodes[bin] == Dir ==> ProgramsExact(nodes, env, legacy))
  {
    hide WellFormed, PurgeLegacyProgramFiles, ProgramsExact;
    var bin := env.root + ["bin"];
    ProgramsOutOfReach(nodes, env);
    if env.weather.fails(Attempt(LegacyPrograms, Look, bin)).None? && bin in nodes && nodes[bin] == Dir {
      ProgramsWithinReach(nodes, env);
    }
  }

  lemma LegacyUnfolds(nodes: Nodes, env: Env)
    requires env.root + ["bin"] in nodes && nodes[env.root + ["bin"]] == Dir
    requires env.weather.fails(Attempt(LegacyPrograms, Look, env.root + ["bin"])).None?
    ensures var w, c, bin := env.weather, LegacyPrograms, env.root + ["bin"];
      var t, unknown := PurgePaths(nodes, w, c, Under(bin, PROGRAMS)), CountUnknown(nodes, w, c, bin, PROGRAMS);
      var gone, receipt := RemoveDir(t.nodes, w, c, bin), TallyReceipt(c, t);
      PurgeLegacyProgramFiles(nodes, w, env.root) ==
        if unknown != Counted(0) || t.error.Some? then Legacy(Phase(t.nodes, receipt), unknown)
        else Legacy(Phase(gone.nodes, if gone.error.None? then receipt else receipt.(outcome := NeedsRetry, error := gone.error)), unknown)
  {
    hide CountUnknown, PurgePaths, RemoveDir, Under, PROGRAMS;
  }

  lemma TalliedMeans(nodes: Nodes, env: Env, t: Tally)
    requires ProgramsTallied(nodes, env, t)
    ensures t.error.None? <==> !ProgramKept(nodes, env)
  {
    hide Owns, Trouble, SpottedPrograms, ProgramKept, Within;
  }

  lemma EmptyDirectory(nodes: Nodes, t: Tally, env: Env)
    requires ProgramsTallied(nodes, env, t) && !ProgramKept(nodes, env) && ProgramStrangers(nodes, env) == Counted(0)
    requires env.root + ["bin"] in nodes && nodes[env.root + ["bin"]] == Dir
    ensures env.root + ["bin"] in t.nodes && t.nodes[env.root + ["bin"]] == Dir && Children(t.nodes, env.root + ["bin"]) == {}
  {
    hide Trouble, Owns, SpottedPrograms, ProgramStrangers, ProgramKept;
    BinNotOwned(env);
    NoneLeft(nodes, t.nodes, env);
  }

  lemma BinNotOwned(env: Env)
    ensures !Owns(env, LegacyPrograms, env.root + ["bin"])
  {}

  lemma NoneLeft(nodes: Nodes, after: Nodes, env: Env)
    requires Within(after, nodes) && env.root + ["bin"] in nodes && nodes[env.root + ["bin"]] == Dir
    requires ProgramStrangers(nodes, env) == Counted(0) && !ProgramKept(nodes, env)
    requires forall q | q in nodes ::
               q in after <==> !(Owns(env, LegacyPrograms, q) && Trouble(nodes, env.weather, LegacyPrograms, q).None?)
    ensures Children(after, env.root + ["bin"]) == {}
  {
    var bin := env.root + ["bin"];
    StrangersCounted(nodes, env);
    hide Trouble, Owns, Under, PROGRAMS, Named;
    assert |Strangers(nodes, bin, PROGRAMS)| == 0;
    PurgeCompletes.FewerStrangers(after, nodes, bin, PROGRAMS);
    forall p | p in Under(bin, PROGRAMS) ensures p !in after {
      OwnsIs(env, LegacyPrograms, p);
      NamedIsUnder(bin, PROGRAMS, p);
      assert Owns(env, LegacyPrograms, p) && !ProgramKept(nodes, env);
    }
    PurgeCompletes.NoChildren(after, bin, PROGRAMS);
  }

  // ----------------------------------------------------- deferred classes

  lemma UnresolvedIsDeferred(nodes: Nodes, w: Weather, root: Path, config: ConfigRead)
    ensures var phase, c := PurgeConfiguredDatabase(nodes, w, root, config), ConfiguredDatabase;
      && (config.Missing? || config == AbsolutePath(root + ["gilbreth.db"]) ==> phase == Phase(nodes, ClassReceipt(c, Removed, 0, None)))
      && (config.Unreadable? || config.Malformed? ==> phase == Phase(nodes, ClassReceipt(c, Deferred, 0, Some(UnresolvedConfig))))
      && (config.RelativePath? ==> phase == Phase(nodes, ClassReceipt(c, Deferred, 0, Some(UnresolvedExternalPath))))
  {}

  /** How much of the list can be looked at before the first entry that cannot. */
  function Sighted(w: Weather, c: Class, paths: seq<Path>): (k: nat)
    ensures k <= |paths| && (forall j :: 0 <= j < k ==> Visible(w, c, paths[j])) && (k < |paths| ==> !Visible(w, c, paths[k]))
  {
    if paths == [] then 0 else
      var k := Sighted(w, c, paths[..|paths| - 1]);
      if k == |paths| - 1 && Visible(w, c, paths[|paths| - 1]) then |paths| else k
  }

  lemma {:induction false} PresentCounted(nodes: Nodes, w: Weather, c: Class, paths: seq<Path>)
    requires PurgeGone.Distinct(paths)
    ensures var t, k := CountPresent(nodes, w, c, paths), Sighted(w, c, paths);
      && t.nodes == nodes && t.count == |PurgeGone.Found(nodes, w, c, paths[..k])|
      && t.error == if k == |paths| then None else Some(Io)
  {
    hide PurgeGone.Found, PurgeGone.Distinct, Visible, CountPresent, Sighted;
    if paths == [] {
      NothingFound(nodes, w, c);
    } else {
      var n := |paths| - 1;
      LastDistinct(paths);
      PresentCounted(nodes, w, c, paths[..n]);
      PresentNext(nodes, w, c, paths);
      var k := Sighted(w, c, paths[..n]);
      assert paths[..n][..k] == paths[..k];
      if k == n {
        assert paths[..n + 1] == paths && paths[..n] + [paths[n]] == paths;
        FoundStep(nodes, w, c, paths[..n], paths[n]);
      }
    }
  }

  lemma PresentNext(nodes: Nodes, w: Weather, c: Class, paths: seq<Path>)
    requires paths != []
    ensures var n := |paths| - 1; var t, sighted := CountPresent(nodes, w, c, paths[..n]), Sighted(w, c, paths[..n]);
      && CountPresent(nodes, w, c, paths) == (if t.error.Some? then t
                                              else if !Visible(w, c, paths[n]) then t.(error := Some(Io))
                                              else if paths[n] in nodes then t.(count := t.count + 1) else t)
      && Sighted(w, c, paths) == if sighted == n && Visible(w, c, paths[n]) then |paths| else sighted
  {
    LookIs(nodes, w, c, paths[|paths| - 1]);
    hide LookAt, Visible;
  }

  lemma NothingFound(nodes: Nodes, w: Weather, c: Class)
    ensures PurgeGone.Found(nodes, w, c, []) == {} && CountPresent(nodes, w, c, []) == Tally(nodes, 0, None) && Sighted(w, c, []) == 0
  {}

  lemma LookIs(nodes: Nodes, w: Weather, c: Class, p: Path)
    ensures LookAt(nodes, w, c, p).Broken? <==> !Visible(w, c, p)
    ensures Visible(w, c, p) ==> (LookAt(nodes, w, c, p).Found? <==> p in nodes)
  {}

  lemma DeferredConfigurationIsExact(p: Progress, env: Env)
    requires p.unresolved && Configuration in ORDER
    ensures var phase, paths := RunClass(p, env, Configuration), Listed(env, Configuration);
      var k := Sighted(env.weather, Configuration, paths);
      && (forall q :: q in paths <==> Owns(env, Configuration, q))
      && phase.nodes == p.nodes && phase.receipt.class_ == Configuration
      && phase.receipt.count == |PurgeGone.Found(p.nodes, env.weather, Configuration, paths[..k])|
      && phase.receipt.outcome == (if k == |paths| then Deferred else NeedsRetry)
      && phase.receipt.error == Some(if k == |paths| then ClassIncomplete else Io)
  {
    hide CountPresent, Sighted, PurgeGone.Found, Owns, Under, PurgeGone.Distinct, ConfigNames;
    ListedIsOwned(p.(unresolved := false), env, Configuration);
    PresentCounted(p.nodes, env.weather, Configuration, Listed(env, Configuration));
  }

  // ---------------------------------------------------- the lines of a run

  lemma {:induction false} LineStays(nodes: Nodes, env: Env, j: nat, k: nat)
    requires j < k <= |ORDER|
    ensures |Upto(nodes, env, k).classes| == k
    ensures Upto(nodes, env, k).classes[j] == RunClass(Upto(nodes, env, j), env, ORDER[j]).receipt
    decreases k
  {
    hide RunClass, Upto, ORDER;
    AdvanceFacts(nodes, env, k - 1);
    if k > 1 { LineStays(nodes, env, if j < k - 1 then j else 0, k - 1); } else { StartsEmpty(nodes, env); }
  }

  /** Each of the first ten lines is its class's, run on the disk the earlier ones left. */
  lemma LineIsItsClass(nodes: Nodes, env: Env, k: nat)
    requires PurgeResults.BeforeRootRuns(nodes, env) && k < |ORDER|
    ensures var lines := PurgeDataRoot(nodes, env).receipt.classes;
      |lines| == 13 && lines[k] == RunClass(Upto(nodes, env, k), env, ORDER[k]).receipt
  {
    hide RunClass, Upto, ORDER, LookAt, AnyUnfinished, CountUnknown, UnknownReceipt, RemoveDir;
    PurgeCompletes.OrderTen();
    LineStays(nodes, env, k, |ORDER|);
  }

  /** A configured database that cannot be resolved is deferred, and then so is the
      configuration, which its class leaves as it is: its line counts what is there, up to
      the first file that cannot be looked at. A missing or default one is no work. */
  lemma UnresolvedDefersConfiguration(nodes: Nodes, env: Env)
    requires PurgeResults.BeforeRootRuns(nodes, env)
    ensures var lines, c := PurgeDataRoot(nodes, env).receipt.classes, ConfiguredDatabase;
      && |lines| == 13
      && (env.config.Unreadable? || env.config.Malformed? ==> lines[1] == ClassReceipt(c, Deferred, 0, Some(UnresolvedConfig)))
      && (env.config.RelativePath? ==> lines[1] == ClassReceipt(c, Deferred, 0, Some(UnresolvedExternalPath)))
      && (env.config.Missing? || env.config == AbsolutePath(env.root + ["gilbreth.db"]) ==> lines[1] == ClassReceipt(c, Removed, 0, None))
    ensures var lines, paths, after := PurgeDataRoot(nodes, env).receipt.classes, Listed(env, Configuration), Upto(nodes, env, 2).nodes;
      var k := Sighted(env.weather, Configuration, paths);
      && (forall q :: q in paths <==> Owns(env, Configuration, q))
      && (Unfinished(lines[1]) ==>
            && Upto(nodes, env, 3).nodes == after
            && lines[2] == ClassReceipt(Configuration, if k == |paths| then Deferred else NeedsRetry,
                                        |PurgeGone.Found(after, env.weather, Configuration, paths[..k])|,
                                        Some(if k == |paths| then ClassIncomplete else Io)))
  {
    hide RunClass, Upto, ORDER, PurgeDataRoot, PurgeResults.BeforeRootRuns, Unfinished, Sighted, Owns, Listed, PurgeGone.Found, PurgeConfiguredDatabase,
         PurgeResults.ConfiguredPhase;
    PurgeCompletes.OrderTen();
    OrderIs(1);
    OrderIs(2);
    LineIsItsClass(nodes, env, 1);
    LineIsItsClass(nodes, env, 2);
    ConfiguredRuns(Upto(nodes, env, 1), env);
    UnresolvedIsDeferred(Upto(nodes, env, 1).nodes, env.weather, env.root, env.config);
    ConfigurationListed(env);
    UnresolvedAt(nodes, env);
    AdvanceFacts(nodes, env, 2);
    if Unfinished(PurgeDataRoot(nodes, env).receipt.classes[1]) { DeferredConfigurationIsExact(Upto(nodes, env, 2), env); }
  }

  lemma ConfiguredRuns(p: Progress, env: Env)
    requires ConfiguredDatabase in ORDER
    ensures RunClass(p, env, ConfiguredDatabase) == PurgeConfiguredDatabase(p.nodes, env.weather, env.root, env.config)
  {
    hide PurgeConfiguredDatabase;
  }

  lemma ConfigurationListed(env: Env)
    ensures forall q :: q in Listed(env, Configuration) <==> Owns(env, Configuration, q)
  {
    hide Listed, Owns, RunClass;
    ListedIsOwned(Progress(map[], [], false, Counted(0)), env, Configuration);
  }

  lemma UnresolvedAt(nodes: Nodes, env: Env)
    requires 2 <= |ORDER| && ORDER[1] == ConfiguredDatabase
    ensures Upto(nodes, env, 2).unresolved == Unfinished(RunClass(Upto(nodes, env, 1), env, ConfiguredDatabase).receipt)
  {
    hide RunClass, Upto, ORDER, Unfinished;
    AdvanceFacts(nodes, env, 1);
  }

  // ------------------------------------------------------- the last lines

  lemma RefusedRootIsLeft(nodes: Nodes, env: Env)
    ensures var fault := env.weather.fails(Attempt(DataRoot, Look, env.root));
      && (fault.Some? ==>
            PurgeDataRoot(nodes, env) == Purged(nodes, Receipt(false, [ClassReceipt(DataRoot, NeedsRetry, 1, Some(fault.value))])))
      && (fault.None? && env.root in nodes && nodes[env.root] != Dir ==>
            PurgeDataRoot(nodes, env) == Purged(nodes, Receipt(false, [ClassReceipt(DataRoot, NeedsRetry, 1, Some(UnsafePath))])))
  {
    hide PurgeClasses;
  }

  lemma UnknownLineIsExact(root: Counted, bin: Counted)
    ensures var line := UnknownReceipt(root, bin);
      && (line.outcome == Removed <==> root == Counted(0) && bin == Counted(0))
      && (line.outcome == Deferred <==> root.Counted? && bin.Counted? && root.count + bin.count > 0)
      && (line.outcome == Removed ==> line == ClassReceipt(UnknownEntries, Removed, 0, None))
      && (line.outcome == Deferred ==> line == ClassReceipt(UnknownEntries, Deferred, root.count + bin.count, Some(HasUnknownEntries)))
      && (root.Uncounted? ==> line == ClassReceipt(UnknownEntries, NeedsRetry, 0, Some(root.error)))
      && (root.Counted? && bin.Uncounted? ==> line == ClassReceipt(UnknownEntries, NeedsRetry, 0, Some(bin.error)))
  {}

  lemma RootLineIsExact(nodes: Nodes, env: Env, classes: seq<ClassReceipt>)
    ensures var o := FinishRoot(nodes, env, classes); var lines := o.receipt.classes;
      var hidden, fault := env.weather.fails(Attempt(DataRoot, Exists, env.root)).Some?,
                           env.weather.fails(Attempt(DataRoot, RemoveDirectory, env.root));
      && |lines| == |classes| + 1 && lines[..|classes|] == classes
      && (AnyUnfinished(classes) ==>
            && o.nodes == nodes && !o.receipt.completed
            && lines[|classes|] == ClassReceipt(DataRoot, Deferred, if env.root in nodes && !hidden then 1 else 0, Some(ClassIncomplete)))
      && (!AnyUnfinished(classes) ==>
            && (fault.Some? ==> o.nodes == nodes && lines[|classes|] == ClassReceipt(DataRoot, NeedsRetry, 1, Some(fault.value)))
            && (fault.None? && env.root !in nodes ==> o.nodes == nodes && lines[|classes|] == ClassReceipt(DataRoot, Removed, 0, None))
            && (fault.None? && env.root in nodes && (nodes[env.root] != Dir || Children(nodes, env.root) != {}) ==>
                  o.nodes == nodes && lines[|classes|] == ClassReceipt(DataRoot, NeedsRetry, 1, Some(Io)))
            && (fault.None? && env.root in nodes && nodes[env.root] == Dir && Children(nodes, env.root) == {} ==>
                  && lines[|classes|] == ClassReceipt(DataRoot, Removed, 1, None)
                  && forall q :: q in o.nodes <==> q in nodes && q != env.root))
  {
    if env.root in nodes && nodes[env.root] == Dir && Children(nodes, env.root) == {} {
      RemoveOne(nodes, env.root);
    }
    hide Without, Children, AnyUnfinished;
  }

  /** The entries of the root that no list claims, if they can be counted. */
  function RootStrangers(nodes: Nodes, env: Env): Counted {
    CountUnknown(nodes, env.weather, UnknownEntries, env.root, KNOWN)
  }

  /** The last two lines of a purge that runs, on the disk its ten classes left. Unknown
      entries: removed for none, deferred with their number, a retry when either directory
      cannot be read. The root: left alone while any line before is unfinished, otherwise
      removed unless it is not empty or its removal fails. A root that cannot be looked at
      or is no directory is all the receipt speaks of, and nothing is touched. */
  lemma LastLinesAreExact(nodes: Nodes, env: Env)
    ensures PurgeResults.BeforeRootRuns(nodes, env) ==>
      var p, receipt, final := Upto(nodes, env, |ORDER|), PurgeDataRoot(nodes, env).receipt, PurgeDataRoot(nodes, env).nodes;
      var root, bin := RootStrangers(p.nodes, env), p.binUnknown;
      var hidden, fault := env.weather.fails(Attempt(DataRoot, Exists, env.root)).Some?,
                           env.weather.fails(Attempt(DataRoot, RemoveDirectory, env.root));
      && |receipt.classes| == |ORDER| + 3
      && receipt.classes[|ORDER| + 1] == (
           if root.Uncounted? then ClassReceipt(UnknownEntries, NeedsRetry, 0, Some(root.error))
           else if bin.Uncounted? then ClassReceipt(UnknownEntries, NeedsRetry, 0, Some(bin.error))
           else if root.count == 0 && bin.count == 0 then ClassReceipt(UnknownEntries, Removed, 0, None)
           else ClassReceipt(UnknownEntries, Deferred, root.count + bin.count, Some(HasUnknownEntries)))
      && (if AnyUnfinished(receipt.classes[..|ORDER| + 2]) then
            && final == p.nodes
            && receipt.classes[|ORDER| + 2]
               == ClassReceipt(DataRoot, Deferred, if env.root in p.nodes && !hidden then 1 else 0, Some(ClassIncomplete))
          else if fault.Some? then final == p.nodes && receipt.classes[|ORDER| + 2] == ClassReceipt(DataRoot, NeedsRetry, 1, Some(fault.value))
          else if env.root !in p.nodes then final == p.nodes && receipt.classes[|ORDER| + 2] == ClassReceipt(DataRoot, Removed, 0, None)
          else if p.nodes[env.root] == Dir && Children(p.nodes, env.root) == {} then
            && receipt.classes[|ORDER| + 2] == ClassReceipt(DataRoot, Removed, 1, None)
            && forall q :: q in final <==> q in p.nodes && q != env.root
          else final == p.nodes && receipt.classes[|ORDER| + 2] == ClassReceipt(DataRoot, NeedsRetry, 1, Some(Io)))
    ensures !PurgeResults.BeforeRootRuns(nodes, env) ==>
      var fault := env.weather.fails(Attempt(DataRoot, Look, env.root));
      PurgeDataRoot(nodes, env) ==
        Purged(nodes, Receipt(false, [ClassReceipt(DataRoot, NeedsRetry, 1, Some(if fault.Some? then fault.value else UnsafePath))]))
  {
    RefusedRootIsLeft(nodes, env);
    hide Upto, ORDER, KNOWN, CountUnknown, UnknownReceipt, FinishRoot, AnyUnfinished, Children;
    var p := Upto(nodes, env, |ORDER|);
    var unknown := UnknownReceipt(RootStrangers(p.nodes, env), p.binUnknown);
    var classes := p.classes + [ClassReceipt(ExternalExports, Retained, 0, None), unknown];
    PurgeCompletes.OrderTen();
    LineStays(nodes, env, 0, |ORDER|);
    UnknownLineIsExact(RootStrangers(p.nodes, env), p.binUnknown);
    RootLineIsExact(p.nodes, env, classes);
  }
}
