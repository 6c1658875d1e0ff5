/** The purge's promises, over every disk and every pattern of failures. */
module PurgeResults {

  import opened Purge
  import opened PurgeProofs
  import PurgeRun
  import opened Wrappers

  // --------------------------------------------------------------- names

  /** Every claimed name begins with its class's letters. */
  predicate Starts(names: seq<string>, initials: string) {
    forall k :: 0 <= k < |names| ==> names[k] != "" && names[k][0] in initials
  }

  lemma DatabaseInitials() ensures Starts(DATABASE, "g") {}
  lemma ConfigurationInitials() ensures Starts(CONFIGURATION, "c") {}
  lemma SidecarInitials() ensures Starts(SIDECARS, "snh") {}
  lemma UiInitials() ensures Starts(UI_STATE, "d") {}
  lemma DirectoryInitials() ensures Starts(DIRECTORIES, "laorb") {}

  lemma DirectoryOfIs(c: Class)
    ensures DirectoryOf(c) in DIRECTORIES && DirectoryOf(c) != "" && DirectoryOf(c)[0] in "laor"
  {
    assert DIRECTORIES[0] == "logs" && DIRECTORIES[1] == "archives" && DIRECTORIES[2] == "operation-receipts";
    assert DIRECTORIES[3] == "rollback";
  }

  lemma KnownParts()
    ensures forall n | n in DATABASE || n in CONFIGURATION || n == MARKER || n in SIDECARS || n in UI_STATE || n in DIRECTORIES ::
      n in KNOWN
  {
    hide DATABASE, CONFIGURATION, MARKER, SIDECARS, UI_STATE, DIRECTORIES;
    assert KNOWN == DATABASE + CONFIGURATION + [MARKER] + SIDECARS + UI_STATE + DIRECTORIES;
  }

  lemma UnderName(root: Path, names: seq<string>, p: Path)
    ensures p in Under(root, names) ==> root <= p && |p| == |root| + 1 && p[|root|] in names
  {}

  predicate InFamily(env: Env, p: Path) { env.config.AbsolutePath? && p in Family(env.config.path) }

  lemma BinIsDirectory()
    ensures "bin" in DIRECTORIES
  {
    assert DIRECTORIES[4] == "bin";
  }

  // ------------------------------------------------------------- the status

  /** The status is incomplete exactly when some class is deferred or needs a retry. */
  lemma StatusIsHonest(nodes: Nodes, env: Env)
    ensures var receipt := PurgeDataRoot(nodes, env).receipt; receipt.completed <==> !AnyUnfinished(receipt.classes)
  {
    hide Upto, CountUnknown, UnknownReceipt, RemoveDir, LookAt;
    var looked := LookAt(nodes, env.weather, DataRoot, env.root);
    if looked.Absent? || (looked.Found? && looked.kind == Dir) {
      var p := Upto(nodes, env, |ORDER|);
      var unknown := UnknownReceipt(CountUnknown(p.nodes, env.weather, UnknownEntries, env.root, KNOWN), p.binUnknown);
      RootIsHonest(p.nodes, env, p.classes + [ClassReceipt(ExternalExports, Retained, 0, None), unknown]);
    } else {
      LastUnfinished([], PurgeDataRoot(nodes, env).receipt.classes[0]);
    }
  }

  lemma LastUnfinished(classes: seq<ClassReceipt>, last: ClassReceipt)
    ensures AnyUnfinished(classes + [last]) <==> AnyUnfinished(classes) || Unfinished(last)
  {
    if AnyUnfinished(classes) {
      var k :| 0 <= k < |classes| && Unfinished(classes[k]);
      assert (classes + [last])[k] == classes[k];
    }
    if Unfinished(last) { assert (classes + [last])[|classes|] == last; }
  }

  lemma RootIsHonest(nodes: Nodes, env: Env, classes: seq<ClassReceipt>)
    ensures var receipt := FinishRoot(nodes, env, classes).receipt; receipt.completed <==> !AnyUnfinished(receipt.classes)
  {
    hide RemoveDir, AnyUnfinished;
    LastUnfinished(classes, FinishRoot(nodes, env, classes).receipt.classes[|classes|]);
  }

  // --------------------------------------------------------- what may go

  /** The run before the root is finished, or the untouched disk when the root is refused. */
  ghost function BeforeRoot(nodes: Nodes, env: Env): Nodes {
    var looked := LookAt(nodes, env.weather, DataRoot, env.root);
    if looked.Absent? || (looked.Found? && looked.kind == Dir) then Upto(nodes, env, |ORDER|).nodes else nodes
  }

  lemma RootLast(nodes: Nodes, env: Env)
    requires WellFormed(nodes)
    ensures var final := PurgeDataRoot(nodes, env).nodes;
      && TookClaimed(nodes, env, |ORDER|, BeforeRoot(nodes, env))
      && Within(final, BeforeRoot(nodes, env)) && WellFormed(final)
      && (forall p | p in BeforeRoot(nodes, env) && p !in final :: p == env.root)
      && (PurgeDataRoot(nodes, env).receipt.completed ==> env.root !in final)
  {
    hide Upto, CountUnknown, UnknownReceipt, RemoveDir, LookAt, WellFormed, TookClaimed, AnyUnfinished;
    RunTakesClaimed(nodes, env, |ORDER|);
    TookNone(nodes, env);
    TookWellFormed(nodes, env, |ORDER|, Upto(nodes, env, |ORDER|).nodes);
    DirRemoved(Upto(nodes, env, |ORDER|).nodes, env.weather, DataRoot, env.root);
  }

  lemma TookNone(nodes: Nodes, env: Env)
    requires WellFormed(nodes)
    ensures TookClaimed(nodes, env, |ORDER|, nodes)
  {}

  /** Completed means gone: the root and everything in it. */
  lemma CompletedMeansGone(nodes: Nodes, env: Env)
    requires WellFormed(nodes) && PurgeDataRoot(nodes, env).receipt.completed
    ensures forall p | p in PurgeDataRoot(nodes, env).nodes :: !(env.root <= p)
  {
    hide PurgeDataRoot, WellFormed, BeforeRoot, TookClaimed;
    RootLast(nodes, env);
    var final := PurgeDataRoot(nodes, env).nodes;
    forall p | p in final ensures !(env.root <= p) {
      assert env.root <= p ==> p[..|env.root|] == env.root;
      if env.root <= p && p != env.root { PurgeRun.AncestorIn(final, p, |env.root|); }
    }
  }

  /** Whatever the failures, an entry that no class claims survives as it was, unless
      it is the root itself, which goes only when the purge completes. */
  lemma OthersSurvive(nodes: Nodes, env: Env, p: Path)
    requires WellFormed(nodes) && p in nodes && !ClaimedBy(env, |ORDER|, p)
    ensures p != env.root || !PurgeDataRoot(nodes, env).receipt.completed ==>
      p in PurgeDataRoot(nodes, env).nodes && PurgeDataRoot(nodes, env).nodes[p] == nodes[p]
  {
    hide PurgeDataRoot, WellFormed, BeforeRoot, ClaimedBy, Claims;
    RootLast(nodes, env);
    if p == env.root && !PurgeDataRoot(nodes, env).receipt.completed { RootStays(nodes, env); }
  }

  /** An unfinished purge leaves the root in place. */
  lemma RootStays(nodes: Nodes, env: Env)
    requires !PurgeDataRoot(nodes, env).receipt.completed
    ensures PurgeDataRoot(nodes, env).nodes == BeforeRoot(nodes, env)
  {
    hide Upto, CountUnknown, UnknownReceipt, AnyUnfinished, ORDER;
  }

  /** A place no class claims: outside the root, at a strange name in it or below one,
      the marker of a root that is not marked, below a plain file's name, or a strange
      entry in the program directory or anything below a program's name. */
  predicate Strange(env: Env, p: Path) {
    var n := |env.root|;
    || !(env.root <= p)
    || (p != env.root && p[n] !in KNOWN)
    || (p == env.root + [MARKER] && !env.marker)
    || (|p| > n + 1 && env.root <= p && p[n] !in DIRECTORIES)
    || (|p| > n + 1 && env.root <= p && p[n] == "bin" && (|p| > n + 2 || p[n + 1] !in PROGRAMS))
  }

  lemma FiveDirectories(name: string)
    requires name in DIRECTORIES
    ensures name == "logs" || name == "archives" || name == "operation-receipts" || name == "rollback" || name == "bin"
  {}

  lemma MarkerInitial(names: seq<string>, initials: string)
    requires Starts(names, initials) && '.' !in initials
    ensures MARKER !in names
  {}

  lemma MarkerAlone()
    ensures MARKER !in DATABASE && MARKER !in CONFIGURATION && MARKER !in SIDECARS && MARKER !in UI_STATE
    ensures MARKER !in DIRECTORIES && MARKER != "bin"
  {
    DatabaseInitials();
    ConfigurationInitials();
    SidecarInitials();
    UiInitials();
    DirectoryInitials();
    MarkerInitial(DATABASE, "g");
    MarkerInitial(CONFIGURATION, "c");
    MarkerInitial(SIDECARS, "snh");
    MarkerInitial(UI_STATE, "d");
    MarkerInitial(DIRECTORIES, "laorb");
    BinIsDirectory();
  }

  /** An entry of the root at a known name is not strange, unless it is the marker of
      a root that is not marked. */
  lemma KnownNotStrange(env: Env, names: seq<string>, p: Path)
    requires p in Under(env.root, names) && (forall n | n in names :: n in KNOWN) && (MARKER in names ==> env.marker)
    ensures env.root <= p && p != env.root && !Strange(env, p)
  {
    UnderName(env.root, names, p);
    hide Under, KNOWN, DIRECTORIES, PROGRAMS, MARKER;
  }

  lemma TreeNotStrange(env: Env, name: string, p: Path)
    requires env.root + [name] <= p && name in DIRECTORIES && name != "bin" && name != MARKER && name in KNOWN
    ensures env.root <= p && p != env.root && !Strange(env, p)
  {
    UnderDirectory(env.root, name, p);
    hide KNOWN, DIRECTORIES, PROGRAMS, MARKER;
  }

  lemma ProgramNotStrange(env: Env, p: Path)
    requires p == env.root + ["bin"] || p in Under(env.root + ["bin"], PROGRAMS)
    ensures env.root <= p && p != env.root && !Strange(env, p)
  {
    KnownParts();
    BinIsDirectory();
    MarkerAlone();
    UnderName(env.root + ["bin"], PROGRAMS, p);
    UnderDirectory(env.root, "bin", p);
    hide Under, KNOWN, DIRECTORIES, PROGRAMS, MARKER;
  }

  lemma UnderDirectory(root: Path, name: string, p: Path)
    ensures root + [name] <= p ==> root <= p && |p| > |root| && p[|root|] == name
  {
    if root + [name] <= p { assert (root + [name])[..|root|] == root && p[..|root|] == root; }
  }

  lemma NotBin(c: Class)
    ensures DirectoryOf(c) != "bin"
  {}

  lemma ConfigNamesKnown(marker: bool)
    ensures forall n | n in ConfigNames(marker) :: n in KNOWN
    ensures MARKER in ConfigNames(marker) ==> marker
  {
    KnownParts();
    MarkerAlone();
    hide KNOWN, CONFIGURATION, MARKER;
  }

  lemma ClaimedNotStrange(env: Env, c: Class, p: Path)
    requires c in ORDER && Claims(env, c, p) && !InFamily(env, p)
    ensures env.root <= p && p != env.root && !Strange(env, p)
  {
    hide Family, Under, KNOWN, DATABASE, CONFIGURATION, MARKER, SIDECARS, UI_STATE, DIRECTORIES, PROGRAMS, DirectoryOf, Strange;
    KnownParts();
    MarkerAlone();
    match c {
      case Database => KnownNotStrange(env, DATABASE, p);
      case ConfiguredDatabase =>
      case Configuration =>
        ConfigNamesKnown(env.marker);
        KnownNotStrange(env, ConfigNames(env.marker), p);
      case Sidecars => KnownNotStrange(env, SIDECARS, p);
      case UiState => KnownNotStrange(env, UI_STATE, p);
      case LegacyPrograms => ProgramNotStrange(env, p);
      case _ =>
        DirectoryOfIs(c);
        NotBin(c);
        TreeNotStrange(env, DirectoryOf(c), p);
    }
  }

  lemma NameUnder(root: Path, names: seq<string>, name: string)
    requires name in names
    ensures root + [name] in Under(root, names)
  {
    var k :| 0 <= k < |names| && names[k] == name;
    assert Under(root, names)[k] == root + [name];
  }

  lemma KnownCases(name: string)
    requires name in KNOWN
    ensures name in DATABASE || name in CONFIGURATION || name == MARKER || name in SIDECARS || name in UI_STATE || name in DIRECTORIES
  {
    hide DATABASE, CONFIGURATION, MARKER, SIDECARS, UI_STATE, DIRECTORIES;
    assert KNOWN == DATABASE + CONFIGURATION + [MARKER] + SIDECARS + UI_STATE + DIRECTORIES;
  }

  lemma Orders()
    ensures Database in ORDER && ConfiguredDatabase in ORDER && Configuration in ORDER && Sidecars in ORDER && UiState in ORDER
    ensures Logs in ORDER && Archives in ORDER && OperationReceipts in ORDER && Rollback in ORDER && LegacyPrograms in ORDER
  {
    assert ORDER[0] == Database && ORDER[1] == ConfiguredDatabase && ORDER[2] == Configuration && ORDER[3] == Sidecars;
    assert ORDER[4] == UiState && ORDER[5] == Logs && ORDER[6] == Archives && ORDER[7] == OperationReceipts;
    assert ORDER[8] == Rollback && ORDER[9] == LegacyPrograms;
  }

  lemma DirectoryClass(name: string) returns (c: Class)
    requires name in DIRECTORIES && name != "bin"
    ensures c in ORDER && DirectoryOf(c) == name && (c.Logs? || c.Archives? || c.OperationReceipts? || c.Rollback?)
  {
    FiveDirectories(name);
    Orders();
    c := if name == "logs" then Logs else if name == "archives" then Archives
         else if name == "operation-receipts" then OperationReceipts else Rollback;
  }

  /** The class that claims an entry at or below a known name. */
  lemma TopClaimed(env: Env, name: string) returns (c: Class)
    requires name in KNOWN && name !in DIRECTORIES && (name == MARKER ==> env.marker)
    ensures c in ORDER && Claims(env, c, env.root + [name])
  {
    KnownCases(name);
    hide *;
    Orders();
    var root := env.root;
    if name in DATABASE {
      NameUnder(root, DATABASE, name);
      c := Database;
    } else if name in SIDECARS {
      NameUnder(root, SIDECARS, name);
      c := Sidecars;
    } else if name in UI_STATE {
      NameUnder(root, UI_STATE, name);
      c := UiState;
    } else {
      ConfigNamesAre(env.marker, name);
      NameUnder(root, ConfigNames(env.marker), name);
      c := Configuration;
    }
    ListClaimed(env, c, root + [name]);
  }

  lemma ConfigNamesAre(marker: bool, name: string)
    ensures name in CONFIGURATION || (name == MARKER && marker) ==> name in ConfigNames(marker)
  {
    hide CONFIGURATION, MARKER;
  }

  lemma ListClaimed(env: Env, c: Class, p: Path)
    requires c in ORDER && (c.Database? || c.Sidecars? || c.UiState? || c.Configuration?)
    requires p in Under(env.root, if c.Database? then DATABASE else if c.Sidecars? then SIDECARS else if c.UiState? then UI_STATE
                                  else ConfigNames(env.marker))
    ensures Claims(env, c, p)
  {
    hide Under, DATABASE, SIDECARS, UI_STATE, ConfigNames, ORDER;
  }

  lemma PathParts(root: Path, p: Path)
    requires root <= p && |p| > |root|
    ensures root + [p[|root|]] <= p
    ensures |p| == |root| + 1 ==> p == root + [p[|root|]]
    ensures |p| == |root| + 2 ==> p == root + [p[|root|]] + [p[|root| + 1]]
  {
    assert p[..|root|] == root && p[..|root| + 1] == root + [p[|root|]];
  }

  lemma TreeClaimed(env: Env, c: Class, p: Path)
    requires c in ORDER && (c.Logs? || c.Archives? || c.OperationReceipts? || c.Rollback?) && env.root + [DirectoryOf(c)] <= p
    ensures Claims(env, c, p)
  {
    hide DirectoryOf, ORDER;
  }

  lemma ProgramClaimed(env: Env, p: Path)
    requires LegacyPrograms in ORDER && (p == env.root + ["bin"] || p in Under(env.root + ["bin"], PROGRAMS))
    ensures Claims(env, LegacyPrograms, p)
  {
    hide Under, PROGRAMS, ORDER;
  }

  lemma ProgramPlace(env: Env, p: Path)
    requires env.root <= p && |p| > |env.root| && p[|env.root|] == "bin" && !Strange(env, p)
    ensures |p| == |env.root| + 1 || (|p| == |env.root| + 2 && p[|env.root| + 1] in PROGRAMS)
  {
    hide KNOWN, DIRECTORIES, PROGRAMS, MARKER;
  }

  lemma BelowClaimed(env: Env, p: Path) returns (c: Class)
    requires env.root <= p && |p| > |env.root| && p[|env.root|] in DIRECTORIES && !Strange(env, p)
    ensures c in ORDER && Claims(env, c, p)
  {
    hide *;
    Orders();
    var n := |env.root|;
    PathParts(env.root, p);
    if p[n] != "bin" {
      c := DirectoryClass(p[n]);
      TreeClaimed(env, c, p);
    } else {
      c := LegacyPrograms;
      ProgramPlace(env, p);
      if |p| > n + 1 { NameUnder(env.root + ["bin"], PROGRAMS, p[n + 1]); }
      ProgramClaimed(env, p);
    }
  }

  /** These places, the root itself and the configured database's files apart, are
      all the places no class claims. */
  lemma ClaimedIffNotStrange(env: Env, p: Path)
    ensures ClaimedBy(env, |ORDER|, p) <==> InFamily(env, p) || (env.root <= p && p != env.root && !Strange(env, p))
  {
    hide Claims, InFamily, Strange, ORDER;
    if ClaimedBy(env, |ORDER|, p) {
      var j :| 0 <= j < |ORDER| && Claims(env, ORDER[j], p);
      if !InFamily(env, p) { ClaimedNotStrange(env, ORDER[j], p); }
    } else {
      NoneClaims(env, p);
    }
  }

  lemma NoneClaims(env: Env, p: Path)
    requires !ClaimedBy(env, |ORDER|, p)
    ensures !InFamily(env, p) && !(env.root <= p && p != env.root && !Strange(env, p))
  {
    Orders();
    hide Claims, Strange, ORDER, KNOWN, DIRECTORIES, MARKER, Family;
    if InFamily(env, p) {
      FamilyClaimed(env, p);
      Unclaimed(env, ConfiguredDatabase, p);
    } else if env.root <= p && p != env.root && !Strange(env, p) {
      var c := PlainClaimed(env, p);
      Unclaimed(env, c, p);
    }
  }

  lemma FamilyClaimed(env: Env, p: Path)
    requires InFamily(env, p) && ConfiguredDatabase in ORDER
    ensures Claims(env, ConfiguredDatabase, p)
  {}

  lemma Unclaimed(env: Env, c: Class, p: Path)
    requires !ClaimedBy(env, |ORDER|, p) && c in ORDER
    ensures !Claims(env, c, p)
  {
    hide Claims, ORDER;
    var j :| 0 <= j < |ORDER| && ORDER[j] == c;
  }

  lemma PlainClaimed(env: Env, p: Path) returns (c: Class)
    requires env.root <= p && p != env.root && !Strange(env, p)
    ensures c in ORDER && Claims(env, c, p)
  {
    var n := |env.root|;
    hide KNOWN, DIRECTORIES, MARKER, PROGRAMS, Claims, ORDER;
    if p[n] in DIRECTORIES {
      c := BelowClaimed(env, p);
    } else {
      assert p == env.root + [p[n]];
      c := TopClaimed(env, p[n]);
    }
  }

  /** So strange entries survive every purge, whatever fails, unless the configuration
      names them as the database: nothing outside the root goes, nothing strange in it,
      and nothing strange in its program directory. */
  lemma StrangeEntriesSurvive(nodes: Nodes, env: Env, p: Path)
    requires WellFormed(nodes) && p in nodes && p != env.root && Strange(env, p) && !InFamily(env, p)
    ensures p in PurgeDataRoot(nodes, env).nodes && PurgeDataRoot(nodes, env).nodes[p] == nodes[p]
  {
    hide *;
    ClaimedIffNotStrange(env, p);
    OthersSurvive(nodes, env, p);
  }

  // ------------------------------------------- the configuration is kept

  lemma OnlyConfigurationClaims(env: Env, c: Class, name: string)
    requires c in ORDER && c != Configuration && name in CONFIGURATION
    requires Claims(env, c, env.root + [name])
    ensures InFamily(env, env.root + [name])
  {
    hide Family, Under, KNOWN, DATABASE, CONFIGURATION, SIDECARS, UI_STATE, PROGRAMS, DIRECTORIES, DirectoryOf;
    var root, p := env.root, env.root + [name];
    ConfigurationInitials();
    DatabaseInitials();
    SidecarInitials();
    UiInitials();
    UnderName(root, DATABASE, p);
    UnderName(root, SIDECARS, p);
    UnderName(root, UI_STATE, p);
    UnderName(root + ["bin"], PROGRAMS, p);
    DirectoryOfIs(c);
    assert p[|root|] == name;
  }

  /** The configuration class leaves the disk alone once the configured database
      is unresolved. */
  lemma DeferredLeavesAll(p: Progress, env: Env)
    requires p.unresolved
    ensures RunClass(p, env, Configuration).nodes == p.nodes
  {}

  lemma ClassKeeps(p: Progress, env: Env, c: Class, name: string)
    requires c in ORDER && WellFormed(p.nodes) && name in CONFIGURATION
    requires env.root + [name] in p.nodes && !InFamily(env, env.root + [name])
    ensures c != Configuration || p.unresolved ==> env.root + [name] in RunClass(p, env, c).nodes
  {
    hide WellFormed, RunClass, InFamily, CONFIGURATION, Claims;
    if c == Configuration {
      if p.unresolved { DeferredLeavesAll(p, env); }
    } else {
      ClassIsHonest(p, env, c);
      var q := env.root + [name];
      if q !in RunClass(p, env, c).nodes {
        assert Claims(env, c, q);
        OnlyConfigurationClaims(env, c, name);
      }
    }
  }

  /** The configured database's own class. */
  ghost function ConfiguredPhase(nodes: Nodes, env: Env): Phase {
    RunClass(Upto(nodes, env, 1), env, ConfiguredDatabase)
  }

  /** The configured database's receipt stands second, and whether it is finished
      decides how the configuration is treated. */
  lemma {:induction false} UnresolvedStays(nodes: Nodes, env: Env, k: nat)
    requires 2 <= k <= |ORDER|
    ensures var p, receipt := Upto(nodes, env, k), ConfiguredPhase(nodes, env).receipt;
      |p.classes| == k && p.classes[1] == receipt && p.unresolved == Unfinished(receipt)
  {
    hide RunClass, Upto, ORDER, Unfinished;
    AdvanceFacts(nodes, env, k - 1);
    OrderIs(k - 1);
    if k > 2 {
      UnresolvedStays(nodes, env, k - 1);
    } else {
      AdvanceFacts(nodes, env, 0);
      StartsEmpty(nodes, env);
    }
  }

  lemma {:induction false} ConfigurationKept(nodes: Nodes, env: Env, k: nat, name: string)
    requires k <= |ORDER| && WellFormed(nodes) && name in CONFIGURATION
    requires env.root + [name] in nodes && !InFamily(env, env.root + [name])
    requires k > 2 ==> Unfinished(ConfiguredPhase(nodes, env).receipt)
    ensures env.root + [name] in Upto(nodes, env, k).nodes
  {
    hide WellFormed, RunClass, InFamily, CONFIGURATION, TookClaimed, Upto, ORDER, Unfinished, ConfiguredPhase;
    StartsEmpty(nodes, env);
    if k > 0 {
      ConfigurationKept(nodes, env, k - 1, name);
      RunTakesClaimed(nodes, env, k - 1);
      var p := Upto(nodes, env, k - 1);
      TookWellFormed(nodes, env, k - 1, p.nodes);
      AdvanceFacts(nodes, env, k - 1);
      OrderIs(k - 1);
      if k > 2 { UnresolvedStays(nodes, env, k - 1); }
      ClassKeeps(p, env, ORDER[k - 1], name);
    }
  }

  predicate BeforeRootRuns(nodes: Nodes, env: Env) {
    var looked := LookAt(nodes, env.weather, DataRoot, env.root);
    looked.Absent? || (looked.Found? && looked.kind == Dir)
  }

  /** The purge ran and its receipt shows the configured database unfinished. */
  ghost predicate ConfiguredUnresolved(nodes: Nodes, env: Env) {
    var receipt := PurgeDataRoot(nodes, env).receipt;
    |receipt.classes| > 1 && Unfinished(receipt.classes[1])
  }

  lemma ReceiptClasses(nodes: Nodes, env: Env)
    ensures BeforeRootRuns(nodes, env) ==> |PurgeDataRoot(nodes, env).receipt.classes| == |ORDER| + 3
    ensures BeforeRootRuns(nodes, env) ==>
      PurgeDataRoot(nodes, env).receipt.classes[1] == ConfiguredPhase(nodes, env).receipt
    ensures !BeforeRootRuns(nodes, env) ==> |PurgeDataRoot(nodes, env).receipt.classes| == 1
  {
    hide Upto, CountUnknown, UnknownReceipt, RemoveDir, LookAt, AnyUnfinished, ConfiguredPhase;
    UnresolvedStays(nodes, env, |ORDER|);
  }

  /** A purge that leaves the configured database unfinished keeps every
      configuration file that is not itself one of that database's files. */
  lemma ConfigurationSurvives(nodes: Nodes, env: Env, name: string)
    requires WellFormed(nodes) && name in CONFIGURATION && env.root + [name] in nodes
    requires ConfiguredUnresolved(nodes, env) && !InFamily(env, env.root + [name])
    ensures env.root + [name] in PurgeDataRoot(nodes, env).nodes
  {
    hide PurgeDataRoot, Upto, WellFormed, TookClaimed, InFamily, CONFIGURATION, ConfiguredPhase, Unfinished, LookAt;
    ReceiptClasses(nodes, env);
    RootLast(nodes, env);
    ConfigurationKept(nodes, env, |ORDER|, name);
  }

  /** Everything works except looking at one file of the configured database. */
  function OneBlindSpot(blind: Path): Weather {
    Weather((a: Attempt) => if a == Attempt(ConfiguredDatabase, Look, blind) then Some(Io) else None, c => {})
  }

  lemma SuffixDiffers(path: Path, suffix: string)
    requires suffix != ""
    ensures Suffixed(path, suffix) != path
  {
    if path != [] { assert |path[|path| - 1] + suffix| > |path[|path| - 1]|; }
  }

  lemma CompanionsDiffer(path: Path)
    ensures Suffixed(path, "-wal") != Suffixed(path, "-shm")
  {
    assert "-wal"[1] != "-shm"[1];
    if path == [] {
      assert Suffixed(path, "-wal")[0] != Suffixed(path, "-shm")[0];
    } else {
      var last := path[|path| - 1];
      assert (last + "-wal")[|last| + 1] != (last + "-shm")[|last| + 1];
      assert Suffixed(path, "-wal")[|path| - 1] == last + "-wal" && Suffixed(path, "-shm")[|path| - 1] == last + "-shm";
    }
  }

  /** One turn of the file loop with one file that cannot be looked at. */
  lemma BlindStep(t: Tally, blind: Path, p: Path, q: Path)
    requires p != blind
    ensures var r := PurgeOne(t, OneBlindSpot(blind), ConfiguredDatabase, q);
      && (q == blind || t.error.Some? ==> r.error.Some?)
      && (q != p && p in t.nodes && t.nodes[p] == File ==> p in r.nodes && r.nodes[p] == File)
      && (p !in t.nodes || (q == p && t.nodes[p] == File) ==> p !in r.nodes)
  {}

  lemma ThreeSteps(nodes: Nodes, w: Weather, c: Class, paths: seq<Path>)
    requires |paths| == 3
    ensures PurgePaths(nodes, w, c, paths)
      == PurgeOne(PurgeOne(PurgeOne(Tally(nodes, 0, None), w, c, paths[0]), w, c, paths[1]), w, c, paths[2])
  {
    hide PurgeOne;
    assert paths[..2][..1] == paths[..1] && paths[..1][..0] == [];
    assert PurgePaths(nodes, w, c, paths[..1]) == PurgeOne(Tally(nodes, 0, None), w, c, paths[0]);
    assert PurgePaths(nodes, w, c, paths[..2]) == PurgeOne(PurgePaths(nodes, w, c, paths[..1]), w, c, paths[1]);
  }

  /** The last of three files is gone, and one of them could not be looked at. */
  lemma BlindFamily(nodes: Nodes, paths: seq<Path>, p: Path, blind: Path)
    requires |paths| == 3 && p in paths && blind in paths && blind != p && p in nodes && nodes[p] == File
    ensures var t := PurgePaths(nodes, OneBlindSpot(blind), ConfiguredDatabase, paths); p !in t.nodes && t.error.Some?
  {
    hide *;
    var w, c := OneBlindSpot(blind), ConfiguredDatabase;
    ThreeSteps(nodes, w, c, paths);
    var t0 := PurgeOne(Tally(nodes, 0, None), w, c, paths[0]);
    var t1 := PurgeOne(t0, w, c, paths[1]);
    BlindStep(Tally(nodes, 0, None), blind, p, paths[0]);
    BlindStep(t0, blind, p, paths[1]);
    BlindStep(t1, blind, p, paths[2]);
  }

  lemma {:induction false} LaterWithin(nodes: Nodes, env: Env, j: nat, k: nat)
    requires j <= k <= |ORDER| && WellFormed(nodes)
    ensures Within(Upto(nodes, env, k).nodes, Upto(nodes, env, j).nodes)
  {
    hide *;
    if j < k {
      LaterWithin(nodes, env, j, k - 1);
      NextWithin(nodes, env, k - 1);
      WithinTrans(Upto(nodes, env, k).nodes, Upto(nodes, env, k - 1).nodes, Upto(nodes, env, j).nodes);
    } else {
      WithinItself(Upto(nodes, env, k).nodes);
    }
  }

  lemma WithinItself(nodes: Nodes)
    ensures Within(nodes, nodes)
  {}

  lemma NextWithin(nodes: Nodes, env: Env, k: nat)
    requires k < |ORDER| && WellFormed(nodes)
    ensures Within(Upto(nodes, env, k + 1).nodes, Upto(nodes, env, k).nodes)
  {
    hide WellFormed, RunClass, TookClaimed, Upto, ORDER, Within;
    RunTakesClaimed(nodes, env, k);
    TookWellFormed(nodes, env, k, Upto(nodes, env, k).nodes);
    AdvanceFacts(nodes, env, k);
    OrderIs(k);
    ClassIsHonest(Upto(nodes, env, k), env, ORDER[k]);
  }

  /** The default database is no configuration file. */
  lemma DefaultFamily(root: Path, name: string)
    requires name in CONFIGURATION
    ensures root + [name] !in Family(root + ["gilbreth.db"])
  {
    hide CONFIGURATION;
    ConfigurationInitials();
    var path := root + ["gilbreth.db"];
    assert path[..|path| - 1] == root;
    assert (root + [name])[|root|][0] == 'c';
    assert path[|root|][0] == 'g' && Suffixed(path, "-wal")[|root|][0] == 'g' && Suffixed(path, "-shm")[|root|][0] == 'g';
  }

  lemma DatabaseKeeps(nodes: Nodes, env: Env, name: string)
    requires WellFormed(nodes) && name in CONFIGURATION && env.root + [name] in nodes
    ensures env.root + [name] in Upto(nodes, env, 1).nodes
    ensures Upto(nodes, env, 1).nodes[env.root + [name]] == nodes[env.root + [name]]
  {
    hide WellFormed, CONFIGURATION, DATABASE, PurgePaths, Under;
    var q := env.root + [name];
    PathsPurged(nodes, env.weather, Database, Under(env.root, DATABASE));
    UnderName(env.root, DATABASE, q);
    ConfigurationInitials();
    DatabaseInitials();
    assert q[|env.root|] == name;
  }

  /** One unreadable companion file leaves the configured database unfinished while
      its other files, the configuration among them, are removed. */
  lemma BlindPurge(nodes: Nodes, root: Path, marker: bool, path: Path, name: string) returns (w: Weather)
    requires WellFormed(nodes) && name in CONFIGURATION && root + [name] in nodes && nodes[root + [name]] == File
    requires root + [name] in Family(path)
    ensures var env := Env(w, root, marker, AbsolutePath(path));
      ConfiguredUnresolved(nodes, env) && root + [name] !in PurgeDataRoot(nodes, env).nodes
  {
    hide WellFormed, CONFIGURATION, Upto, PurgePaths, PurgeDataRoot, TookClaimed, Suffixed;
    var q := root + [name];
    SuffixDiffers(path, "-wal");
    SuffixDiffers(path, "-shm");
    CompanionsDiffer(path);
    DefaultFamily(root, name);
    var blind := if q == path then Suffixed(path, "-wal") else path;
    w := OneBlindSpot(blind);
    var env := Env(w, root, marker, AbsolutePath(path));
    DatabaseKeeps(nodes, env, name);
    BlindFamily(Upto(nodes, env, 1).nodes, Family(path), q, blind);
    AdvanceFacts(nodes, env, 1);
    LaterWithin(nodes, env, 2, |ORDER|);
    RootThere(nodes, root, name);
    ReceiptClasses(nodes, env);
    RootLast(nodes, env);
  }

  lemma RootThere(nodes: Nodes, root: Path, name: string)
    requires WellFormed(nodes) && root + [name] in nodes
    ensures root in nodes && nodes[root] == Dir
  {
    assert Parent(root + [name]) == root;
  }

  /** Exactly when a configuration file is safe from every purge that leaves the
      configured database unfinished: when it is not one of that database's files. */
  lemma ConfigurationSurvivesIff(nodes: Nodes, root: Path, marker: bool, config: ConfigRead, name: string)
    requires WellFormed(nodes) && name in CONFIGURATION && root + [name] in nodes && nodes[root + [name]] == File
    ensures (forall w: Weather | ConfiguredUnresolved(nodes, Env(w, root, marker, config)) ::
               root + [name] in PurgeDataRoot(nodes, Env(w, root, marker, config)).nodes)
      <==> !(config.AbsolutePath? && root + [name] in Family(config.path))
  {
    hide PurgeDataRoot, WellFormed, CONFIGURATION, Family, ConfiguredUnresolved;
    if config.AbsolutePath? && root + [name] in Family(config.path) {
      var w := BlindPurge(nodes, root, marker, config.path, name);
    } else {
      forall w: Weather | ConfiguredUnresolved(nodes, Env(w, root, marker, config))
        ensures root + [name] in PurgeDataRoot(nodes, Env(w, root, marker, config)).nodes
      {
        ConfigurationSurvives(nodes, Env(w, root, marker, config), name);
      }
    }
  }

  // -------------------------------------------------------------- the rerun

  /** With no root there is nothing to claim, so nothing goes, whatever fails. */
  lemma RerunTouchesNothing(nodes: Nodes, env: Env)
    requires WellFormed(nodes) && !env.config.AbsolutePath? && forall p | p in nodes :: !(env.root <= p)
    ensures PurgeDataRoot(nodes, env).nodes == nodes
  {
    hide PurgeDataRoot, WellFormed, BeforeRoot;
    RootLast(nodes, env);
    forall p | p in nodes ensures p in PurgeDataRoot(nodes, env).nodes { StrangeEntriesSurvive(nodes, env, p); }
  }
}
