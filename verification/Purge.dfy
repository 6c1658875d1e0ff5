/** The destructive uninstall purge of `uninstall.rs` over a file system whose
    every access may fail. */
module Purge {

  import opened Wrappers

  /** An absolute path, as its components. */
  type Path = seq<string>

  datatype Kind = File | Dir | Symlink

  type Nodes = map<Path, Kind>

  datatype Class =
    | Database | ConfiguredDatabase | Configuration | Sidecars | UiState | Logs | Archives | OperationReceipts | Rollback
    | LegacyPrograms | ExternalExports | UnknownEntries | DataRoot

  datatype Category =
    | Locked | AccessDenied | Io
    | UnsafePath | UnreadableTree | ClassIncomplete | UnresolvedConfig | UnresolvedExternalPath | HasUnknownEntries

  type IoCategory = c: Category | c.Locked? || c.AccessDenied? || c.Io? witness Io

  datatype Outcome = Removed | Retained | Deferred | NeedsRetry

  datatype ClassReceipt = ClassReceipt(class_: Class, outcome: Outcome, count: nat, error: Option<Category>)

  datatype Receipt = Receipt(completed: bool, classes: seq<ClassReceipt>)

  // ------------------------------------------------------------ the disk

  datatype Act = Look | Exists | Unlink | RemoveDirectory | RemoveTree | List

  datatype Attempt = Attempt(class_: Class, act: Act, path: Path)

  /** Which accesses fail and how; a failing tree removal leaves `kept` behind. */
  datatype Weather = Weather(fails: Attempt -> Option<IoCategory>, kept: Class -> set<Path>)

  /** Every entry's parent is there and is a directory. */
  ghost predicate WellFormed(nodes: Nodes) {
    forall p | p in nodes :: p != [] ==> Parent(p) in nodes && nodes[Parent(p)] == Dir
  }

  function Parent(p: Path): Path
    requires p != []
  {
    p[..|p| - 1]
  }

  datatype Looked = Absent | Broken(error: Category) | Found(kind: Kind)

  /** `symlink_metadata`: only a truly missing entry reads as missing. */
  function LookAt(nodes: Nodes, w: Weather, c: Class, p: Path): Looked {
    var fault := w.fails(Attempt(c, Look, p));
    if fault.Some? then Broken(fault.value) else if p in nodes then Found(nodes[p]) else Absent
  }

  /** What is left when these entries go. */
  function Without(nodes: Nodes, gone: set<Path>): Nodes { nodes - gone }

  function SubTree(nodes: Nodes, dir: Path): set<Path> { set p | p in nodes && dir <= p }

  function Children(nodes: Nodes, dir: Path): set<Path> { set p | p in nodes && |p| == |dir| + 1 && dir <= p }

  /** What a failing tree removal takes with it: nothing above an entry it keeps. */
  function Torn(nodes: Nodes, dir: Path, kept: set<Path>): set<Path> {
    set p | p in SubTree(nodes, dir) && !Above(p, kept * SubTree(nodes, dir))
  }

  predicate Above(p: Path, kept: set<Path>) { exists k | k in kept :: p <= k }

  // --------------------------------------------------------------- files

  datatype Tally = Tally(nodes: Nodes, count: nat, error: Option<Category>)

  function First(error: Option<Category>, next: Category): Option<Category> { if error.Some? then error else Some(next) }

  /** One pass of the file loop: count what is there, refuse what is not a plain
      file, remove the rest, and remember the first trouble. */
  function PurgeOne(t: Tally, w: Weather, c: Class, p: Path): Tally {
    match LookAt(t.nodes, w, c, p)
    case Absent => t
    case Broken(error) => t.(error := First(t.error, error))
    case Found(kind) =>
      var fault := w.fails(Attempt(c, Unlink, p));
      if kind != File then t.(count := t.count + 1, error := First(t.error, UnsafePath))
      else if fault.Some? then t.(count := t.count + 1, error := First(t.error, fault.value))
      else Tally(Without(t.nodes, {p}), t.count + 1, t.error)
  }

  function PurgePaths(nodes: Nodes, w: Weather, c: Class, paths: seq<Path>): Tally {
    if paths == [] then Tally(nodes, 0, None) else
      PurgeOne(PurgePaths(nodes, w, c, paths[..|paths| - 1]), w, c, paths[|paths| - 1])
  }

  function Under(root: Path, names: seq<string>): (r: seq<Path>)
    ensures |r| == |names| && forall k :: 0 <= k < |r| ==> r[k] == root + [names[k]]
  {
    seq(|names|, k requires 0 <= k < |names| => root + [names[k]])
  }

  datatype Phase = Phase(nodes: Nodes, receipt: ClassReceipt)

  function FailedAs(error: Category): Outcome { if error.Locked? then Deferred else NeedsRetry }

  function TallyReceipt(c: Class, t: Tally): ClassReceipt {
    ClassReceipt(c, if t.error.None? then Removed else FailedAs(t.error.value), t.count, t.error)
  }

  function PurgeFiles(nodes: Nodes, w: Weather, c: Class, root: Path, names: seq<string>): Phase {
    var t := PurgePaths(nodes, w, c, Under(root, names));
    Phase(t.nodes, TallyReceipt(c, t))
  }

  /** How many of these entries are there, up to the first that cannot be looked at. */
  function CountPresent(nodes: Nodes, w: Weather, c: Class, paths: seq<Path>): Tally {
    if paths == [] then Tally(nodes, 0, None) else
      var t := CountPresent(nodes, w, c, paths[..|paths| - 1]);
      if t.error.Some? then t else
        match LookAt(nodes, w, c, paths[|paths| - 1])
        case Absent => t
        case Broken(_) => t.(error := Some(Io))
        case Found(_) => t.(count := t.count + 1)
  }

  function DeferFiles(nodes: Nodes, w: Weather, c: Class, root: Path, names: seq<string>): Phase {
    var t := CountPresent(nodes, w, c, Under(root, names));
    Phase(nodes, if t.error.Some? then ClassReceipt(c, NeedsRetry, t.count, Some(Io))
                 else ClassReceipt(c, Deferred, t.count, Some(ClassIncomplete)))
  }

  // --------------------------------------------------------- directories

  /** The whole tree can be listed and looked at and holds no link. */
  ghost predicate TreeClean(nodes: Nodes, w: Weather, c: Class, dir: Path)
    requires dir in nodes
  {
    && w.fails(Attempt(c, List, dir)).None?
    && forall p | p in SubTree(nodes, dir) && p != dir ::
         w.fails(Attempt(c, Look, p)).None? && nodes[p] != Symlink && (nodes[p] == Dir ==> w.fails(Attempt(c, List, p)).None?)
  }

  ghost function PurgeDirectory(nodes: Nodes, w: Weather, c: Class, dir: Path): Phase {
    match LookAt(nodes, w, c, dir)
    case Absent => Phase(nodes, ClassReceipt(c, Removed, 0, None))
    case Broken(error) => Phase(nodes, ClassReceipt(c, NeedsRetry, 0, Some(error)))
    case Found(kind) =>
      if kind != Dir then Phase(nodes, ClassReceipt(c, NeedsRetry, 1, Some(UnsafePath)))
      else if !TreeClean(nodes, w, c, dir) then Phase(nodes, ClassReceipt(c, NeedsRetry, 1, Some(UnreadableTree)))
      else
        var fault := w.fails(Attempt(c, RemoveTree, dir));
        var count := |SubTree(nodes, dir)|;
        if fault.None? then Phase(Without(nodes, SubTree(nodes, dir)), ClassReceipt(c, Removed, count, None))
        else Phase(Without(nodes, Torn(nodes, dir, w.kept(c))), ClassReceipt(c, FailedAs(fault.value), count, Some(fault.value)))
  }

  datatype Counted = Counted(count: nat) | Uncounted(error: Category)

  /** The children of `dir` whose names no list claims. */
  function Strangers(nodes: Nodes, dir: Path, known: seq<string>): set<Path> {
    set p | p in Children(nodes, dir) && p[|dir|] !in known
  }

  function CountUnknown(nodes: Nodes, w: Weather, c: Class, dir: Path, known: seq<string>): Counted {
    var fault := w.fails(Attempt(c, List, dir));
    if fault.Some? then Uncounted(fault.value)
    else if dir !in nodes then Counted(0)
    else if nodes[dir] != Dir then Uncounted(Io)
    else Counted(|Strangers(nodes, dir, known)|)
  }

  /** `remove_dir`: refuses a directory that is not empty. */
  function RemoveDir(nodes: Nodes, w: Weather, c: Class, dir: Path): Tally {
    var fault := w.fails(Attempt(c, RemoveDirectory, dir));
    if fault.Some? then Tally(nodes, 1, Some(fault.value))
    else if dir !in nodes then Tally(nodes, 0, None)
    else if nodes[dir] != Dir || Children(nodes, dir) != {} then Tally(nodes, 1, Some(Io))
    else Tally(Without(nodes, {dir}), 1, None)
  }

  datatype Legacy = Legacy(phase: Phase, unknown: Counted)

  function PurgeLegacyProgramFiles(nodes: Nodes, w: Weather, root: Path): Legacy {
    var c, bin := LegacyPrograms, root + ["bin"];
    match LookAt(nodes, w, c, bin)
    case Absent => Legacy(Phase(nodes, ClassReceipt(c, Removed, 0, None)), Counted(0))
    case Broken(error) => Legacy(Phase(nodes, ClassReceipt(c, NeedsRetry, 0, Some(error))), Uncounted(error))
    case Found(kind) =>
      if kind != Dir then Legacy(Phase(nodes, ClassReceipt(c, NeedsRetry, 1, Some(UnsafePath))), Uncounted(UnsafePath))
      else
        var unknown := CountUnknown(nodes, w, c, bin, PROGRAMS);
        var files := PurgeFiles(nodes, w, c, bin, PROGRAMS);
        if unknown != Counted(0) || files.receipt.outcome != Removed then Legacy(files, unknown)
        else
          var gone := RemoveDir(files.nodes, w, c, bin);
          if gone.error.None? then Legacy(Phase(gone.nodes, files.receipt), unknown)
          else Legacy(Phase(gone.nodes, files.receipt.(outcome := NeedsRetry, error := gone.error)), unknown)
  }

  // -------------------------------------------------- configured database

  /** What reading and parsing `config.toml` comes to. */
  datatype ConfigRead = Missing | Unreadable | Malformed | RelativePath | AbsolutePath(path: Path)

  function Suffixed(p: Path, suffix: string): Path {
    if p == [] then [suffix] else p[..|p| - 1] + [p[|p| - 1] + suffix]
  }

  /** A SQLite database and its two companions. */
  function Family(database: Path): seq<Path> { [database, Suffixed(database, "-wal"), Suffixed(database, "-shm")] }

  function PurgeConfiguredDatabase(nodes: Nodes, w: Weather, root: Path, config: ConfigRead): Phase {
    var c := ConfiguredDatabase;
    match config
    case Missing => Phase(nodes, ClassReceipt(c, Removed, 0, None))
    case Unreadable => Phase(nodes, ClassReceipt(c, Deferred, 0, Some(UnresolvedConfig)))
    case Malformed => Phase(nodes, ClassReceipt(c, Deferred, 0, Some(UnresolvedConfig)))
    case RelativePath => Phase(nodes, ClassReceipt(c, Deferred, 0, Some(UnresolvedExternalPath)))
    case AbsolutePath(path) =>
      if path == root + ["gilbreth.db"] then Phase(nodes, ClassReceipt(c, Removed, 0, None))
      else
        var t := PurgePaths(nodes, w, c, Family(path));
        Phase(t.nodes, TallyReceipt(c, t))
  }

  // ------------------------------------------------------- the data root

  const DATABASE: seq<string> := ["gilbreth.db", "gilbreth.db-wal", "gilbreth.db-shm"]
  const CONFIGURATION: seq<string> :=
    ["config.toml", "config.toml.tmp", "config.toml.upgrade.tmp", "config.toml.tray.tmp", "config.toml.dashboard.tmp",
     "config.toml.lock"]
  const MARKER: string := ".gilbreth-purge-test-root"
  const SIDECARS: seq<string> :=
    ["spheres.json", "spheres.json.tmp", "notices.json", "notices.json.tmp", "hotkey-status.json", "notification-access.json"]
  const UI_STATE: seq<string> := ["dashboard-ui.ron", "dashboard-ui.lock"]
  const DIRECTORIES: seq<string> := ["logs", "archives", "operation-receipts", "rollback", "bin"]
  const PROGRAMS: seq<string> := ["gilbreth-app.exe", "gilbreth-elevated-record-helper.exe"]
  const KNOWN: seq<string> := DATABASE + CONFIGURATION + [MARKER] + SIDECARS + UI_STATE + DIRECTORIES

  /** One purge: the weather, where the data is, whether it is a marked test
      root, and what its configuration says. */
  datatype Env = Env(weather: Weather, root: Path, marker: bool, config: ConfigRead)

  function ConfigNames(marker: bool): seq<string> { CONFIGURATION + if marker then [MARKER] else [] }

  datatype Progress = Progress(nodes: Nodes, classes: seq<ClassReceipt>, unresolved: bool, binUnknown: Counted)

  predicate Unfinished(r: ClassReceipt) { r.outcome.Deferred? || r.outcome.NeedsRetry? }

  /** The classes that touch the disk, in order. */
  const ORDER: seq<Class> :=
    [Database, ConfiguredDatabase, Configuration, Sidecars, UiState, Logs, Archives, OperationReceipts, Rollback, LegacyPrograms]

  function DirectoryOf(c: Class): string {
    if c.Logs? then "logs" else if c.Archives? then "archives" else if c.OperationReceipts? then "operation-receipts"
    else "rollback"
  }

  /** One class of the purge. */
  ghost function RunClass(p: Progress, env: Env, c: Class): Phase
    requires c in ORDER
  {
    var nodes, w, root := p.nodes, env.weather, env.root;
    match c
    case Database => PurgeFiles(nodes, w, c, root, DATABASE)
    case ConfiguredDatabase => PurgeConfiguredDatabase(nodes, w, root, env.config)
    case Configuration =>
      if p.unresolved then DeferFiles(nodes, w, c, root, ConfigNames(env.marker))
      else PurgeFiles(nodes, w, c, root, ConfigNames(env.marker))
    case Sidecars => PurgeFiles(nodes, w, c, root, SIDECARS)
    case UiState => PurgeFiles(nodes, w, c, root, UI_STATE)
    case LegacyPrograms => PurgeLegacyProgramFiles(nodes, w, root).phase
    case _ => PurgeDirectory(nodes, w, c, root + [DirectoryOf(c)])
  }

  ghost function Advance(p: Progress, env: Env, c: Class): Progress
    requires c in ORDER
  {
    var phase := RunClass(p, env, c);
    Progress(phase.nodes, p.classes + [phase.receipt],
             if c == ConfiguredDatabase then Unfinished(phase.receipt) else p.unresolved,
             if c == LegacyPrograms then PurgeLegacyProgramFiles(p.nodes, env.weather, env.root).unknown else p.binUnknown)
  }

  /** The purge after its first `k` classes. */
  ghost function Upto(nodes: Nodes, env: Env, k: nat): Progress
    requires k <= |ORDER|
  {
    if k == 0 then Progress(nodes, [], false, Counted(0)) else Advance(Upto(nodes, env, k - 1), env, ORDER[k - 1])
  }

  function UnknownReceipt(root: Counted, bin: Counted): ClassReceipt {
    if root.Counted? && bin.Counted? then
      if root.count + bin.count == 0 then ClassReceipt(UnknownEntries, Removed, 0, None)
      else ClassReceipt(UnknownEntries, Deferred, root.count + bin.count, Some(HasUnknownEntries))
    else ClassReceipt(UnknownEntries, NeedsRetry, 0, Some(if root.Uncounted? then root.error else bin.error))
  }

  predicate AnyUnfinished(classes: seq<ClassReceipt>) { exists k :: 0 <= k < |classes| && Unfinished(classes[k]) }

  datatype Purged = Purged(nodes: Nodes, receipt: Receipt)

  /** The last class: the root itself goes only when every other class is done. */
  function FinishRoot(nodes: Nodes, env: Env, classes: seq<ClassReceipt>): Purged {
    if AnyUnfinished(classes) then
      var there := env.root in nodes && env.weather.fails(Attempt(DataRoot, Exists, env.root)).None?;
      Purged(nodes, Receipt(false, classes + [ClassReceipt(DataRoot, Deferred, if there then 1 else 0, Some(ClassIncomplete))]))
    else
      var gone := RemoveDir(nodes, env.weather, DataRoot, env.root);
      Purged(gone.nodes, Receipt(gone.error.None?,
        classes + [ClassReceipt(DataRoot, if gone.error.None? then Removed else NeedsRetry, gone.count, gone.error)]))
  }

  function RootFailure(nodes: Nodes, error: Category): Purged {
    Purged(nodes, Receipt(false, [ClassReceipt(DataRoot, NeedsRetry, 1, Some(error))]))
  }

  ghost function PurgeClasses(nodes: Nodes, env: Env): Purged {
    var p := Upto(nodes, env, |ORDER|);
    var unknown := UnknownReceipt(CountUnknown(p.nodes, env.weather, UnknownEntries, env.root, KNOWN), p.binUnknown);
    FinishRoot(p.nodes, env, p.classes + [ClassReceipt(ExternalExports, Retained, 0, None), unknown])
  }

  ghost function PurgeDataRoot(nodes: Nodes, env: Env): Purged {
    match LookAt(nodes, env.weather, DataRoot, env.root)
    case Broken(error) => RootFailure(nodes, error)
    case Found(kind) => if kind != Dir then RootFailure(nodes, UnsafePath) else PurgeClasses(nodes, env)
    case Absent => PurgeClasses(nodes, env)
  }
}
