/** The configuration file of `config.rs`: its upgrade, and the locked
    read-modify-write operations of the tray and the dashboards. */
module Config {

  import opened Wrappers

  datatype Value = Bool(b: bool) | Int(n: int) | Text(s: string) | Texts(xs: seq<string>) | Other(o: nat)

  datatype Section = Capture | Hotkey | Storage | Writer | Record | Privacy | Onboarding | Analytics | OtherSection(s: string)

  datatype Key =
    | Foreground | Windows | Keyboard | Mouse | System | Idle | IdleThresholdMs | ProcessFilter
    | PauseResume
    | DbPath
    | FlushIntervalMs | BatchSize
    | SafetyCapMs | RequestPollIntervalMs | HelperEnabled | HelperStrategy | HelperPath | HelperSigner
    | RedactTitles | RedactKeys | ExcludedApps | SensitiveSuppression | StoreKeyContent | PostureConfirmed
    | RetentionDays | TitleRetentionDays | MouseMoveRetentionDays
    | WelcomeDismissed
    | SphereLabels
    | OtherKey(k: string)

  /** A section is a table of keys, or something else the user wrote there. */
  datatype Item = Table(keys: map<Key, Value>) | Plain(value: Value)

  type Doc = map<Section, Item>

  /** The file: missing, text that is no TOML, or a document. */
  datatype File = Absent | Garbage | Document(doc: Doc)

  // ------------------------------------------------------------ the schema

  datatype Kind = ABool | ACount | AText | ATexts | AStrategy

  /** What a key holds and what its absence means. */
  datatype Setting = Setting(kind: Kind, default: Option<Value>)

  const DEFAULT_PAUSE_HOTKEY := "ctrl+alt+shift+p"

  function SettingOf(s: Section, k: Key): Option<Setting> {
    match s
    case Capture =>
      if k in {Foreground, Windows, Keyboard, Mouse, System, Idle, ProcessFilter} then Some(Setting(ABool, Some(Bool(true))))
      else if k == IdleThresholdMs then Some(Setting(ACount, Some(Int(180_000)))) else None
    case Hotkey => if k == PauseResume then Some(Setting(AText, Some(Text(DEFAULT_PAUSE_HOTKEY)))) else None
    case Storage => if k == DbPath then Some(Setting(AText, None)) else None
    case Writer =>
      if k == FlushIntervalMs then Some(Setting(ACount, Some(Int(250))))
      else if k == BatchSize then Some(Setting(ACount, Some(Int(100)))) else None
    case Record => (
      match k
      case SafetyCapMs => Some(Setting(ACount, Some(Int(1_800_000))))
      case RequestPollIntervalMs => Some(Setting(ACount, Some(Int(3_000))))
      case HelperEnabled => Some(Setting(ABool, Some(Bool(false))))
      case HelperStrategy => Some(Setting(AStrategy, Some(Text("runas"))))
      case HelperPath => Some(Setting(AText, Some(Text(""))))
      case HelperSigner => Some(Setting(AText, Some(Text(""))))
      case _ => None)
    case Privacy => (
      match k
      case RedactTitles => Some(Setting(ATexts, Some(Texts([]))))
      case RedactKeys => Some(Setting(ATexts, Some(Texts([]))))
      case ExcludedApps => Some(Setting(ATexts, Some(Texts([]))))
      case SensitiveSuppression => Some(Setting(ABool, Some(Bool(true))))
      case StoreKeyContent => Some(Setting(ABool, Some(Bool(false))))
      case PostureConfirmed => Some(Setting(ABool, Some(Bool(true))))
      case RetentionDays => Some(Setting(ACount, Some(Int(90))))
      case TitleRetentionDays => Some(Setting(ACount, Some(Int(0))))
      case MouseMoveRetentionDays => Some(Setting(ACount, Some(Int(30))))
      case _ => None)
    case Onboarding => if k == WelcomeDismissed then Some(Setting(ABool, Some(Bool(true)))) else None
    case _ => None
  }

  predicate KnownSection(s: Section) { !s.Analytics? && !s.OtherSection? }

  predicate TypeOk(kind: Kind, v: Value) {
    match kind
    case ABool => v.Bool?
    case ACount => v.Int? && v.n >= 0
    case AText => v.Text?
    case ATexts => v.Texts?
    case AStrategy => v == Text("runas")
  }

  predicate KeysParse(s: Section, keys: map<Key, Value>) {
    forall k | k in keys && SettingOf(s, k).Some? :: TypeOk(SettingOf(s, k).value.kind, keys[k])
  }

  /** The document reads as a configuration. */
  predicate Parses(doc: Doc) {
    forall s | s in doc && KnownSection(s) :: doc[s].Table? && KeysParse(s, doc[s].keys)
  }

  function Get(doc: Doc, s: Section, k: Key): Option<Value> {
    if s in doc && doc[s].Table? && k in doc[s].keys then Some(doc[s].keys[k]) else None
  }

  /** What a setting means to the program: its value, or the default. */
  function Effective(doc: Doc, s: Section, k: Key): Option<Value>
    requires SettingOf(s, k).Some?
  {
    if Get(doc, s, k).Some? then Get(doc, s, k) else SettingOf(s, k).value.default
  }

  // ------------------------------------------------------------- editing

  /** `ensure_table`: a section that is no table is replaced by an empty one. */
  function EnsureTable(doc: Doc, s: Section): (r: Doc)
    ensures s in r && r[s].Table?
  {
    if s in doc && doc[s].Table? then doc else doc[s := Table(map[])]
  }

  function Assign(doc: Doc, s: Section, k: Key, v: Value): Doc
    requires s in doc && doc[s].Table?
  {
    doc[s := Table(doc[s].keys[k := v])]
  }

  function Put(doc: Doc, s: Section, k: Key, v: Value): Doc { Assign(EnsureTable(doc, s), s, k, v) }

  function InsertMissing(doc: Doc, s: Section, k: Key, v: Value): Doc {
    if Get(EnsureTable(doc, s), s, k).Some? then EnsureTable(doc, s) else Put(doc, s, k, v)
  }

  const SHOWN: seq<(Section, Key)> :=
    [(Capture, IdleThresholdMs), (Capture, ProcessFilter), (Hotkey, PauseResume), (Privacy, ExcludedApps),
     (Privacy, SensitiveSuppression), (Privacy, MouseMoveRetentionDays), (Privacy, StoreKeyContent),
     (Privacy, PostureConfirmed), (Privacy, TitleRetentionDays), (Privacy, RetentionDays), (Onboarding, WelcomeDismissed)]

  /** The settings of a recording, in the order they are written. */
  function RecordKeys(windows: bool): seq<(Section, Key)> {
    if windows then
      [(Record, SafetyCapMs), (Record, RequestPollIntervalMs), (Record, HelperEnabled), (Record, HelperStrategy),
       (Record, HelperPath), (Record, HelperSigner)]
    else [(Record, RequestPollIntervalMs)]
  }

  /** The keys an upgrade makes visible, in the order it writes them. */
  function Visible(windows: bool): seq<(Section, Key)> { SHOWN + RecordKeys(windows) }

  /** Settings that always have a value. */
  predicate Fillable(s: Section, k: Key) { KnownSection(s) && SettingOf(s, k).Some? && SettingOf(s, k).value.default.Some? }

  predicate AllFillable(keys: seq<(Section, Key)>) { forall j :: 0 <= j < |keys| ==> Fillable(keys[j].0, keys[j].1) }

  /** Insert what `config` means for each of these keys wherever it is missing. */
  function Fill(doc: Doc, config: Doc, keys: seq<(Section, Key)>): Doc
    requires AllFillable(keys)
  {
    if keys == [] then doc else
      var (s, k) := keys[|keys| - 1];
      InsertMissing(Fill(doc, config, keys[..|keys| - 1]), s, k, Meaning(config, s, k))
  }

  function Meaning(config: Doc, s: Section, k: Key): Value
    requires Fillable(s, k)
  {
    Effective(config, s, k).value
  }

  lemma CaptureFillable(k: Key)
    ensures k in {Foreground, Windows, Keyboard, Mouse, System, Idle, ProcessFilter, IdleThresholdMs} ==> Fillable(Capture, k)
  {}

  lemma SmallFillable()
    ensures Fillable(Hotkey, PauseResume) && Fillable(Writer, FlushIntervalMs) && Fillable(Writer, BatchSize)
    ensures Fillable(Onboarding, WelcomeDismissed)
  {}

  lemma RecordFillable()
    ensures Fillable(Record, SafetyCapMs) && Fillable(Record, RequestPollIntervalMs) && Fillable(Record, HelperEnabled)
    ensures Fillable(Record, HelperStrategy) && Fillable(Record, HelperPath) && Fillable(Record, HelperSigner)
  {}

  lemma PrivacyFillable()
    ensures Fillable(Privacy, RedactTitles) && Fillable(Privacy, RedactKeys) && Fillable(Privacy, ExcludedApps)
    ensures Fillable(Privacy, SensitiveSuppression) && Fillable(Privacy, StoreKeyContent)
  {}

  lemma RetentionFillable()
    ensures Fillable(Privacy, PostureConfirmed) && Fillable(Privacy, RetentionDays)
    ensures Fillable(Privacy, TitleRetentionDays) && Fillable(Privacy, MouseMoveRetentionDays)
  {}

  lemma VisibleFillable(windows: bool)
    ensures AllFillable(Visible(windows))
  {
    hide Fillable;
    CaptureFillable(IdleThresholdMs);
    CaptureFillable(ProcessFilter);
    SmallFillable();
    RecordFillable();
    PrivacyFillable();
    RetentionFillable();
  }

  /** The document a configuration is upgraded to. */
  function Upgraded(doc: Doc, windows: bool): Doc {
    VisibleFillable(windows);
    Fill(doc, doc, Visible(windows))
  }

  const BEFORE_RECORD: seq<(Section, Key)> :=
    [(Capture, Foreground), (Capture, Windows), (Capture, Keyboard), (Capture, Mouse), (Capture, System), (Capture, Idle),
     (Capture, IdleThresholdMs), (Capture, ProcessFilter), (Hotkey, PauseResume), (Writer, FlushIntervalMs), (Writer, BatchSize)]

  const AFTER_RECORD: seq<(Section, Key)> :=
    [(Privacy, RedactTitles), (Privacy, RedactKeys), (Privacy, ExcludedApps), (Privacy, SensitiveSuppression),
     (Privacy, StoreKeyContent), (Privacy, PostureConfirmed), (Privacy, RetentionDays), (Privacy, TitleRetentionDays),
     (Privacy, MouseMoveRetentionDays), (Onboarding, WelcomeDismissed)]

  /** Every key a serialized configuration carries. */
  function Written(windows: bool): seq<(Section, Key)> { BEFORE_RECORD + RecordKeys(windows) + AFTER_RECORD }

  lemma WrittenFillable(windows: bool)
    ensures AllFillable(Written(windows))
  {
    hide Fillable;
    CaptureFillable(Foreground);
    CaptureFillable(Windows);
    CaptureFillable(Keyboard);
    CaptureFillable(Mouse);
    CaptureFillable(System);
    CaptureFillable(Idle);
    CaptureFillable(IdleThresholdMs);
    CaptureFillable(ProcessFilter);
    SmallFillable();
    RecordFillable();
    PrivacyFillable();
    RetentionFillable();
  }

  /** A serialized default configuration. */
  function DefaultDoc(windows: bool): Doc {
    WrittenFillable(windows);
    Fill(map[], map[], Written(windows))
  }

  /** What a genuinely fresh install writes. */
  function FreshDoc(windows: bool): Doc {
    Put(Put(Put(DefaultDoc(windows), Privacy, PostureConfirmed, Bool(false)), Privacy, TitleRetentionDays, Int(30)),
        Onboarding, WelcomeDismissed, Bool(false))
  }

  // ------------------------------------------------------------ the editor

  /** A document being edited in place. */
  class Editor {
    var document: Doc

    constructor (doc: Doc)
      ensures document == doc
    {
      document := doc;
    }

    method EnsureSection(s: Section)
      modifies this
      ensures document == EnsureTable(old(document), s)
    {
      if s !in document || !document[s].Table? {
        document := document[s := Table(map[])];
      }
    }

    method InsertMissingValue(s: Section, k: Key, v: Value) returns (inserted: bool)
      modifies this
      ensures document == InsertMissing(old(document), s, k, v)
      ensures inserted <==> Get(old(document), s, k).None?
    {
      EnsureSection(s);
      var keys := document[s].keys;
      if k in keys { return false; }
      document := document[s := Table(keys[k := v])];
      inserted := true;
    }

    /** `insert_visible_defaults`, with the configuration read from the document. */
    method InsertVisibleDefaults(windows: bool) returns (changed: bool)
      modifies this
      ensures document == Upgraded(old(document), windows)
      ensures changed <==> document != old(document)
    {
      hide InsertMissing, Get, Meaning, Fill, Visible, Fillable;
      changed := false;
      VisibleFillable(windows);
      var keys := Visible(windows);
      var config := document;
      FillNothing(config, config);
      assert keys[..0] == [];
      for j := 0 to |keys|
        invariant document == Fill(config, config, keys[..j])
        invariant if changed then Grew(document, config) else document == config
      {
        FillStep(config, config, keys, j);
        var (s, k) := keys[j];
        FillableAt(keys, j);
        GrowthStays(document, config, s, k, Meaning(config, s, k));
        var inserted := InsertMissingValue(s, k, Meaning(config, s, k));
        changed := changed || inserted;
      }
      assert keys[..|keys|] == keys;
      if changed { GrewDiffers(document, config); }
    }
  }

  // ------------------------------------------- what editing does to one key

  lemma EnsureGet(doc: Doc, s: Section, s': Section, k': Key)
    ensures Get(EnsureTable(doc, s), s', k') == Get(doc, s', k')
  {}

  /** A write changes its own key and no other. */
  lemma PutGet(doc: Doc, s: Section, k: Key, v: Value, s': Section, k': Key)
    ensures Get(Put(doc, s, k, v), s', k') == if s' == s && k' == k then Some(v) else Get(doc, s', k')
  {
    hide EnsureTable, Assign, Get;
    EnsureGet(doc, s, s', k');
    AssignGet(EnsureTable(doc, s), s, k, v, s', k');
  }

  lemma AssignGet(doc: Doc, s: Section, k: Key, v: Value, s': Section, k': Key)
    requires s in doc && doc[s].Table?
    ensures Get(Assign(doc, s, k, v), s', k') == if s' == s && k' == k then Some(v) else Get(doc, s', k')
  {}

  lemma InsertGet(doc: Doc, s: Section, k: Key, v: Value, s': Section, k': Key)
    ensures Get(InsertMissing(doc, s, k, v), s', k')
      == if s' == s && k' == k && Get(doc, s, k).None? then Some(v) else Get(doc, s', k')
  {
    hide Get, Put, EnsureTable;
    EnsureGet(doc, s, s', k');
    EnsureGet(doc, s, s, k);
    PutGet(doc, s, k, v, s', k');
  }

  lemma InsertPresent(doc: Doc, s: Section, k: Key, v: Value)
    requires Get(doc, s, k).Some?
    ensures InsertMissing(doc, s, k, v) == doc
  {}

  /** Some key is there now that was not before. */
  ghost predicate Grew(after: Doc, before: Doc) { exists s, k :: Get(before, s, k).None? && Get(after, s, k).Some? }

  lemma GrewDiffers(after: Doc, before: Doc)
    requires Grew(after, before)
    ensures after != before
  {}

  lemma GrowthStays(doc: Doc, before: Doc, s: Section, k: Key, v: Value)
    ensures Grew(doc, before) ==> Grew(InsertMissing(doc, s, k, v), before)
    ensures Get(doc, s, k).None? ==> Get(InsertMissing(doc, s, k, v), s, k).Some?
    ensures Get(doc, s, k).None? && doc == before ==> Grew(InsertMissing(doc, s, k, v), before)
    ensures Get(doc, s, k).Some? ==> InsertMissing(doc, s, k, v) == doc
  {
    hide Get, InsertMissing;
    InsertGet(doc, s, k, v, s, k);
    if Get(doc, s, k).Some? { InsertPresent(doc, s, k, v); }
    if Grew(doc, before) {
      var s', k' :| Get(before, s', k').None? && Get(doc, s', k').Some?;
      InsertGet(doc, s, k, v, s', k');
    }
  }

  lemma FillNothing(doc: Doc, config: Doc)
    ensures Fill(doc, config, []) == doc
  {}

  lemma FillableAt(keys: seq<(Section, Key)>, j: nat)
    requires AllFillable(keys) && j < |keys|
    ensures Fillable(keys[j].0, keys[j].1)
  {}

  lemma FillStep(doc: Doc, config: Doc, keys: seq<(Section, Key)>, j: nat)
    requires AllFillable(keys) && j < |keys|
    ensures var (s, k) := keys[j];
      Fill(doc, config, keys[..j + 1]) == InsertMissing(Fill(doc, config, keys[..j]), s, k, Meaning(config, s, k))
  {
    assert keys[..j + 1][..j] == keys[..j];
  }

  // ------------------------------------------------------------ the upgrade

  /** Inserting a missing key's default changes no meaning and no present key. */
  lemma InsertKeepsMeaning(doc: Doc, s: Section, k: Key, v: Value, s': Section, k': Key)
    requires SettingOf(s, k).Some? && SettingOf(s, k).value.default == Some(v)
    ensures Get(doc, s', k').Some? ==> Get(InsertMissing(doc, s, k, v), s', k') == Get(doc, s', k')
    ensures SettingOf(s', k').Some? ==> Effective(InsertMissing(doc, s, k, v), s', k') == Effective(doc, s', k')
    ensures Get(InsertMissing(doc, s, k, v), s, k).Some?
  {
    hide SettingOf, Get, InsertMissing;
    InsertGet(doc, s, k, v, s', k');
    InsertGet(doc, s, k, v, s, k);
  }

  lemma DefaultTypeOk(s: Section, k: Key)
    requires Fillable(s, k)
    ensures TypeOk(SettingOf(s, k).value.kind, SettingOf(s, k).value.default.value)
  {}

  lemma InsertKeepsParse(doc: Doc, s: Section, k: Key)
    requires Fillable(s, k) && Parses(doc)
    ensures Parses(InsertMissing(doc, s, k, SettingOf(s, k).value.default.value))
  {
    DefaultTypeOk(s, k);
    hide SettingOf, TypeOk;
  }

  /** The document is still what it was, but for defaults written out. */
  ghost predicate Refines(after: Doc, doc: Doc) {
    && Parses(after)
    && (forall s, k | Get(doc, s, k).Some? :: Get(after, s, k) == Get(doc, s, k))
    && (forall s, k | SettingOf(s, k).Some? :: Effective(after, s, k) == Effective(doc, s, k))
  }

  lemma {:induction false} FillRefines(doc: Doc, keys: seq<(Section, Key)>)
    requires AllFillable(keys) && Parses(doc)
    ensures Refines(Fill(doc, doc, keys), doc)
    ensures forall j :: 0 <= j < |keys| ==> Get(Fill(doc, doc, keys), keys[j].0, keys[j].1).Some?
  {
    if keys != [] {
      var n := |keys| - 1;
      var (s, k) := keys[n];
      FillRefines(doc, keys[..n]);
      var before := Fill(doc, doc, keys[..n]);
      RefineStep(before, doc, s, k);
      hide InsertMissing, Get, Refines, SettingOf, Fillable;
      forall j | 0 <= j < |keys| ensures Get(Fill(doc, doc, keys), keys[j].0, keys[j].1).Some? {
        if j < n { assert keys[..n][j] == keys[j]; KeepsKey(before, s, k, Meaning(doc, s, k), keys[j].0, keys[j].1); }
      }
    }
  }

  lemma KeepsKey(doc: Doc, s: Section, k: Key, v: Value, s': Section, k': Key)
    requires Get(doc, s', k').Some?
    ensures Get(InsertMissing(doc, s, k, v), s', k').Some?
  {
    hide Get, InsertMissing;
    InsertGet(doc, s, k, v, s', k');
  }

  lemma RefineStep(before: Doc, doc: Doc, s: Section, k: Key)
    requires Fillable(s, k) && Refines(before, doc)
    ensures Refines(InsertMissing(before, s, k, Meaning(doc, s, k)), doc)
    ensures Get(InsertMissing(before, s, k, Meaning(doc, s, k)), s, k).Some?
  {
    hide SettingOf, InsertMissing;
    var after := InsertMissing(before, s, k, Meaning(doc, s, k));
    if Get(before, s, k).Some? {
      GrowthStays(before, before, s, k, Meaning(doc, s, k));
    } else {
      assert Effective(before, s, k) == Effective(doc, s, k);
      var v := Meaning(doc, s, k);
      assert SettingOf(s, k).value.default == Some(v);
      InsertKeepsParse(before, s, k);
      forall s', k' | Get(doc, s', k').Some? ensures Get(after, s', k') == Get(doc, s', k') {
        InsertKeepsMeaning(before, s, k, v, s', k');
      }
      forall s', k' | SettingOf(s', k').Some? ensures Effective(after, s', k') == Effective(doc, s', k') {
        InsertKeepsMeaning(before, s, k, v, s', k');
      }
      InsertKeepsMeaning(before, s, k, v, s, k);
    }
  }

  /** The upgrade leaves every present key as it was, reads back as the same
      configuration, and writes every visible setting out. */
  lemma UpgradeKeepsMeaning(doc: Doc, windows: bool)
    requires Parses(doc)
    ensures Refines(Upgraded(doc, windows), doc)
    ensures forall j :: 0 <= j < |Visible(windows)| ==>
      Get(Upgraded(doc, windows), Visible(windows)[j].0, Visible(windows)[j].1).Some?
  {
    hide Parses, Refines, Get, Visible, Fill;
    VisibleFillable(windows);
    FillRefines(doc, Visible(windows));
  }

  function DefaultOf(s: Section, k: Key): Option<Value> {
    if SettingOf(s, k).Some? then SettingOf(s, k).value.default else None
  }

  /** Filling an empty document writes the default of each key of the list, and
      nothing else. */
  lemma {:induction false} FillWritesDefaults(keys: seq<(Section, Key)>, s: Section, k: Key)
    requires AllFillable(keys)
    ensures Get(Fill(map[], map[], keys), s, k) == if (s, k) in keys then DefaultOf(s, k) else None
  {
    hide SettingOf, InsertMissing, Get;
    if keys == [] {
      NothingStored(s, k);
    } else {
      var n := |keys| - 1;
      var (s', k') := keys[n];
      FillWritesDefaults(keys[..n], s, k);
      NothingStored(s', k');
      assert keys == keys[..n] + [keys[n]];
      InsertGet(Fill(map[], map[], keys[..n]), s', k', Meaning(map[], s', k'), s, k);
    }
  }

  lemma NothingStored(s: Section, k: Key)
    ensures Get(map[], s, k) == None
  {}

  lemma {:induction false} FillNoop(doc: Doc, config: Doc, keys: seq<(Section, Key)>)
    requires AllFillable(keys) && forall j :: 0 <= j < |keys| ==> Get(doc, keys[j].0, keys[j].1).Some?
    ensures Fill(doc, config, keys) == doc
  {
    hide Fillable, Meaning;
    if keys != [] {
      var n := |keys| - 1;
      FillNoop(doc, config, keys[..n]);
      GrowthStays(doc, doc, keys[n].0, keys[n].1, Meaning(config, keys[n].0, keys[n].1));
    }
  }

  /** Upgrading again changes nothing. */
  lemma UpgradeIsIdempotent(doc: Doc, windows: bool)
    requires Parses(doc)
    ensures Upgraded(Upgraded(doc, windows), windows) == Upgraded(doc, windows)
  {
    hide Parses, Refines, Get, Visible, Fill;
    UpgradeKeepsMeaning(doc, windows);
    VisibleFillable(windows);
    FillNoop(Upgraded(doc, windows), Upgraded(doc, windows), Visible(windows));
  }

  // ------------------------------------------------------- what is shipped

  /** The settings a fresh configuration file is written with. */
  function Shipped(windows: bool, s: Section, k: Key): Option<Value> {
    match s
    case Capture =>
      if k.Foreground? || k.Windows? || k.Keyboard? || k.Mouse? || k.System? || k.Idle? || k.ProcessFilter? then Some(Bool(true))
      else if k.IdleThresholdMs? then Some(Int(180_000)) else None
    case Hotkey => if k.PauseResume? then Some(Text("ctrl+alt+shift+p")) else None
    case Writer => if k.FlushIntervalMs? then Some(Int(250)) else if k.BatchSize? then Some(Int(100)) else None
    case Record =>
      if k.RequestPollIntervalMs? then Some(Int(3_000))
      else if !windows then None
      else if k.SafetyCapMs? then Some(Int(1_800_000))
      else if k.HelperEnabled? then Some(Bool(false))
      else if k.HelperStrategy? then Some(Text("runas"))
      else if k.HelperPath? || k.HelperSigner? then Some(Text("")) else None
    case Privacy =>
      if k.RedactTitles? || k.RedactKeys? || k.ExcludedApps? then Some(Texts([]))
      else if k.SensitiveSuppression? || k.PostureConfirmed? then Some(Bool(true))
      else if k.StoreKeyContent? then Some(Bool(false))
      else if k.RetentionDays? then Some(Int(90))
      else if k.TitleRetentionDays? then Some(Int(0))
      else if k.MouseMoveRetentionDays? then Some(Int(30)) else None
    case Onboarding => if k.WelcomeDismissed? then Some(Bool(true)) else None
    case _ => None
  }

  /** The shipped settings an upgrade does not write into an older file. */
  predicate LeftImplicit(s: Section, k: Key) {
    || (s.Capture? && (k.Foreground? || k.Windows? || k.Keyboard? || k.Mouse? || k.System? || k.Idle?))
    || s.Writer?
    || (s.Privacy? && (k.RedactTitles? || k.RedactKeys?))
  }

  lemma {:induction false} FillGets(doc: Doc, config: Doc, keys: seq<(Section, Key)>, s: Section, k: Key)
    requires AllFillable(keys) && ((s, k) in keys ==> Fillable(s, k))
    ensures Get(Fill(doc, config, keys), s, k) ==
      if Get(doc, s, k).Some? then Get(doc, s, k) else if (s, k) in keys then Some(Meaning(config, s, k)) else None
  {
    hide Meaning, InsertMissing, Get, Fillable;
    if keys != [] {
      var n := |keys| - 1;
      var (s', k') := keys[n];
      FillGets(doc, config, keys[..n], s, k);
      assert keys == keys[..n] + [keys[n]];
      InsertGet(Fill(doc, config, keys[..n]), s', k', Meaning(config, s', k'), s, k);
    }
  }

  lemma ShownIs(s: Section, k: Key)
    ensures (s, k) in SHOWN <==>
      || (s.Capture? && (k.IdleThresholdMs? || k.ProcessFilter?)) || (s.Hotkey? && k.PauseResume?)
      || (s.Privacy? && (k.ExcludedApps? || k.SensitiveSuppression? || k.MouseMoveRetentionDays? || k.StoreKeyContent?
                         || k.PostureConfirmed? || k.TitleRetentionDays? || k.RetentionDays?))
      || (s.Onboarding? && k.WelcomeDismissed?)
  {}

  lemma RecordKeysAre(windows: bool, s: Section, k: Key)
    ensures (s, k) in RecordKeys(windows) <==>
      s.Record? && (k.RequestPollIntervalMs?
        || (windows && (k.SafetyCapMs? || k.HelperEnabled? || k.HelperStrategy? || k.HelperPath? || k.HelperSigner?)))
  {}

  lemma BeforeRecordIs(s: Section, k: Key)
    ensures (s, k) in BEFORE_RECORD <==>
      || (s.Capture? && (k.Foreground? || k.Windows? || k.Keyboard? || k.Mouse? || k.System? || k.Idle? || k.IdleThresholdMs?
                         || k.ProcessFilter?))
      || (s.Hotkey? && k.PauseResume?) || (s.Writer? && (k.FlushIntervalMs? || k.BatchSize?))
  {}

  lemma AfterRecordIs(s: Section, k: Key)
    ensures (s, k) in AFTER_RECORD <==>
      || (s.Privacy? && (k.RedactTitles? || k.RedactKeys? || k.ExcludedApps? || k.SensitiveSuppression? || k.StoreKeyContent?
                         || k.PostureConfirmed? || k.RetentionDays? || k.TitleRetentionDays? || k.MouseMoveRetentionDays?))
      || (s.Onboarding? && k.WelcomeDismissed?)
  {}

  lemma DefaultIsShipped(windows: bool, s: Section, k: Key)
    requires Shipped(windows, s, k).Some?
    ensures SettingOf(s, k).Some? && SettingOf(s, k).value.default == Shipped(windows, s, k)
  {}

  lemma VisibleIs(windows: bool, s: Section, k: Key)
    ensures (s, k) in Visible(windows) <==> Shipped(windows, s, k).Some? && !LeftImplicit(s, k)
  {
    hide SHOWN, RecordKeys;
    ShownIs(s, k);
    RecordKeysAre(windows, s, k);
    assert (s, k) in Visible(windows) <==> (s, k) in SHOWN || (s, k) in RecordKeys(windows);
    hide Visible;
  }

  lemma WrittenIn(windows: bool, s: Section, k: Key)
    ensures (s, k) in Written(windows) <==> (s, k) in BEFORE_RECORD || (s, k) in RecordKeys(windows) || (s, k) in AFTER_RECORD
  {
    hide BEFORE_RECORD, RecordKeys, AFTER_RECORD;
  }

  lemma WrittenIs(windows: bool, s: Section, k: Key)
    ensures (s, k) in Written(windows) <==> Shipped(windows, s, k).Some?
  {
    hide Written, BEFORE_RECORD, RecordKeys, AFTER_RECORD;
    WrittenIn(windows, s, k);
    BeforeRecordIs(s, k);
    RecordKeysAre(windows, s, k);
    AfterRecordIs(s, k);
  }

  lemma FillableIn(keys: seq<(Section, Key)>, s: Section, k: Key)
    requires AllFillable(keys) && (s, k) in keys
    ensures Fillable(s, k)
  {
    hide Fillable;
    var j :| 0 <= j < |keys| && keys[j] == (s, k);
  }

  /** Every key of an upgraded document: what was there stays, and what was missing is
      written with its shipped value unless the upgrade leaves it implicit. */
  lemma UpgradeWrites(doc: Doc, windows: bool, s: Section, k: Key)
    ensures Get(Upgraded(doc, windows), s, k) ==
      if Get(doc, s, k).Some? then Get(doc, s, k) else if LeftImplicit(s, k) then None else Shipped(windows, s, k)
  {
    hide Visible, Shipped, LeftImplicit, Fill, SettingOf, Get, Fillable;
    VisibleFillable(windows);
    VisibleIs(windows, s, k);
    if (s, k) in Visible(windows) {
      FillableIn(Visible(windows), s, k);
      DefaultIsShipped(windows, s, k);
    }
    FillGets(doc, doc, Visible(windows), s, k);
  }

  /** A fresh file holds the shipped settings and nothing else. */
  lemma DefaultsAreShipped(windows: bool, s: Section, k: Key)
    ensures Get(DefaultDoc(windows), s, k) == Shipped(windows, s, k)
  {
    hide Get, Fill, Written, AllFillable, Shipped, SettingOf;
    WrittenFillable(windows);
    WrittenIs(windows, s, k);
    if (s, k) in Written(windows) { DefaultIsShipped(windows, s, k); }
    FillWritesDefaults(Written(windows), s, k);
  }

  // ------------------------------------------------------- what is readable

  /** A setting takes what its shipped value is like: the database path is text, counts
      are not negative and there is one helper strategy. Any other key takes anything. */
  predicate Fits(s: Section, k: Key, v: Value) {
    match Shipped(true, s, k)
    case None => s.Storage? && k.DbPath? ==> v.Text?
    case Some(Bool(_)) => v.Bool?
    case Some(Int(_)) => v.Int? && v.n >= 0
    case Some(Text(_)) => if s.Record? && k.HelperStrategy? then v == Text("runas") else v.Text?
    case Some(Texts(_)) => v.Texts?
    case Some(Other(_)) => true
  }

  predicate FitsKind(s: Section, k: Key, v: Value) { SettingOf(s, k).Some? ==> TypeOk(SettingOf(s, k).value.kind, v) }

  lemma PrivacyFits(k: Key, v: Value)
    ensures Fits(Privacy, k, v) <==> FitsKind(Privacy, k, v)
  {}

  lemma RecordFits(k: Key, v: Value)
    ensures Fits(Record, k, v) <==> FitsKind(Record, k, v)
  {}

  lemma OtherFits(s: Section, k: Key, v: Value)
    requires !s.Privacy? && !s.Record?
    ensures Fits(s, k, v) <==> FitsKind(s, k, v)
  {}

  lemma FitsIs(s: Section, k: Key, v: Value)
    ensures Fits(s, k, v) <==> FitsKind(s, k, v)
  {
    hide *;
    if s.Privacy? { PrivacyFits(k, v); } else if s.Record? { RecordFits(k, v); } else { OtherFits(s, k, v); }
  }

  lemma KeysFit(s: Section, keys: map<Key, Value>)
    ensures KeysParse(s, keys) <==> (forall k | k in keys :: Fits(s, k, keys[k]))
  {
    hide Fits, SettingOf, TypeOk;
    forall k | k in keys ensures Fits(s, k, keys[k]) <==> FitsKind(s, k, keys[k]) { FitsIs(s, k, keys[k]); }
  }

  /** A document reads as a configuration exactly when each of the seven sections that
      it has is a table whose every value fits its key. */
  lemma ParsesIff(doc: Doc)
    ensures Parses(doc) <==>
      (forall s | s in doc && s in {Capture, Hotkey, Storage, Writer, Record, Privacy, Onboarding} ::
         doc[s].Table? && (forall k | k in doc[s].keys :: Fits(s, k, doc[s].keys[k])))
  {
    hide Fits, KeysParse;
    forall s | s in doc && doc[s].Table? ensures KeysParse(s, doc[s].keys) <==> (forall k | k in doc[s].keys :: Fits(s, k, doc[s].keys[k])) {
      KeysFit(s, doc[s].keys);
    }
  }
}
