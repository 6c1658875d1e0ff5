/** The locked writers of the configuration file, one at a time and interleaved. */
module ConfigWriters {

  import opened Config
  import opened Wrappers

  datatype PrivacyChoice = PrivacySettings(suppression: bool, titles: seq<string>, keys: seq<string>, apps: seq<string>,
                                      titleDays: nat, mouseMoveDays: nat)

  type Stream = k: Key | k in {Foreground, Windows, Keyboard, Mouse, System, Idle} witness Foreground

  /** The operations that hold the lock. */
  datatype Write =
    | Load
    | StoreContent(enabled: bool)
    | CaptureToggle(stream: Stream, enabled: bool)
    | DismissWelcome
    | SavePrivacy(settings: PrivacyChoice)
    | SphereOverlay(enabled: bool)

  const I64_MAX := 0x7FFF_FFFF_FFFF_FFFF

  function Days(n: nat): Value { Int(if n > I64_MAX then I64_MAX else n) }

  /** The document a tray writer edits: it refuses one that is no configuration. */
  function LoadOrDefault(file: File, windows: bool): Option<Doc> {
    match file
    case Absent => Some(DefaultDoc(windows))
    case Garbage => None
    case Document(doc) => if Parses(doc) then Some(doc) else None
  }

  /** The document a dashboard writer edits: any TOML will do. */
  function LoadOrEmpty(file: File): Option<Doc> {
    match file
    case Absent => Some(map[])
    case Garbage => None
    case Document(doc) => Some(doc)
  }

  function PutPrivacy(doc: Doc, p: PrivacyChoice): Doc {
    var d1 := Put(doc, Privacy, SensitiveSuppression, Bool(p.suppression));
    var d2 := Put(d1, Privacy, RedactTitles, Texts(p.titles));
    var d3 := Put(d2, Privacy, RedactKeys, Texts(p.keys));
    var d4 := Put(d3, Privacy, ExcludedApps, Texts(p.apps));
    var d5 := Put(d4, Privacy, TitleRetentionDays, Days(p.titleDays));
    Put(d5, Privacy, MouseMoveRetentionDays, Days(p.mouseMoveDays))
  }

  /** What an operation leaves in the file; one that refuses or has nothing to
      do leaves it as it was. */
  function Apply(w: Write, file: File, windows: bool): File {
    match w
    case Load => (
      match file
      case Absent => Document(FreshDoc(windows))
      case Garbage => file
      case Document(doc) => if Parses(doc) then Document(Upgraded(doc, windows)) else file)
    case StoreContent(enabled) =>
      var loaded := LoadOrDefault(file, windows);
      if loaded.None? then file
      else Document(Put(Put(loaded.value, Privacy, StoreKeyContent, Bool(enabled)), Privacy, PostureConfirmed, Bool(true)))
    case CaptureToggle(stream, enabled) =>
      var loaded := LoadOrDefault(file, windows);
      if loaded.None? then file else Document(Put(loaded.value, Capture, stream, Bool(enabled)))
    case DismissWelcome =>
      var loaded := LoadOrDefault(file, windows);
      if loaded.None? || (file.Document? && Get(loaded.value, Onboarding, WelcomeDismissed) == Some(Bool(true))) then file
      else Document(Put(loaded.value, Onboarding, WelcomeDismissed, Bool(true)))
    case SavePrivacy(settings) =>
      var loaded := LoadOrEmpty(file);
      if loaded.None? then file else Document(PutPrivacy(loaded.value, settings))
    case SphereOverlay(enabled) =>
      var loaded := LoadOrEmpty(file);
      if loaded.None? then file else Document(Put(loaded.value, Analytics, SphereLabels, Bool(enabled)))
  }

  // ---------------------------------------------- what one write leaves alone

  /** The keys an operation sets outright. */
  predicate Touches(w: Write, s: Section, k: Key) {
    match w
    case Load => false
    case StoreContent(_) => s == Privacy && (k == StoreKeyContent || k == PostureConfirmed)
    case CaptureToggle(stream, _) => s == Capture && k == stream
    case DismissWelcome => s == Onboarding && k == WelcomeDismissed
    case SavePrivacy(_) =>
      s == Privacy && k in {SensitiveSuppression, RedactTitles, RedactKeys, ExcludedApps, TitleRetentionDays, MouseMoveRetentionDays}
    case SphereOverlay(_) => s == Analytics && k == SphereLabels
  }

  function Stored(file: File, s: Section, k: Key): Option<Value> { if file.Document? then Get(file.doc, s, k) else None }

  /** What a privacy save stores under one of its keys. */
  function Saved(p: PrivacyChoice, k: Key): Value {
    match k
    case SensitiveSuppression => Bool(p.suppression)
    case RedactTitles => Texts(p.titles)
    case RedactKeys => Texts(p.keys)
    case ExcludedApps => Texts(p.apps)
    case TitleRetentionDays => Days(p.titleDays)
    case _ => Days(p.mouseMoveDays)
  }

  /** What an operation stores under a key it sets. */
  function NewValue(w: Write, k: Key): Value {
    match w
    case Load => Bool(true)
    case StoreContent(enabled) => Bool(if k == StoreKeyContent then enabled else true)
    case CaptureToggle(_, enabled) => Bool(enabled)
    case DismissWelcome => Bool(true)
    case SavePrivacy(settings) => Saved(settings, k)
    case SphereOverlay(enabled) => Bool(enabled)
  }

  function PutTexts(doc: Doc, p: PrivacyChoice): Doc {
    var d1 := Put(doc, Privacy, SensitiveSuppression, Bool(p.suppression));
    var d2 := Put(d1, Privacy, RedactTitles, Texts(p.titles));
    Put(d2, Privacy, RedactKeys, Texts(p.keys))
  }

  lemma PutTextsAt(doc: Doc, p: PrivacyChoice, s: Section, k: Key)
    ensures Get(PutTexts(doc, p), s, k)
      == if s == Privacy && k in {SensitiveSuppression, RedactTitles, RedactKeys} then Some(Saved(p, k)) else Get(doc, s, k)
  {
    hide Put, Get, Days;
    var d1 := Put(doc, Privacy, SensitiveSuppression, Bool(p.suppression));
    var d2 := Put(d1, Privacy, RedactTitles, Texts(p.titles));
    PutGet(doc, Privacy, SensitiveSuppression, Bool(p.suppression), s, k);
    PutGet(d1, Privacy, RedactTitles, Texts(p.titles), s, k);
    PutGet(d2, Privacy, RedactKeys, Texts(p.keys), s, k);
  }

  lemma PutPrivacyIs(doc: Doc, p: PrivacyChoice)
    ensures PutPrivacy(doc, p) == Put(Put(Put(PutTexts(doc, p), Privacy, ExcludedApps, Texts(p.apps)),
      Privacy, TitleRetentionDays, Days(p.titleDays)), Privacy, MouseMoveRetentionDays, Days(p.mouseMoveDays))
  {
    hide Put, Days;
  }

  lemma PutPrivacyAt(doc: Doc, p: PrivacyChoice, s: Section, k: Key)
    ensures Get(PutPrivacy(doc, p), s, k) == if Touches(SavePrivacy(p), s, k) then Some(Saved(p, k)) else Get(doc, s, k)
  {
    PutPrivacyIs(doc, p);
    PutTextsAt(doc, p, s, k);
    hide Put, Get, Days, PutTexts, PutPrivacy;
    var d3 := PutTexts(doc, p);
    var d4 := Put(d3, Privacy, ExcludedApps, Texts(p.apps));
    var d5 := Put(d4, Privacy, TitleRetentionDays, Days(p.titleDays));
    PutGet(d3, Privacy, ExcludedApps, Texts(p.apps), s, k);
    PutGet(d4, Privacy, TitleRetentionDays, Days(p.titleDays), s, k);
    PutGet(d5, Privacy, MouseMoveRetentionDays, Days(p.mouseMoveDays), s, k);
  }

  /** The operations that read the file as a configuration: loading, and the tray's. */
  predicate Strict(w: Write) { w.Load? || w.StoreContent? || w.CaptureToggle? || w.DismissWelcome? }

  /** An operation refuses text that is no TOML, and a strict one a document that is
      no configuration. */
  predicate Refuses(w: Write, file: File) { file.Garbage? || (Strict(w) && file.Document? && !Parses(file.doc)) }

  /** The document an operation starts from: the file's own, or for a missing file the
      defaults, the fresh install's, or an empty one. */
  function Base(w: Write, file: File, windows: bool): Doc {
    if file.Document? then file.doc
    else if w.Load? then FreshDoc(windows)
    else if Strict(w) then DefaultDoc(windows) else map[]
  }

  /** An operation leaves every key it does not set as it found it, present or missing,
      in the file or in the document that stands for a missing one; only loading an
      existing file may write a missing default out. */
  lemma OthersSame(w: Write, file: File, windows: bool, s: Section, k: Key)
    requires !Touches(w, s, k)
    ensures Refuses(w, file) ==> Apply(w, file, windows) == file
    ensures !Refuses(w, file) && (w.Load? && file.Document? ==> Stored(file, s, k).Some?) ==>
      Stored(Apply(w, file, windows), s, k) == Get(Base(w, file, windows), s, k)
  {
    hide Put, Get, Upgraded, Parses, PutPrivacy, FreshDoc, DefaultDoc, SettingOf;
    if !Refuses(w, file) {
      var doc := Base(w, file, windows);
      match w {
        case Load => if file.Document? { UpgradeKeeps(doc, windows, s, k); }
        case StoreContent(enabled) =>
          PutGet(doc, Privacy, StoreKeyContent, Bool(enabled), s, k);
          PutGet(Put(doc, Privacy, StoreKeyContent, Bool(enabled)), Privacy, PostureConfirmed, Bool(true), s, k);
        case CaptureToggle(stream, enabled) => PutGet(doc, Capture, stream, Bool(enabled), s, k);
        case DismissWelcome => PutGet(doc, Onboarding, WelcomeDismissed, Bool(true), s, k);
        case SavePrivacy(settings) => PutPrivacyAt(doc, settings, s, k);
        case SphereOverlay(enabled) => PutGet(doc, Analytics, SphereLabels, Bool(enabled), s, k);
      }
    }
  }

  lemma StaysStored(w: Write, file: File, windows: bool, s: Section, k: Key)
    requires !Touches(w, s, k) && Stored(file, s, k).Some?
    ensures Stored(Apply(w, file, windows), s, k) == Stored(file, s, k)
  {
    hide Touches, Apply, Refuses;
    OthersSame(w, file, windows, s, k);
  }

  /** Every key an operation sets holds the new value afterwards, unless the operation
      refuses; then it holds what it held. */
  lemma SetsItsKeys(w: Write, file: File, windows: bool, s: Section, k: Key)
    requires Touches(w, s, k)
    ensures Stored(Apply(w, file, windows), s, k) == if Refuses(w, file) then Stored(file, s, k) else Some(NewValue(w, k))
  {
    hide Put, Get, Upgraded, Parses, PutPrivacy, FreshDoc, DefaultDoc, Saved;
    if !Refuses(w, file) {
      var doc := Base(w, file, windows);
      match w {
        case StoreContent(enabled) =>
          PutGet(doc, Privacy, StoreKeyContent, Bool(enabled), s, k);
          PutGet(Put(doc, Privacy, StoreKeyContent, Bool(enabled)), Privacy, PostureConfirmed, Bool(true), s, k);
        case CaptureToggle(stream, enabled) => PutGet(doc, Capture, stream, Bool(enabled), s, k);
        case DismissWelcome => PutGet(doc, Onboarding, WelcomeDismissed, Bool(true), s, k);
        case SavePrivacy(settings) => PutPrivacyAt(doc, settings, s, k);
        case SphereOverlay(enabled) => PutGet(doc, Analytics, SphereLabels, Bool(enabled), s, k);
      }
    }
  }

  /** The days a file can hold. */
  function Capped(days: nat): int { if days < 9_223_372_036_854_775_807 then days else 9_223_372_036_854_775_807 }

  /** What a privacy save was asked to store under a key. */
  function Chosen(p: PrivacyChoice, k: Key): Option<Value> {
    match k
    case SensitiveSuppression => Some(Bool(p.suppression))
    case RedactTitles => Some(Texts(p.titles))
    case RedactKeys => Some(Texts(p.keys))
    case ExcludedApps => Some(Texts(p.apps))
    case TitleRetentionDays => Some(Int(Capped(p.titleDays)))
    case MouseMoveRetentionDays => Some(Int(Capped(p.mouseMoveDays)))
    case _ => None
  }

  /** A privacy save that does not refuse stores each of its six choices. */
  lemma StoresPrivacy(p: PrivacyChoice, file: File, windows: bool, k: Key)
    requires !Refuses(SavePrivacy(p), file) && Chosen(p, k).Some?
    ensures Stored(Apply(SavePrivacy(p), file, windows), Privacy, k) == Chosen(p, k)
  {
    hide Apply, Stored, Refuses;
    SetsItsKeys(SavePrivacy(p), file, windows, Privacy, k);
  }

  /** So does every other operation that does not refuse. */
  lemma StoresWhatWasAsked(file: File, windows: bool, stream: Stream, enabled: bool)
    ensures !Refuses(StoreContent(enabled), file) ==>
      var after := Apply(StoreContent(enabled), file, windows);
      && Stored(after, Privacy, StoreKeyContent) == Some(Bool(enabled))
      && Stored(after, Privacy, PostureConfirmed) == Some(Bool(true))
    ensures !Refuses(CaptureToggle(stream, enabled), file) ==>
      Stored(Apply(CaptureToggle(stream, enabled), file, windows), Capture, stream) == Some(Bool(enabled))
    ensures !Refuses(DismissWelcome, file) ==>
      Stored(Apply(DismissWelcome, file, windows), Onboarding, WelcomeDismissed) == Some(Bool(true))
    ensures !Refuses(SphereOverlay(enabled), file) ==>
      Stored(Apply(SphereOverlay(enabled), file, windows), Analytics, SphereLabels) == Some(Bool(enabled))
  {
    hide Apply, Stored, Refuses;
    SetsItsKeys(StoreContent(enabled), file, windows, Privacy, StoreKeyContent);
    SetsItsKeys(StoreContent(enabled), file, windows, Privacy, PostureConfirmed);
    SetsItsKeys(CaptureToggle(stream, enabled), file, windows, Capture, stream);
    SetsItsKeys(DismissWelcome, file, windows, Onboarding, WelcomeDismissed);
    SetsItsKeys(SphereOverlay(enabled), file, windows, Analytics, SphereLabels);
  }

  /** The document that stands for a missing file holds the shipped settings, and for a
      fresh install three keys of its own. */
  lemma MissingFileHolds(windows: bool, s: Section, k: Key)
    ensures Get(DefaultDoc(windows), s, k) == Shipped(windows, s, k)
    ensures Get(FreshDoc(windows), s, k) ==
      if s == Privacy && k == PostureConfirmed then Some(Bool(false))
      else if s == Privacy && k == TitleRetentionDays then Some(Int(30))
      else if s == Onboarding && k == WelcomeDismissed then Some(Bool(false))
      else Get(DefaultDoc(windows), s, k)
  {
    DefaultsAreShipped(windows, s, k);
    hide Put, Get, Shipped, DefaultDoc;
    var d := DefaultDoc(windows);
    var d1 := Put(d, Privacy, PostureConfirmed, Bool(false));
    var d2 := Put(d1, Privacy, TitleRetentionDays, Int(30));
    PutGet(d, Privacy, PostureConfirmed, Bool(false), s, k);
    PutGet(d1, Privacy, TitleRetentionDays, Int(30), s, k);
    PutGet(d2, Onboarding, WelcomeDismissed, Bool(false), s, k);
  }

  /** Loading writes a missing file with the fresh install's settings, and into a file that
      reads as a configuration every missing setting that is to be visible. */
  lemma LoadingWrites(file: File, windows: bool, s: Section, k: Key)
    requires !Refuses(Load, file)
    ensures Stored(Apply(Load, file, windows), s, k) ==
      if file.Absent? then
        if s == Privacy && k == PostureConfirmed then Some(Bool(false))
        else if s == Privacy && k == TitleRetentionDays then Some(Int(30))
        else if s == Onboarding && k == WelcomeDismissed then Some(Bool(false))
        else Shipped(windows, s, k)
      else if Stored(file, s, k).Some? then Stored(file, s, k)
      else if LeftImplicit(s, k) then None
      else Shipped(windows, s, k)
  {
    hide FreshDoc, Upgraded, Parses, Get, Shipped, LeftImplicit;
    if file.Absent? { MissingFileHolds(windows, s, k); } else { UpgradeWrites(file.doc, windows, s, k); }
  }

  lemma UpgradeKeeps(doc: Doc, windows: bool, s: Section, k: Key)
    requires Parses(doc)
    ensures Get(doc, s, k).Some? ==> Get(Upgraded(doc, windows), s, k) == Get(doc, s, k)
    ensures Parses(Upgraded(doc, windows))
    ensures SettingOf(s, k).Some? ==> Effective(Upgraded(doc, windows), s, k) == Effective(doc, s, k)
  {
    hide Parses, Get, Upgraded, Visible, SettingOf;
    UpgradeKeepsMeaning(doc, windows);
  }

  // --------------------------------------------------- flags that only rise

  /** What `read_first_run_welcome_dismissed` answers. */
  predicate WelcomeGone(file: File) {
    var stored := Stored(file, Onboarding, WelcomeDismissed);
    stored.Some? && stored.value.Bool? ==> stored.value.b
  }

  /** What loading the file makes of the posture flag. */
  predicate PostureSet(file: File) {
    match file
    case Absent => false
    case Garbage => true
    case Document(doc) => Parses(doc) ==> Effective(doc, Privacy, PostureConfirmed) != Some(Bool(false))
  }

  lemma WelcomeDefault(doc: Doc, windows: bool)
    requires Parses(doc) && Get(doc, Onboarding, WelcomeDismissed).None?
    ensures Get(Upgraded(doc, windows), Onboarding, WelcomeDismissed) != Some(Bool(false))
    ensures Effective(doc, Onboarding, WelcomeDismissed) == Some(Bool(true))
  {
    hide Get, Upgraded, Parses;
    UpgradeKeeps(doc, windows, Onboarding, WelcomeDismissed);
  }

  /** Once the file exists, a dismissed welcome is never armed again, whatever
      is written and however the file was edited by hand. */
  lemma WelcomeStaysGone(w: Write, file: File, windows: bool)
    requires !file.Absent? && WelcomeGone(file)
    ensures !Apply(w, file, windows).Absent? && WelcomeGone(Apply(w, file, windows))
  {
    hide Get, Upgraded, Parses, Put, PutPrivacy, FreshDoc, DefaultDoc;
    var s, k := Onboarding, WelcomeDismissed;
    if Touches(w, s, k) {
      SetsItsKeys(w, file, windows, s, k);
    } else {
      OthersSame(w, file, windows, s, k);
      if w.Load? && file.Document? && Parses(file.doc) && Get(file.doc, s, k).None? { WelcomeDefault(file.doc, windows); }
    }
  }

  lemma PutParses(doc: Doc, s: Section, k: Key, v: Value)
    requires Parses(doc) && (SettingOf(s, k).Some? ==> TypeOk(SettingOf(s, k).value.kind, v))
    ensures Parses(Put(doc, s, k, v))
  {
    hide SettingOf, TypeOk;
  }

  lemma PrivacyTypes(p: PrivacyChoice)
    ensures SettingOf(Privacy, SensitiveSuppression).value.kind == ABool && SettingOf(Privacy, RedactTitles).value.kind == ATexts
    ensures SettingOf(Privacy, RedactKeys).value.kind == ATexts && SettingOf(Privacy, ExcludedApps).value.kind == ATexts
  {}

  lemma DaysTypes(n: nat)
    ensures SettingOf(Privacy, TitleRetentionDays) == Some(Setting(ACount, Some(Int(0)))) && TypeOk(ACount, Days(n))
    ensures SettingOf(Privacy, MouseMoveRetentionDays) == Some(Setting(ACount, Some(Int(30))))
  {}

  lemma PutPrivacyParses(doc: Doc, p: PrivacyChoice)
    requires Parses(doc)
    ensures Parses(PutPrivacy(doc, p))
  {
    PrivacyTypes(p);
    DaysTypes(p.titleDays);
    DaysTypes(p.mouseMoveDays);
    hide Parses, SettingOf, Put, Days;
    var d1 := Put(doc, Privacy, SensitiveSuppression, Bool(p.suppression));
    var d2 := Put(d1, Privacy, RedactTitles, Texts(p.titles));
    var d3 := Put(d2, Privacy, RedactKeys, Texts(p.keys));
    var d4 := Put(d3, Privacy, ExcludedApps, Texts(p.apps));
    var d5 := Put(d4, Privacy, TitleRetentionDays, Days(p.titleDays));
    PutParses(doc, Privacy, SensitiveSuppression, Bool(p.suppression));
    PutParses(d1, Privacy, RedactTitles, Texts(p.titles));
    PutParses(d2, Privacy, RedactKeys, Texts(p.keys));
    PutParses(d3, Privacy, ExcludedApps, Texts(p.apps));
    PutParses(d4, Privacy, TitleRetentionDays, Days(p.titleDays));
    PutParses(d5, Privacy, MouseMoveRetentionDays, Days(p.mouseMoveDays));
  }

  lemma FlagTypes(stream: Stream)
    ensures SettingOf(Privacy, StoreKeyContent) == Some(Setting(ABool, Some(Bool(false))))
    ensures SettingOf(Privacy, PostureConfirmed) == Some(Setting(ABool, Some(Bool(true))))
    ensures SettingOf(Capture, stream) == Some(Setting(ABool, Some(Bool(true))))
    ensures SettingOf(Onboarding, WelcomeDismissed) == Some(Setting(ABool, Some(Bool(true))))
    ensures SettingOf(Analytics, SphereLabels) == None
  {}

  lemma DefaultParses(windows: bool)
    ensures Parses(DefaultDoc(windows)) && Parses(FreshDoc(windows))
  {
    FlagTypes(Foreground);
    DaysTypes(30);
    WrittenFillable(windows);
    EmptyParses();
    hide Parses, SettingOf, Put, Fill, Written;
    FillRefines(map[], Written(windows));
    var d := DefaultDoc(windows);
    var d1 := Put(d, Privacy, PostureConfirmed, Bool(false));
    var d2 := Put(d1, Privacy, TitleRetentionDays, Int(30));
    PutParses(d, Privacy, PostureConfirmed, Bool(false));
    PutParses(d1, Privacy, TitleRetentionDays, Int(30));
    PutParses(d2, Onboarding, WelcomeDismissed, Bool(false));
  }

  lemma EmptyParses()
    ensures Parses(map[])
  {}

  lemma StrictParses(w: Write, file: File, windows: bool)
    requires Strict(w) && !w.Load? && !Refuses(w, file) && Parses(Base(w, file, windows))
    ensures var after := Apply(w, file, windows); after.Document? && Parses(after.doc)
  {
    FlagTypes(if w.CaptureToggle? then w.stream else Foreground);
    hide Parses, SettingOf, Put, DefaultDoc, FreshDoc, Get;
    var d := Base(w, file, windows);
    match w {
      case StoreContent(enabled) =>
        PutParses(d, Privacy, StoreKeyContent, Bool(enabled));
        PutParses(Put(d, Privacy, StoreKeyContent, Bool(enabled)), Privacy, PostureConfirmed, Bool(true));
      case CaptureToggle(stream, enabled) => PutParses(d, Capture, stream, Bool(enabled));
      case DismissWelcome => PutParses(d, Onboarding, WelcomeDismissed, Bool(true));
    }
  }

  lemma LooseParses(w: Write, file: File, windows: bool)
    requires !Strict(w) && !Refuses(w, file) && Parses(Base(w, file, windows))
    ensures var after := Apply(w, file, windows); after.Document? && Parses(after.doc)
  {
    hide Parses, SettingOf, Put, PutPrivacy, DefaultDoc, FreshDoc;
    var d := Base(w, file, windows);
    match w {
      case SavePrivacy(settings) => PutPrivacyParses(d, settings);
      case SphereOverlay(enabled) => OverlayNeverMends(d, Bool(enabled));
    }
  }

  lemma LoadParses(file: File, windows: bool)
    requires !Refuses(Load, file) && Parses(Base(Load, file, windows))
    ensures var after := Apply(Load, file, windows); after.Document? && Parses(after.doc)
  {
    hide Parses, Upgraded, DefaultDoc, FreshDoc;
    if file.Document? { UpgradeKeeps(file.doc, windows, Privacy, PostureConfirmed); }
  }

  /** A file that reads as a configuration, or none at all, is never made unreadable. */
  lemma WritesParse(w: Write, file: File, windows: bool)
    requires file.Document? ==> Parses(file.doc)
    requires !file.Garbage?
    ensures var after := Apply(w, file, windows); after.Document? && Parses(after.doc)
  {
    DefaultParses(windows);
    EmptyParses();
    hide Parses, Apply, DefaultDoc, FreshDoc;
    if w.Load? { LoadParses(file, windows); }
    else if Strict(w) { StrictParses(w, file, windows); }
    else { LooseParses(w, file, windows); }
  }

  // ---------------------------------------------- what a save can mend

  /** A key is well typed, or no setting. */
  predicate KeyOk(doc: Doc, s: Section, k: Key) {
    Get(doc, s, k).Some? && SettingOf(s, k).Some? ==> TypeOk(SettingOf(s, k).value.kind, Get(doc, s, k).value)
  }

  predicate SectionOk(doc: Doc, s: Section) { s in doc && KnownSection(s) ==> doc[s].Table? }

  lemma ParsesByKeys(doc: Doc)
    ensures Parses(doc) <==> (forall s :: SectionOk(doc, s)) && (forall s, k :: KnownSection(s) ==> KeyOk(doc, s, k))
  {
    if (forall s :: SectionOk(doc, s)) && (forall s, k :: KnownSection(s) ==> KeyOk(doc, s, k)) {
      forall s | s in doc && KnownSection(s) ensures doc[s].Table? && KeysParse(s, doc[s].keys) {
        assert SectionOk(doc, s);
        forall k | k in doc[s].keys && SettingOf(s, k).Some? ensures TypeOk(SettingOf(s, k).value.kind, doc[s].keys[k]) {
          assert KeyOk(doc, s, k);
        }
      }
    }
  }

  predicate IsSaved(s: Section, k: Key) {
    s == Privacy && k in {SensitiveSuppression, RedactTitles, RedactKeys, ExcludedApps, TitleRetentionDays, MouseMoveRetentionDays}
  }

  /** Every known section is a table, and every ill-typed setting is one that a
      privacy save overwrites. */
  ghost predicate MendableBySave(doc: Doc) {
    (forall s :: SectionOk(doc, s)) && (forall s, k :: KnownSection(s) && !IsSaved(s, k) ==> KeyOk(doc, s, k))
  }

  lemma PutTables(doc: Doc, k: Key, v: Value, s: Section)
    requires Privacy in doc && doc[Privacy].Table?
    ensures Privacy in Put(doc, Privacy, k, v) && Put(doc, Privacy, k, v)[Privacy].Table?
    ensures SectionOk(Put(doc, Privacy, k, v), s) <==> SectionOk(doc, s)
  {}

  lemma PutPrivacyTables(doc: Doc, p: PrivacyChoice, s: Section)
    requires Privacy in doc && doc[Privacy].Table?
    ensures SectionOk(PutPrivacy(doc, p), s) <==> SectionOk(doc, s)
  {
    hide Put, SectionOk, Days;
    var d1 := Put(doc, Privacy, SensitiveSuppression, Bool(p.suppression));
    var d2 := Put(d1, Privacy, RedactTitles, Texts(p.titles));
    var d3 := Put(d2, Privacy, RedactKeys, Texts(p.keys));
    var d4 := Put(d3, Privacy, ExcludedApps, Texts(p.apps));
    var d5 := Put(d4, Privacy, TitleRetentionDays, Days(p.titleDays));
    PutTables(doc, SensitiveSuppression, Bool(p.suppression), s);
    PutTables(d1, RedactTitles, Texts(p.titles), s);
    PutTables(d2, RedactKeys, Texts(p.keys), s);
    PutTables(d3, ExcludedApps, Texts(p.apps), s);
    PutTables(d4, TitleRetentionDays, Days(p.titleDays), s);
    PutTables(d5, MouseMoveRetentionDays, Days(p.mouseMoveDays), s);
  }

  lemma SavedTypes(p: PrivacyChoice, k: Key)
    requires IsSaved(Privacy, k)
    ensures SettingOf(Privacy, k).Some? && TypeOk(SettingOf(Privacy, k).value.kind, Saved(p, k))
  {}

  lemma SavedKeyOk(doc: Doc, p: PrivacyChoice, s: Section, k: Key)
    ensures KeyOk(PutPrivacy(doc, p), s, k) <==> IsSaved(s, k) || KeyOk(doc, s, k)
  {
    hide Get, PutPrivacy, SettingOf, TypeOk, Saved;
    PutPrivacyAt(doc, p, s, k);
    if IsSaved(s, k) { SavedTypes(p, k); }
  }

  /** A privacy save over a document with a privacy table mends it exactly when it is
      mendable. */
  lemma SaveMendsIff(doc: Doc, p: PrivacyChoice)
    requires Privacy in doc && doc[Privacy].Table?
    ensures Parses(PutPrivacy(doc, p)) <==> MendableBySave(doc)
  {
    hide Parses, PutPrivacy, SectionOk, KeyOk, IsSaved;
    ParsesByKeys(PutPrivacy(doc, p));
    forall s ensures SectionOk(PutPrivacy(doc, p), s) <==> SectionOk(doc, s) { PutPrivacyTables(doc, p, s); }
    forall s, k ensures KeyOk(PutPrivacy(doc, p), s, k) <==> IsSaved(s, k) || KeyOk(doc, s, k) { SavedKeyOk(doc, p, s, k); }
  }

  /** The sphere overlay's section is no part of the configuration. */
  lemma OverlayNeverMends(doc: Doc, v: Value)
    ensures Parses(Put(doc, Analytics, SphereLabels, v)) <==> Parses(doc)
  {
    var after := Put(doc, Analytics, SphereLabels, v);
    assert forall s | KnownSection(s) :: (s in after <==> s in doc) && (s in doc ==> after[s] == doc[s]);
    hide KeysParse, Put;
  }

  /** When a confirmed posture comes undone: exactly when a privacy save meets a
      hand-damaged document, which loads with the confirmed default but stores an
      unconfirmed flag, and all the damage is in keys that the save overwrites. */
  lemma PostureUndoneIff(w: Write, file: File, windows: bool)
    requires PostureSet(file)
    ensures !PostureSet(Apply(w, file, windows)) <==>
      w.SavePrivacy? && file.Document? && !Parses(file.doc) && MendableBySave(file.doc)
      && Get(file.doc, Privacy, PostureConfirmed) == Some(Bool(false))
  {
    hide Get, Upgraded, Parses, Put, PutPrivacy, FreshDoc, DefaultDoc, SettingOf, MendableBySave;
    FlagTypes(Foreground);
    var s, k := Privacy, PostureConfirmed;
    if Touches(w, s, k) {
      SetsItsKeys(w, file, windows, s, k);
    } else {
      OthersSame(w, file, windows, s, k);
      if file.Document? {
        match w {
          case Load => if Parses(file.doc) { UpgradeKeeps(file.doc, windows, s, k); }
          case SphereOverlay(enabled) => OverlayNeverMends(file.doc, Bool(enabled));
          case SavePrivacy(settings) =>
            if Parses(file.doc) { PutPrivacyParses(file.doc, settings); }
            StoredInTable(file.doc, s, k);
            if Get(file.doc, s, k).Some? { SaveMendsIff(file.doc, settings); }
          case _ =>
        }
      }
    }
  }

  lemma StoredInTable(doc: Doc, s: Section, k: Key)
    ensures Get(doc, s, k).Some? ==> s in doc && doc[s].Table?
  {}

  /** A fresh install's file whose owner mistyped a setting by hand. */
  function DamagedDoc(): Doc {
    map[Privacy := Table(map[PostureConfirmed := Bool(false), SensitiveSuppression := Text("yes")])]
  }

  lemma DamageIsMendable()
    ensures !Parses(DamagedDoc()) && MendableBySave(DamagedDoc())
    ensures Get(DamagedDoc(), Privacy, PostureConfirmed) == Some(Bool(false))
  {
    var keys := DamagedDoc()[Privacy].keys;
    SettingTypes();
    hide SettingOf;
    assert !KeysParse(Privacy, keys) by { assert SensitiveSuppression in keys && !TypeOk(ABool, keys[SensitiveSuppression]); }
  }

  lemma SettingTypes()
    ensures SettingOf(Privacy, SensitiveSuppression) == Some(Setting(ABool, Some(Bool(true))))
    ensures SettingOf(Privacy, PostureConfirmed) == Some(Setting(ABool, Some(Bool(true))))
  {}

  /** It loads as confirmed, and the dashboard's next privacy save turns that back. */
  lemma MendingUndoesPosture(settings: PrivacyChoice, windows: bool)
    ensures PostureSet(Document(DamagedDoc()))
    ensures !PostureSet(Apply(SavePrivacy(settings), Document(DamagedDoc()), windows))
  {
    DamageIsMendable();
    SettingTypes();
    hide PutPrivacy, SettingOf, DamagedDoc, Parses, MendableBySave, Apply, Get;
    PostureUndoneIff(SavePrivacy(settings), Document(DamagedDoc()), windows);
  }
}
