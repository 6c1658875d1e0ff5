/** The pause-hotkey chord: its printer, its tolerant parser, and the fallback
    that resolves the configured text (`hotkey.rs`). */
module Hotkey {

  import opened Sequences
  import opened Wrappers

  datatype Key =
    | Letter(c: char) | Digit(c: char) | Function(n: nat)
    | Backspace | Delete | Down | End | Enter | Escape | Home | Insert | Left
    | PageDown | PageUp | Pause | Right | Space | Tab | Up

  datatype Chord = Chord(ctrl: bool, alt: bool, shift: bool, win: bool, key: Key)

  predicate ValidKey(k: Key) {
    match k
    case Letter(c) => 'A' <= c <= 'Z'
    case Digit(c) => '0' <= c <= '9'
    case Function(n) => 1 <= n <= 24
    case _ => true
  }

  predicate HasModifier(c: Chord) { c.ctrl || c.alt || c.shift || c.win }

  // -------------------------------------------------------------- text

  function LowerChar(c: char): char { if 'A' <= c <= 'Z' then 'a' + (c - 'A') else c }

  function UpperChar(c: char): char { if 'a' <= c <= 'z' then 'A' + (c - 'a') else c }

  /** Only the 26 letters have a case, 32 code points apart. */
  lemma CasesAre(c: char)
    ensures LowerChar(c) as int == if 65 <= c as int <= 90 then c as int + 32 else c as int
    ensures UpperChar(c) as int == if 97 <= c as int <= 122 then c as int - 32 else c as int
  {}

  function Lower(s: string): (r: string)
    ensures |r| == |s| && forall i :: 0 <= i < |s| ==> r[i] == LowerChar(s[i])
  {
    seq(|s|, i requires 0 <= i < |s| => LowerChar(s[i]))
  }

  /** Unicode White_Space, which `str::trim` strips. */
  predicate White(c: char) {
    || '\U{9}' <= c <= '\U{d}' || c == ' ' || c == '\U{85}' || c == '\U{a0}' || c == '\U{1680}'
    || '\U{2000}' <= c <= '\U{200a}' || c == '\U{2028}' || c == '\U{2029}' || c == '\U{202f}'
    || c == '\U{205f}' || c == '\U{3000}'
  }

  /** The 25 code points with the White_Space property. */
  lemma WhiteSpaces(c: char)
    ensures White(c) <==> c as int in {9, 10, 11, 12, 13, 32, 133, 160, 5760, 8192, 8193, 8194, 8195, 8196, 8197, 8198, 8199, 8200,
                                       8201, 8202, 8232, 8233, 8239, 8287, 12288}
  {}

  function TrimStart(s: string): string { if s != [] && White(s[0]) then TrimStart(s[1..]) else s }

  function TrimEnd(s: string): string { if s != [] && White(s[|s| - 1]) then TrimEnd(s[..|s| - 1]) else s }

  function Trim(s: string): string { TrimEnd(TrimStart(s)) }

  predicate AllWhite(s: string) { forall i :: 0 <= i < |s| ==> White(s[i]) }

  lemma {:induction false} TrimmedStart(s: string) returns (front: string)
    ensures s == front + TrimStart(s) && AllWhite(front) && (TrimStart(s) != [] ==> !White(TrimStart(s)[0]))
  {
    hide White;
    front := [];
    if s != [] && White(s[0]) {
      front := TrimmedStart(s[1..]);
      assert s == [s[0]] + s[1..];
      front := [s[0]] + front;
    }
  }

  lemma {:induction false} TrimmedEnd(s: string) returns (back: string)
    ensures s == TrimEnd(s) + back && AllWhite(back) && (TrimEnd(s) != [] ==> !White(TrimEnd(s)[|TrimEnd(s)| - 1]))
  {
    hide White;
    back := [];
    if s != [] && White(s[|s| - 1]) {
      back := TrimmedEnd(s[..|s| - 1]);
      assert s == s[..|s| - 1] + [s[|s| - 1]];
      back := back + [s[|s| - 1]];
    }
  }

  /** Trimming takes the white space off both ends and nothing else. */
  lemma TrimIs(s: string) returns (front: string, back: string)
    ensures s == front + Trim(s) + back && AllWhite(front) && AllWhite(back)
    ensures Trim(s) != [] ==> !White(Trim(s)[0]) && !White(Trim(s)[|Trim(s)| - 1])
  {
    hide White, TrimStart, TrimEnd;
    front := TrimmedStart(s);
    back := TrimmedEnd(TrimStart(s));
    assert s == front + (Trim(s) + back);
    if Trim(s) != [] { assert TrimStart(s)[0] == Trim(s)[0]; }
  }

  function Split(s: string): (parts: seq<string>)
    ensures parts != []
  {
    if s == [] then [[]]
    else
      var rest := Split(s[1..]);
      if s[0] == '+' then [[]] + rest else [[s[0]] + rest[0]] + rest[1..]
  }

  function Join(parts: seq<string>): string
    requires parts != []
  {
    if |parts| == 1 then parts[0] else parts[0] + "+" + Join(parts[1..])
  }

  /** Splitting cuts at every plus sign and at nothing else. */
  lemma {:induction false} SplitIs(s: string)
    ensures Join(Split(s)) == s && forall i :: 0 <= i < |Split(s)| ==> '+' !in Split(s)[i]
  {
    if s != [] {
      SplitIs(s[1..]);
      var rest := Split(s[1..]);
      assert s == [s[0]] + s[1..];
      if s[0] == '+' {
        assert Split(s)[1..] == rest;
      } else {
        assert Split(s)[1..] == rest[1..];
        assert [s[0]] + (rest[0] + "+" + (if |rest| > 1 then Join(rest[1..]) else "")) ==
               ([s[0]] + rest[0]) + "+" + (if |rest| > 1 then Join(rest[1..]) else "");
      }
    }
  }

  function TrimAll(parts: seq<string>): (r: seq<string>)
    ensures |r| == |parts| && forall i :: 0 <= i < |parts| ==> r[i] == Trim(parts[i])
  {
    seq(|parts|, i requires 0 <= i < |parts| => Trim(parts[i]))
  }

  // ----------------------------------------------------------- printing

  function DigitChar(d: nat): (c: char)
    requires d < 10
    ensures '0' <= c <= '9' && (c - '0') as nat == d
  {
    '0' + d as char
  }

  function Decimal(n: nat): string {
    if n < 10 then [DigitChar(n)] else Decimal(n / 10) + [DigitChar(n % 10)]
  }

  function KeyText(k: Key): string {
    match k
    case Letter(c) => [UpperChar(c)]
    case Digit(c) => [UpperChar(c)]
    case Function(n) => "F" + Decimal(n)
    case Backspace => "Backspace"
    case Delete => "Delete"
    case Down => "Down"
    case End => "End"
    case Enter => "Enter"
    case Escape => "Escape"
    case Home => "Home"
    case Insert => "Insert"
    case Left => "Left"
    case PageDown => "PageDown"
    case PageUp => "PageUp"
    case Pause => "Pause"
    case Right => "Right"
    case Space => "Space"
    case Tab => "Tab"
    case Up => "Up"
  }

  function AddIf<T(!new)>(s: seq<T>, wanted: bool, x: T): (r: seq<T>)
    ensures forall y :: y in r <==> y in s || (wanted && y == x)
  {
    if wanted then s + [x] else s
  }

  function ChordParts(c: Chord, macos: bool): seq<string> {
    var parts := AddIf(AddIf(AddIf([], c.ctrl, "Ctrl"), c.alt, "Alt"), c.shift, "Shift");
    AddIf(parts, c.win, if macos then "Cmd" else "Win") + [KeyText(c.key)]
  }

  lemma {:induction false} JoinLast(parts: seq<string>, last: string)
    ensures Join(parts + [last]) == Prefixes(parts) + last
  {
    if parts != [] {
      JoinLast(parts[1..], last);
      assert (parts + [last])[1..] == parts[1..] + [last];
      assert parts[0] + "+" + (Prefixes(parts[1..]) + last) == (parts[0] + "+" + Prefixes(parts[1..])) + last;
    }
  }

  /** The parts, each with its plus sign. */
  function Prefixes(parts: seq<string>): string { if parts == [] then "" else parts[0] + "+" + Prefixes(parts[1..]) }

  function When(wanted: bool, text: string): string { if wanted then text else "" }

  lemma {:induction false} PrefixesAdd(parts: seq<string>, wanted: bool, text: string)
    ensures Prefixes(AddIf(parts, wanted, text)) == Prefixes(parts) + When(wanted, text + "+")
  {
    if wanted && parts != [] {
      PrefixesAdd(parts[1..], wanted, text);
      assert (parts + [text])[1..] == parts[1..] + [text];
      assert parts[0] + "+" + (Prefixes(parts[1..]) + (text + "+")) == (parts[0] + "+" + Prefixes(parts[1..])) + (text + "+");
    } else if wanted {
      assert [text][1..] == [];
    }
  }

  lemma Pluses()
    ensures "Ctrl" + "+" == "Ctrl+" && "Alt" + "+" == "Alt+" && "Shift" + "+" == "Shift+"
    ensures "Win" + "+" == "Win+" && "Cmd" + "+" == "Cmd+"
  {}

  lemma NoPrefixes(text: string)
    ensures Prefixes([]) + text == text
  {}

  /** The printed chord: the modifiers in this order, each with its plus sign, then the key. */
  lemma PrintedIs(c: Chord, macos: bool)
    ensures Join(ChordParts(c, macos)) ==
      When(c.ctrl, "Ctrl+") + When(c.alt, "Alt+") + When(c.shift, "Shift+") + When(c.win, if macos then "Cmd+" else "Win+") + KeyText(c.key)
  {
    var a := AddIf([], c.ctrl, "Ctrl");
    var b := AddIf(a, c.alt, "Alt");
    var d := AddIf(b, c.shift, "Shift");
    var e := AddIf(d, c.win, if macos then "Cmd" else "Win");
    assert ChordParts(c, macos) == e + [KeyText(c.key)];
    hide *;
    PrefixesAdd([], c.ctrl, "Ctrl");
    PrefixesAdd(a, c.alt, "Alt");
    PrefixesAdd(b, c.shift, "Shift");
    PrefixesAdd(d, c.win, if macos then "Cmd" else "Win");
    JoinLast(e, KeyText(c.key));
    Pluses();
    NoPrefixes(When(c.ctrl, "Ctrl+"));
  }

  /** `Display for PauseHotkeyChord`; reading the text back gives the chord. */
  method PrintChord(c: Chord, macos: bool) returns (text: string)
    ensures text == When(c.ctrl, "Ctrl+") + When(c.alt, "Alt+") + When(c.shift, "Shift+")
                    + When(c.win, if macos then "Cmd+" else "Win+") + KeyText(c.key)
    ensures ValidKey(c.key) && HasModifier(c) ==> Parsed(text) == Some(c)
  {
    var parts := [];
    if c.ctrl { parts := parts + ["Ctrl"]; }
    if c.alt { parts := parts + ["Alt"]; }
    if c.shift { parts := parts + ["Shift"]; }
    if c.win { parts := parts + [if macos then "Cmd" else "Win"]; }
    parts := parts + [KeyText(c.key)];
    assert parts == ChordParts(c, macos);
    text := Join(parts);
    PrintedIs(c, macos);
    if ValidKey(c.key) && HasModifier(c) { PrintedChordParsesBack(c, macos); }
  }

  // ------------------------------------------------------------ key names

  predicate AllDigits(s: string) { forall i :: 0 <= i < |s| ==> '0' <= s[i] <= '9' }

  function NumberOf(s: string): nat
    requires AllDigits(s)
  {
    if s == [] then 0 else NumberOf(s[..|s| - 1]) * 10 + (s[|s| - 1] - '0') as nat
  }

  /** `str::parse::<u8>`: an optional plus sign, then digits worth at most 255. */
  function ParseU8(s: string): Option<nat> {
    var digits := if s != [] && s[0] == '+' then s[1..] else s;
    if digits != [] && AllDigits(digits) && NumberOf(digits) <= 255 then Some(NumberOf(digits)) else None
  }

  function NamedKey(s: string): Option<Key> {
    if s == "backspace" then Some(Backspace)
    else if s == "delete" || s == "del" then Some(Delete)
    else if s == "down" then Some(Down)
    else if s == "end" then Some(End)
    else if s == "enter" || s == "return" then Some(Enter)
    else if s == "escape" || s == "esc" then Some(Escape)
    else if s == "home" then Some(Home)
    else if s == "insert" || s == "ins" then Some(Insert)
    else if s == "left" then Some(Left)
    else if s == "pagedown" || s == "pgdn" then Some(PageDown)
    else if s == "pageup" || s == "pgup" then Some(PageUp)
    else if s == "pause" then Some(Pause)
    else if s == "right" then Some(Right)
    else if s == "space" then Some(Space)
    else if s == "tab" then Some(Tab)
    else if s == "up" then Some(Up)
    else None
  }

  function ParseKey(s: string): (r: Option<Key>)
    ensures r.Some? ==> ValidKey(r.value)
  {
    if |s| == 1 && ('a' <= s[0] <= 'z' || 'A' <= s[0] <= 'Z') then Some(Letter(UpperChar(s[0])))
    else if |s| == 1 && '0' <= s[0] <= '9' then Some(Digit(s[0]))
    else
      var number := if s != [] && s[0] == 'f' then ParseU8(s[1..]) else None;
      if number.Some? && 1 <= number.value <= 24 then Some(Function(number.value)) else NamedKey(s)
  }

  // -------------------------------------------------------------- parsing

  /** What one lower-cased part of a chord means. */
  datatype Role = Ctrl | Alt | Shift | Win | KeyRole(key: Key) | Unknown

  function RoleOf(s: string): Role {
    if s == "ctrl" || s == "control" then Ctrl
    else if s == "alt" then Alt
    else if s == "shift" then Shift
    else if s == "win" || s == "windows" || s == "cmd" || s == "command" then Win
    else match ParseKey(s) case Some(k) => KeyRole(k) case None => Unknown
  }

  /** Two parts that may not occur together: same modifier group, or two keys. */
  predicate Clash(a: Role, b: Role) { a == b || (a.KeyRole? && b.KeyRole?) }

  ghost predicate Compatible(roles: seq<Role>) {
    && Unknown !in roles
    && forall i, j :: 0 <= i < j < |roles| ==> !Clash(roles[i], roles[j])
  }

  /** The accepted lists: known parts only, each modifier group at most once, at
      least one modifier, exactly one key. */
  ghost predicate Acceptable(roles: seq<Role>) {
    && Compatible(roles)
    && (Ctrl in roles || Alt in roles || Shift in roles || Win in roles)
    && exists k :: KeyRole(k) in roles
  }

  /** The chord an accepted list stands for. */
  ghost predicate Stands(roles: seq<Role>, c: Chord) {
    && (c.ctrl <==> Ctrl in roles) && (c.alt <==> Alt in roles)
    && (c.shift <==> Shift in roles) && (c.win <==> Win in roles)
    && KeyRole(c.key) in roles
  }

  /** The trimmed parts between the plus signs. */
  function PartsOf(value: string): seq<string> { TrimAll(Split(value)) }

  function RolesOf(parts: seq<string>): (r: seq<Role>)
    ensures |r| == |parts| && forall i :: 0 <= i < |parts| ==> r[i] == RoleOf(Lower(parts[i]))
  {
    seq(|parts|, i requires 0 <= i < |parts| => RoleOf(Lower(parts[i])))
  }

  ghost function ChordOf(roles: seq<Role>): Option<Chord> {
    if Acceptable(roles) then
      var k :| KeyRole(k) in roles;
      Some(Chord(Ctrl in roles, Alt in roles, Shift in roles, Win in roles, k))
    else None
  }

  ghost function Parsed(value: string): Option<Chord> { ChordOf(RolesOf(PartsOf(value))) }

  lemma ChordIs(roles: seq<Role>, c: Chord)
    requires Acceptable(roles) && Stands(roles, c)
    ensures ChordOf(roles) == Some(c)
  {
    var d := ChordOf(roles).value;
    var i :| 0 <= i < |roles| && roles[i] == KeyRole(c.key);
    var j :| 0 <= j < |roles| && roles[j] == KeyRole(d.key);
    OneKeyOnly(roles, i, j);
  }

  lemma OneKeyOnly(roles: seq<Role>, i: nat, j: nat)
    requires Compatible(roles) && i < |roles| && j < |roles| && roles[i].KeyRole? && roles[j].KeyRole?
    ensures i == j
  {
    if i < j { assert Clash(roles[i], roles[j]); }
    if j < i { assert Clash(roles[j], roles[i]); }
  }

  /** What the parser's flags say about the parts read so far. */
  ghost predicate Scanned(roles: seq<Role>, ctrl: bool, alt: bool, shift: bool, win: bool, key: Option<Key>) {
    && Compatible(roles)
    && (ctrl <==> Ctrl in roles) && (alt <==> Alt in roles)
    && (shift <==> Shift in roles) && (win <==> Win in roles)
    && (forall k :: KeyRole(k) in roles <==> key == Some(k))
  }

  lemma ClashRejected(roles: seq<Role>, n: nat, r: Role)
    requires n < |roles| && r in roles[..n] && Clash(r, roles[n])
    ensures !Acceptable(roles)
  {
    var i :| 0 <= i < n && roles[i] == r;
  }

  lemma CompatibleStep(roles: seq<Role>, r: Role)
    requires Compatible(roles) && r != Unknown
    requires forall q :: q in roles ==> !Clash(q, r)
    ensures Compatible(roles + [r])
  {
    var t := roles + [r];
    forall i, j | 0 <= i < j < |t| ensures !Clash(t[i], t[j]) {
      if j == |roles| { assert t[i] in roles; }
    }
  }

  lemma ScanStep(roles: seq<Role>, r: Role, ctrl: bool, alt: bool, shift: bool, win: bool, key: Option<Key>)
    requires Scanned(roles, ctrl, alt, shift, win, key) && r != Unknown
    requires !(r == Ctrl && ctrl) && !(r == Alt && alt) && !(r == Shift && shift) && !(r == Win && win)
    requires !(r.KeyRole? && key.Some?)
    ensures Scanned(roles + [r], ctrl || r == Ctrl, alt || r == Alt, shift || r == Shift, win || r == Win,
                    if r.KeyRole? then Some(r.key) else key)
  {
    forall q | q in roles ensures !Clash(q, r) {
      if q.KeyRole? { assert key == Some(q.key); }
    }
    CompatibleStep(roles, r);
    forall q ensures q in roles + [r] <==> q in roles || q == r {}
  }

  lemma TooShort(roles: seq<Role>)
    requires |roles| < 2
    ensures !Acceptable(roles)
  {}

  lemma EmptyPartRejected(parts: seq<string>)
    requires [] in parts
    ensures !Acceptable(RolesOf(parts))
  {
    var i :| 0 <= i < |parts| && parts[i] == [];
    assert Lower([]) == [];
    assert RolesOf(parts)[i] == Unknown;
  }

  method ParsePauseHotkey(value: string) returns (r: Option<Chord>)
    ensures r == Parsed(value)
    ensures r.Some? <==> Acceptable(RolesOf(PartsOf(value)))
    ensures r.Some? ==> ValidKey(r.value.key) && HasModifier(r.value) && Stands(RolesOf(PartsOf(value)), r.value)
  {
    var parts := TrimAll(Split(value));
    if |parts| < 2 || [] in parts {
      if |parts| < 2 { TooShort(RolesOf(parts)); } else { EmptyPartRejected(parts); }
      return None;
    }
    r := ScanParts(parts, RolesOf(parts));
  }

  ghost predicate SeenBefore(seen: set<string>, roles: seq<Role>) { forall s :: s in seen ==> RoleOf(s) in roles }

  lemma SeenStep(seen: set<string>, s: string, roles: seq<Role>)
    requires SeenBefore(seen, roles)
    ensures SeenBefore(seen + {s}, roles + [RoleOf(s)])
  {}

  lemma SeenMeans(seen: set<string>, s: string, roles: seq<Role>)
    requires SeenBefore(seen, roles) && s in seen
    ensures RoleOf(s) in roles
  {}

  lemma NothingSeen(roles: seq<Role>)
    ensures SeenBefore({}, roles)
  {}

  method ScanParts(parts: seq<string>, ghost roles: seq<Role>) returns (r: Option<Chord>)
    requires roles == RolesOf(parts)
    ensures r == ChordOf(roles)
    ensures r.Some? ==> ValidKey(r.value.key)
  {
    var seen: set<string> := {};
    var ctrl, alt, shift, win := false, false, false, false;
    var key: Option<Key> := None;
    hide Lower, RoleOf, ValidKey, SeenBefore, RolesOf, Split, TrimAll;
    NothingSeen(roles[..0]);
    for n := 0 to |parts|
      invariant Scanned(roles[..n], ctrl, alt, shift, win, key)
      invariant SeenBefore(seen, roles[..n])
      invariant key.Some? ==> ValidKey(key.value)
    {
      var normalized := Lower(parts[n]);
      ghost var before := roles[..n];
      assert roles[..n + 1] == before + [roles[n]];
      if normalized in seen {
        SeenMeans(seen, normalized, before);
        ClashRejected(roles, n, roles[n]);
        return None;
      }
      SeenStep(seen, normalized, before);
      seen := seen + {normalized};
      var role := KeyedRole(normalized);
      if role == Unknown {
        assert roles[n] in roles;
        return None;
      }
      if Taken(role, ctrl, alt, shift, win, key) {
        ClashRejected(roles, n, if role.KeyRole? then KeyRole(key.value) else role);
        return None;
      }
      ScanStep(before, role, ctrl, alt, shift, win, key);
      match role {
        case Ctrl => ctrl := true;
        case Alt => alt := true;
        case Shift => shift := true;
        case Win => win := true;
        case KeyRole(k) => key := Some(k);
      }
    }
    assert roles[..|parts|] == roles;
    if !(ctrl || alt || shift || win) || key.None? { return None; }
    r := Some(Chord(ctrl, alt, shift, win, key.value));
    ChordIs(roles, r.value);
  }

  // The guard failures of the parser's match arms.
  predicate Taken(r: Role, ctrl: bool, alt: bool, shift: bool, win: bool, key: Option<Key>) {
    match r
    case Ctrl => ctrl
    case Alt => alt
    case Shift => shift
    case Win => win
    case KeyRole(_) => key.Some?
    case Unknown => false
  }

  // A named copy of RoleOf's contract: what a part means, and that a key is valid.
  function KeyedRole(s: string): (r: Role)
    ensures r == RoleOf(s) && (r.KeyRole? ==> ValidKey(r.key))
  {
    RoleOf(s)
  }

  // ------------------------------------------------------ order of parts

  lemma {:induction false} TwoPlaces(s: seq<Role>, x: Role)
    requires multiset(s)[x] >= 2
    ensures exists i, j :: 0 <= i < j < |s| && s[i] == x && s[j] == x
  {
    assert s == [s[0]] + s[1..];
    if s[0] == x {
      assert x in multiset(s[1..]);
      var j :| 0 <= j < |s[1..]| && s[1..][j] == x;
      assert s[0] == x && s[j + 1] == x;
    } else {
      TwoPlaces(s[1..], x);
      var i, j :| 0 <= i < j < |s[1..]| && s[1..][i] == x && s[1..][j] == x;
      assert s[i + 1] == x && s[j + 1] == x;
    }
  }

  lemma DistinctInCompatible(s: seq<Role>, a: Role, b: Role)
    requires Compatible(s) && a in s && b in s && a != b
    ensures !Clash(a, b)
  {
    var i :| 0 <= i < |s| && s[i] == a;
    var j :| 0 <= j < |s| && s[j] == b;
    if i < j { assert !Clash(s[i], s[j]); } else { assert !Clash(s[j], s[i]); }
  }

  lemma OnceInCompatible(s: seq<Role>, x: Role)
    requires Compatible(s)
    ensures multiset(s)[x] <= 1
  {
    if multiset(s)[x] >= 2 {
      TwoPlaces(s, x);
      assert false;
    }
  }

  lemma SameCompatible(s: seq<Role>, t: seq<Role>)
    requires multiset(s) == multiset(t) && Compatible(s)
    ensures Compatible(t)
  {
    SameMembers(s, t);
    forall i, j | 0 <= i < j < |t| ensures !Clash(t[i], t[j]) {
      OnceInCompatible(s, t[i]);
      if t[i] == t[j] { TwiceInMultiset(t, i, j); }
      DistinctInCompatible(s, t[i], t[j]);
    }
  }

  lemma OrderKeeps(s: seq<Role>, t: seq<Role>)
    requires multiset(s) == multiset(t)
    ensures ChordOf(s).Some? ==> ChordOf(t) == ChordOf(s)
  {
    if Acceptable(s) {
      SameCompatible(s, t);
      SameMembers(s, t);
      ChordIs(t, ChordOf(s).value);
    }
  }

  /** The parser's verdict and chord do not depend on the order of the parts. */
  lemma OrderIrrelevant(u: string, v: string)
    requires multiset(PartsOf(u)) == multiset(PartsOf(v))
    ensures Parsed(u) == Parsed(v)
  {
    RolesPermute(PartsOf(u), PartsOf(v));
    OrderKeeps(RolesOf(PartsOf(u)), RolesOf(PartsOf(v)));
    OrderKeeps(RolesOf(PartsOf(v)), RolesOf(PartsOf(u)));
  }

  function Mapped<T, U>(s: seq<T>, f: T -> U): (r: seq<U>)
    ensures |r| == |s| && forall i :: 0 <= i < |s| ==> r[i] == f(s[i])
  {
    seq(|s|, i requires 0 <= i < |s| => f(s[i]))
  }

  lemma RolesPermute(s: seq<string>, t: seq<string>)
    requires multiset(s) == multiset(t)
    ensures multiset(RolesOf(s)) == multiset(RolesOf(t))
  {
    var f := (p: string) => RoleOf(Lower(p));
    MappedPermutes(s, t, f);
    assert RolesOf(s) == Mapped(s, f) && RolesOf(t) == Mapped(t, f);
  }

  lemma {:induction false} MappedPermutes<T, U>(s: seq<T>, t: seq<T>, f: T -> U)
    requires multiset(s) == multiset(t)
    ensures multiset(Mapped(s, f)) == multiset(Mapped(t, f))
  {
    hide *;
    if s == [] {
      assert |multiset(t)| == |t|;
      assert s == t;
    } else {
      var i := PlaceOf(t, s[0], s);
      var s', t' := s[..0] + s[1..], t[..i] + t[i + 1..];
      TakeOutBoth(s, t, i);
      MappedPermutes(s', t', f);
      MappedPick(s, 0, f);
      MappedPick(t, i, f);
    }
  }

  lemma TakeOutBoth<T>(s: seq<T>, t: seq<T>, i: nat)
    requires multiset(s) == multiset(t) && s != [] && i < |t| && t[i] == s[0]
    ensures multiset(s[..0] + s[1..]) == multiset(t[..i] + t[i + 1..])
  {
    TakeOut(s, 0);
    TakeOut(t, i);
  }

  lemma PlaceOf<T>(t: seq<T>, x: T, s: seq<T>) returns (i: nat)
    requires multiset(s) == multiset(t) && x in s
    ensures i < |t| && t[i] == x
  {
    assert x in multiset(t);
    i :| 0 <= i < |t| && t[i] == x;
  }

  lemma TakeOut<T>(s: seq<T>, i: nat)
    requires i < |s|
    ensures multiset(s[..i] + s[i + 1..]) == multiset(s) - multiset{s[i]}
  {
    assert s == s[..i] + [s[i]] + s[i + 1..];
  }

  lemma MappedPick<T, U>(s: seq<T>, i: nat, f: T -> U)
    requires i < |s|
    ensures multiset(Mapped(s, f)) == multiset{f(s[i])} + multiset(Mapped(s[..i] + s[i + 1..], f))
  {
    var a, b := Mapped(s[..i], f), Mapped(s[i + 1..], f);
    assert Mapped(s, f) == a + [f(s[i])] + b;
    assert Mapped(s[..i] + s[i + 1..], f) == a + b;
  }

  /** Repeats are always refused, so accepted parts are non-empty and distinct. */
  lemma AcceptedPartsAreDistinct(parts: seq<string>)
    requires Acceptable(RolesOf(parts))
    ensures [] !in parts
    ensures forall i, j :: 0 <= i < j < |parts| ==> Lower(parts[i]) != Lower(parts[j])
  {
    if [] in parts { EmptyPartRejected(parts); }
    var roles := RolesOf(parts);
    forall i, j | 0 <= i < j < |parts| ensures Lower(parts[i]) != Lower(parts[j]) {
      assert !Clash(roles[i], roles[j]);
    }
  }

  // ----------------------------------------------------------- round trip

  ghost predicate PlainPart(s: string) { s != [] && forall i :: 0 <= i < |s| ==> s[i] != '+' && !White(s[i]) }

  lemma {:induction false} SplitJoined(parts: seq<string>)
    requires parts != [] && forall i :: 0 <= i < |parts| ==> PlainPart(parts[i])
    ensures Split(Join(parts)) == parts
  {
    if |parts| == 1 {
      SplitPrefix(parts[0], "");
      assert parts[0] + "" == parts[0];
    } else {
      SplitJoined(parts[1..]);
      var tail := "+" + Join(parts[1..]);
      SplitPrefix(parts[0], tail);
      assert parts[0] + "+" + Join(parts[1..]) == parts[0] + tail;
      assert tail[1..] == Join(parts[1..]);
      assert parts[0] + [] == parts[0];
    }
  }

  lemma {:induction false} SplitPrefix(p: string, rest: string)
    requires forall i :: 0 <= i < |p| ==> p[i] != '+'
    ensures Split(p + rest) == [p + Split(rest)[0]] + Split(rest)[1..]
  {
    if p == [] {
      assert p + rest == rest;
      assert p + Split(rest)[0] == Split(rest)[0];
    } else {
      assert (p + rest)[1..] == p[1..] + rest;
      SplitPrefix(p[1..], rest);
      var tail := p[1..] + Split(rest)[0];
      assert [p[0]] + tail == p + Split(rest)[0];
      assert Split(p[1..] + rest) == [tail] + Split(rest)[1..];
    }
  }

  lemma NumberAppend(s: string, c: char)
    requires AllDigits(s) && '0' <= c <= '9'
    ensures AllDigits(s + [c]) && NumberOf(s + [c]) == NumberOf(s) * 10 + (c - '0') as nat
  {
    assert (s + [c])[..|s|] == s;
  }

  lemma DigitsBack(n: nat)
    ensures AllDigits(Decimal(n)) && Decimal(n) != [] && NumberOf(Decimal(n)) == n
  {
    if n >= 10 {
      DigitsBack(n / 10);
      NumberAppend(Decimal(n / 10), DigitChar(n % 10));
    } else {
      NumberAppend([], DigitChar(n));
      assert [] + [DigitChar(n)] == Decimal(n);
    }
  }

  /** Only the ten digits, 'a'..'z' and 'A'..'Z' are printed. */
  predicate PlainChar(c: char) { '0' <= c <= '9' || 'a' <= c <= 'z' || 'A' <= c <= 'Z' }

  lemma PlainChars(s: string)
    requires s != [] && forall i :: 0 <= i < |s| ==> PlainChar(s[i])
    ensures PlainPart(s) && Trim(s) == s
  {}

  /** The printed text of a part, its lower-cased form, and what it means. */
  ghost predicate ReadsBack(text: string, lower: string, r: Role) {
    PlainPart(text) && Trim(text) == text && Lower(text) == lower && RoleOf(lower) == r
  }

  lemma ModifiersReadBack()
    ensures ReadsBack("Ctrl", "ctrl", Ctrl) && ReadsBack("Alt", "alt", Alt) && ReadsBack("Shift", "shift", Shift)
    ensures ReadsBack("Win", "win", Win) && ReadsBack("Cmd", "cmd", Win)
  {
    PlainChars("Ctrl");
    PlainChars("Alt");
    PlainChars("Shift");
    PlainChars("Win");
    PlainChars("Cmd");
  }

  lemma BackspaceNamed() ensures NamedKey("backspace") == Some(Backspace) {}
  lemma DeleteNamed() ensures NamedKey("delete") == Some(Delete) {}
  lemma DownNamed() ensures NamedKey("down") == Some(Down) {}
  lemma EndNamed() ensures NamedKey("end") == Some(End) {}
  lemma EnterNamed() ensures NamedKey("enter") == Some(Enter) {}
  lemma EscapeNamed() ensures NamedKey("escape") == Some(Escape) {}
  lemma HomeNamed() ensures NamedKey("home") == Some(Home) {}
  lemma InsertNamed() ensures NamedKey("insert") == Some(Insert) {}
  lemma LeftNamed() ensures NamedKey("left") == Some(Left) {}
  lemma PageDownNamed() ensures NamedKey("pagedown") == Some(PageDown) {}
  lemma PageUpNamed() ensures NamedKey("pageup") == Some(PageUp) {}
  lemma PauseNamed() ensures NamedKey("pause") == Some(Pause) {}
  lemma RightNamed() ensures NamedKey("right") == Some(Right) {}
  lemma SpaceNamed() ensures NamedKey("space") == Some(Space) {}
  lemma TabNamed() ensures NamedKey("tab") == Some(Tab) {}
  lemma UpNamed() ensures NamedKey("up") == Some(Up) {}

  lemma BackspaceReadsBack()
    ensures ReadsBack("Backspace", "backspace", KeyRole(Backspace))
  {
    BackspaceNamed();
    PlainChars("Backspace");
    hide NamedKey, PlainPart, Trim;
  }

  lemma DeleteReadsBack()
    ensures ReadsBack("Delete", "delete", KeyRole(Delete))
  {
    DeleteNamed();
    PlainChars("Delete");
    hide NamedKey, PlainPart, Trim;
  }

  lemma DownReadsBack()
    ensures ReadsBack("Down", "down", KeyRole(Down))
  {
    DownNamed();
    PlainChars("Down");
    hide NamedKey, PlainPart, Trim;
  }

  lemma EndReadsBack()
    ensures ReadsBack("End", "end", KeyRole(End))
  {
    EndNamed();
    PlainChars("End");
    hide NamedKey, PlainPart, Trim;
  }

  lemma EnterReadsBack()
    ensures ReadsBack("Enter", "enter", KeyRole(Enter))
  {
    EnterNamed();
    PlainChars("Enter");
    hide NamedKey, PlainPart, Trim;
  }

  lemma EscapeReadsBack()
    ensures ReadsBack("Escape", "escape", KeyRole(Escape))
  {
    EscapeNamed();
    PlainChars("Escape");
    hide NamedKey, PlainPart, Trim;
  }

  lemma HomeReadsBack()
    ensures ReadsBack("Home", "home", KeyRole(Home))
  {
    HomeNamed();
    PlainChars("Home");
    hide NamedKey, PlainPart, Trim;
  }

  lemma InsertReadsBack()
    ensures ReadsBack("Insert", "insert", KeyRole(Insert))
  {
    InsertNamed();
    PlainChars("Insert");
    hide NamedKey, PlainPart, Trim;
  }

  lemma LeftReadsBack()
    ensures ReadsBack("Left", "left", KeyRole(Left))
  {
    LeftNamed();
    PlainChars("Left");
    hide NamedKey, PlainPart, Trim;
  }

  lemma PageDownReadsBack()
    ensures ReadsBack("PageDown", "pagedown", KeyRole(PageDown))
  {
    PageDownNamed();
    PlainChars("PageDown");
    hide NamedKey, PlainPart, Trim;
  }

  lemma PageUpReadsBack()
    ensures ReadsBack("PageUp", "pageup", KeyRole(PageUp))
  {
    PageUpNamed();
    PlainChars("PageUp");
    hide NamedKey, PlainPart, Trim;
  }

  lemma PauseReadsBack()
    ensures ReadsBack("Pause", "pause", KeyRole(Pause))
  {
    PauseNamed();
    PlainChars("Pause");
    hide NamedKey, PlainPart, Trim;
  }

  lemma RightReadsBack()
    ensures ReadsBack("Right", "right", KeyRole(Right))
  {
    RightNamed();
    PlainChars("Right");
    hide NamedKey, PlainPart, Trim;
  }

  lemma SpaceReadsBack()
    ensures ReadsBack("Space", "space", KeyRole(Space))
  {
    SpaceNamed();
    PlainChars("Space");
    hide NamedKey, PlainPart, Trim;
  }

  lemma TabReadsBack()
    ensures ReadsBack("Tab", "tab", KeyRole(Tab))
  {
    TabNamed();
    PlainChars("Tab");
    hide NamedKey, PlainPart, Trim;
  }

  lemma UpReadsBack()
    ensures ReadsBack("Up", "up", KeyRole(Up))
  {
    UpNamed();
    PlainChars("Up");
    hide NamedKey, PlainPart, Trim;
  }

  lemma KeyReadsBack(k: Key)
    requires ValidKey(k)
    ensures ReadsBack(KeyText(k), Lower(KeyText(k)), KeyRole(k))
  {
    match k
    case Function(n) => FunctionReadsBack(n);
    case Letter(c) => PlainChars(KeyText(k));
    case Digit(c) => PlainChars(KeyText(k));
    case Backspace => BackspaceReadsBack();
    case Delete => DeleteReadsBack();
    case Down => DownReadsBack();
    case End => EndReadsBack();
    case Enter => EnterReadsBack();
    case Escape => EscapeReadsBack();
    case Home => HomeReadsBack();
    case Insert => InsertReadsBack();
    case Left => LeftReadsBack();
    case PageDown => PageDownReadsBack();
    case PageUp => PageUpReadsBack();
    case Pause => PauseReadsBack();
    case Right => RightReadsBack();
    case Space => SpaceReadsBack();
    case Tab => TabReadsBack();
    case Up => UpReadsBack();
  }

  lemma FunctionReadsBack(n: nat)
    requires 1 <= n <= 24
    ensures ReadsBack(KeyText(Function(n)), Lower(KeyText(Function(n))), KeyRole(Function(n)))
  {
    DigitsBack(n);
    var s := Lower(KeyText(Function(n)));
    assert s[0] == 'f';
    assert s[1..] == Decimal(n);
    assert ParseKey(s) == Some(Function(n));
    PlainChars(KeyText(Function(n)));
    StartsWithF(s);
  }

  lemma StartsWithF(s: string)
    requires s != [] && s[0] == 'f' && ParseKey(s).Some?
    ensures RoleOf(s) == KeyRole(ParseKey(s).value)
  {}

  // ------------------------------------------------------------- aliases

  /** The other spellings a part may be written in, beside the printed one. */
  predicate IsAlias(s: string, r: Role) {
    || (s == "control" && r == Ctrl)
    || (s in ["windows", "cmd", "command"] && r == Win)
    || (s == "del" && r == KeyRole(Delete))
    || (s == "return" && r == KeyRole(Enter))
    || (s == "esc" && r == KeyRole(Escape))
    || (s == "ins" && r == KeyRole(Insert))
    || (s == "pgdn" && r == KeyRole(PageDown))
    || (s == "pgup" && r == KeyRole(PageUp))
  }

  lemma ModifierAliases()
    ensures RoleOf("control") == Ctrl && RoleOf("windows") == Win && RoleOf("cmd") == Win && RoleOf("command") == Win
  {}

  lemma DelNamed() ensures NamedKey("del") == Some(Delete) {}
  lemma ReturnNamed() ensures NamedKey("return") == Some(Enter) {}
  lemma EscNamed() ensures NamedKey("esc") == Some(Escape) {}
  lemma InsNamed() ensures NamedKey("ins") == Some(Insert) {}
  lemma PgdnNamed() ensures NamedKey("pgdn") == Some(PageDown) {}
  lemma PgupNamed() ensures NamedKey("pgup") == Some(PageUp) {}

  lemma NamedRole(s: string, k: Key)
    requires |s| > 1 && s[0] != 'f' && NamedKey(s) == Some(k)
    requires s != "ctrl" && s != "control" && s != "alt" && s != "shift" && s !in ["win", "windows", "cmd", "command"]
    ensures RoleOf(s) == KeyRole(k)
  {
    hide NamedKey;
  }

  lemma AliasMeans(s: string, r: Role)
    requires IsAlias(s, r)
    ensures RoleOf(s) == r
  {
    hide RoleOf, NamedKey;
    ModifierAliases();
    DelNamed();
    ReturnNamed();
    EscNamed();
    InsNamed();
    PgdnNamed();
    PgupNamed();
    if r.KeyRole? { NamedRole(s, r.key); }
  }

  /** A part written in another spelling, in any case, means what its printed form does. */
  lemma AliasesReadAlike(parts: seq<string>, i: nat, printed: string, r: Role)
    requires i < |parts| && IsAlias(Lower(parts[i]), r) && ReadsBack(printed, Lower(printed), r)
    ensures ChordOf(RolesOf(parts)) == ChordOf(RolesOf(parts[i := printed]))
  {
    AliasMeans(Lower(parts[i]), r);
    hide RoleOf, Lower, IsAlias, ChordOf, PlainPart, Trim;
    assert RolesOf(parts) == RolesOf(parts[i := printed]);
  }

  /** The roles of the printed parts, in printing order. */
  function PrintedRoles(c: Chord): seq<Role> {
    AddIf(AddIf(AddIf(AddIf([], c.ctrl, Ctrl), c.alt, Alt), c.shift, Shift), c.win, Win) + [KeyRole(c.key)]
  }

  ghost predicate AllPlain(parts: seq<string>) { forall p :: p in parts ==> PlainPart(p) && Trim(p) == p }

  lemma AddReadsBack(parts: seq<string>, roles: seq<Role>, wanted: bool, text: string, r: Role)
    requires AllPlain(parts) && RolesOf(parts) == roles && ReadsBack(text, Lower(text), r)
    ensures AllPlain(AddIf(parts, wanted, text)) && RolesOf(AddIf(parts, wanted, text)) == AddIf(roles, wanted, r)
  {}

  lemma PlainPartsBack(parts: seq<string>)
    requires AllPlain(parts) && parts != []
    ensures PartsOf(Join(parts)) == parts
  {
    forall i | 0 <= i < |parts| ensures PlainPart(parts[i]) && Trim(parts[i]) == parts[i] {
      assert parts[i] in parts;
    }
    SplitJoined(parts);
  }

  lemma AddFourReadBack(c: Chord, t1: string, t2: string, t3: string, t4: string, t5: string)
    requires ReadsBack(t1, Lower(t1), Ctrl) && ReadsBack(t2, Lower(t2), Alt) && ReadsBack(t3, Lower(t3), Shift)
    requires ReadsBack(t4, Lower(t4), Win) && ReadsBack(t5, Lower(t5), KeyRole(c.key))
    ensures var parts := AddIf(AddIf(AddIf(AddIf([], c.ctrl, t1), c.alt, t2), c.shift, t3), c.win, t4) + [t5];
            AllPlain(parts) && RolesOf(parts) == PrintedRoles(c)
  {
    var p1, r1 := AddIf([], c.ctrl, t1), AddIf([], c.ctrl, Ctrl);
    AddReadsBack([], [], c.ctrl, t1, Ctrl);
    var p2, r2 := AddIf(p1, c.alt, t2), AddIf(r1, c.alt, Alt);
    AddReadsBack(p1, r1, c.alt, t2, Alt);
    var p3, r3 := AddIf(p2, c.shift, t3), AddIf(r2, c.shift, Shift);
    AddReadsBack(p2, r2, c.shift, t3, Shift);
    var p4, r4 := AddIf(p3, c.win, t4), AddIf(r3, c.win, Win);
    AddReadsBack(p3, r3, c.win, t4, Win);
    AddReadsBack(p4, r4, true, t5, KeyRole(c.key));
  }

  lemma PrintedPartsBack(c: Chord, macos: bool)
    requires ValidKey(c.key)
    ensures PartsOf(Join(ChordParts(c, macos))) == ChordParts(c, macos)
    ensures RolesOf(ChordParts(c, macos)) == PrintedRoles(c)
  {
    KeyReadsBack(c.key);
    ModifiersReadBack();
    AddFourReadBack(c, "Ctrl", "Alt", "Shift", if macos then "Cmd" else "Win", KeyText(c.key));
    PlainPartsBack(ChordParts(c, macos));
  }

  lemma AddCompatible(roles: seq<Role>, wanted: bool, r: Role)
    requires Compatible(roles) && r != Unknown
    requires forall q :: q in roles ==> !Clash(q, r)
    ensures Compatible(AddIf(roles, wanted, r))
  {
    CompatibleStep(roles, r);
  }

  lemma PrintedRolesStand(c: Chord)
    ensures Compatible(PrintedRoles(c)) && Stands(PrintedRoles(c), c)
  {
    var r1 := AddIf([], c.ctrl, Ctrl);
    AddCompatible([], c.ctrl, Ctrl);
    var r2 := AddIf(r1, c.alt, Alt);
    AddCompatible(r1, c.alt, Alt);
    var r3 := AddIf(r2, c.shift, Shift);
    AddCompatible(r2, c.shift, Shift);
    var r4 := AddIf(r3, c.win, Win);
    AddCompatible(r3, c.win, Win);
    AddCompatible(r4, true, KeyRole(c.key));
    assert PrintedRoles(c) == AddIf(r4, true, KeyRole(c.key));
  }

  /** Printing then parsing is the identity exactly on chords with a modifier,
      under both spellings of the platform key. */
  lemma PrintedChordParsesBack(c: Chord, macos: bool)
    requires ValidKey(c.key)
    ensures Parsed(Join(ChordParts(c, macos))) == Some(c) <==> HasModifier(c)
  {
    PrintedPartsBack(c, macos);
    PrintedRolesStand(c);
    if HasModifier(c) { ChordIs(PrintedRoles(c), c); }
  }

  // ----------------------------------------------------------- resolution

  datatype Setting = Disabled | Enabled(chord: Chord)

  datatype Resolved = Resolved(setting: Setting, warned: bool)

  const DEFAULT_TEXT := "ctrl+alt+shift+p"
  const DEFAULT_CHORD := Chord(true, true, true, false, Letter('P'))

  lemma DefaultParses()
    ensures Parsed(DEFAULT_TEXT) == Some(DEFAULT_CHORD)
  {
    var parts := ["ctrl", "alt", "shift", "p"];
    DefaultPartsPlain();
    SplitJoined(parts);
    DefaultTextJoins();
    assert PartsOf(DEFAULT_TEXT) == parts;
    DefaultRoles();
    PrintedRolesStand(DEFAULT_CHORD);
    ChordIs(PrintedRoles(DEFAULT_CHORD), DEFAULT_CHORD);
  }

  lemma DefaultPartsPlain()
    ensures var parts := ["ctrl", "alt", "shift", "p"];
            TrimAll(parts) == parts && forall i :: 0 <= i < |parts| ==> PlainPart(parts[i])
  {
    DefaultPartsReadBack();
  }

  lemma DefaultRoles()
    ensures RolesOf(["ctrl", "alt", "shift", "p"]) == PrintedRoles(DEFAULT_CHORD)
  {
    DefaultPartsReadBack();
    var roles := [Ctrl, Alt, Shift, KeyRole(Letter('P'))];
    assert RolesOf(["ctrl", "alt", "shift", "p"]) == roles;
    assert PrintedRoles(DEFAULT_CHORD) == roles;
  }

  lemma DefaultTextJoins()
    ensures Join(["ctrl", "alt", "shift", "p"]) == DEFAULT_TEXT
  {
    var parts := ["ctrl", "alt", "shift", "p"];
    assert parts[1..] == ["alt", "shift", "p"] && parts[2..] == ["shift", "p"] && parts[3..] == ["p"];
    assert parts[1..][1..] == parts[2..] && parts[2..][1..] == parts[3..];
    assert Join(parts[3..]) == "p";
    assert Join(parts[2..]) == "shift+p";
    assert Join(parts[1..]) == "alt+shift+p";
  }

  lemma DefaultPartsReadBack()
    ensures ReadsBack("ctrl", "ctrl", Ctrl) && ReadsBack("alt", "alt", Alt)
    ensures ReadsBack("shift", "shift", Shift) && ReadsBack("p", "p", KeyRole(Letter('P')))
  {
    PlainChars("ctrl");
    PlainChars("alt");
    PlainChars("shift");
    PlainChars("p");
  }

  /** A blank setting disables the hotkey; anything malformed falls back to the
      built-in chord with a warning; a chord is never taken half-parsed. */
  method ResolvePauseHotkey(value: string) returns (r: Resolved)
    ensures r.setting.Disabled? <==> Trim(value) == []
    ensures r.setting.Enabled? ==>
      r.setting.chord == (match Parsed(value) case Some(c) => c case None => DEFAULT_CHORD)
    ensures r.warned <==> Trim(value) != [] && Parsed(value).None?
    ensures r.setting.Enabled? ==> ValidKey(r.setting.chord.key) && HasModifier(r.setting.chord)
  {
    if Trim(value) == [] { return Resolved(Disabled, false); }
    var parsed := ParsePauseHotkey(value);
    match parsed {
      case Some(chord) => r := Resolved(Enabled(chord), false);
      case None =>
        DefaultParses();
        var fallback := ParsePauseHotkey(DEFAULT_TEXT);
        r := Resolved(Enabled(fallback.value), true);
    }
  }
}
