/** Double clicks over whole runs: they pair button presses one to one. */
module MouseClicks {

  import opened Clock
  import opened Mouse
  import opened Wrappers

  /** A double click joins the press at click row `first`, let go when
      `released` rows were out, and the press at click row `second`. */
  datatype Pair = Pair(first: nat, released: nat, second: nat)

  /** Which click row each held button and the remembered click came from, the
      pairs made so far, and how many rows were out at each reset. */
  datatype Links = Links(clicks: map<Button, nat>, last: nat, released: nat, pairs: seq<Pair>, resets: seq<nat>)

  /** The last window known during the press at click row `c`, once `n` rows are
      out: a later move row that knows its window replaces the click's. */
  function PressWindow(rows: seq<Row>, c: nat, n: nat): Option<Window>
    requires c < n <= |rows| && rows[c].MouseClick?
  {
    if n == c + 1 then rows[c].window
    else if rows[n - 1].MouseMove? && rows[n - 1].window.Some? then rows[n - 1].window
    else PressWindow(rows, c, n - 1)
  }

  /** What makes two presses a double click. */
  ghost predicate Doubles(rows: seq<Row>, p: Pair) {
    && p.first < p.released <= p.second && p.second + 1 < |rows|
    && rows[p.first].MouseClick? && IsClick(rows[p.second], rows[p.first].button)
    && Since(rows[p.second].at, rows[p.first].at) <= DOUBLE_CLICK
    && rows[p.first].pos.Some? && rows[p.second].pos.Some?
    && !Far(rows[p.second].pos, rows[p.first].pos, DOUBLE_CLICK_HALF_PX)
    && rows[p.second].window.Some? && Hwnd(PressWindow(rows, p.first, p.released)) == Hwnd(rows[p.second].window)
    && rows[p.second + 1] == MouseDoubleClick(rows[p.second].at, rows[p.second].button,
         Since(rows[p.second].at, rows[p.first].at) / MS, rows[p.second].pos, rows[p.second].window)
  }

  predicate Disjoint(p: Pair, q: Pair) {
    p.first != q.first && p.first != q.second && p.second != q.first && p.second != q.second
  }

  predicate Free(pairs: seq<Pair>, click: nat) {
    forall k :: 0 <= k < |pairs| ==> pairs[k].first != click && pairs[k].second != click
  }

  /** The pairs are exactly the double click rows and no press is in two of them. */
  ghost predicate Matching(rows: seq<Row>, pairs: seq<Pair>) {
    && (forall k :: 0 <= k < |pairs| ==> Doubles(rows, pairs[k]))
    && (forall j, k :: 0 <= j < k < |pairs| ==> Disjoint(pairs[j], pairs[k]))
    && (forall d :: 0 <= d < |rows| && rows[d].MouseDoubleClick? ==> exists k :: 0 <= k < |pairs| && pairs[k].second + 1 == d)
  }

  predicate Apart(p: Pair, reset: nat) { reset <= p.first || p.second < reset }

  /** No pair has a reset between its presses. */
  predicate NoneSpans(pairs: seq<Pair>, resets: seq<nat>) {
    forall k, m :: 0 <= k < |pairs| && 0 <= m < |resets| ==> Apart(pairs[k], resets[m])
  }

  function PendingWindow(pending: Option<PendingMove>): Option<Window> {
    if pending.None? then None else pending.value.window
  }

  ghost predicate Holding(a: ActiveButton, pending: Option<PendingMove>, rows: seq<Row>, b: Button, c: nat) {
    && c < |rows| && IsClick(rows[c], b) && a.startedAt == rows[c].at && a.start == rows[c].pos
    && a.window == Or(PendingWindow(pending), PressWindow(rows, c, |rows|))
  }

  ghost predicate Remembered(last: CompletedClick, rows: seq<Row>, first: nat, released: nat) {
    && first < released <= |rows| && IsClick(rows[first], last.button)
    && last.downAt == rows[first].at && last.pos == rows[first].pos
    && last.hwnd == Hwnd(PressWindow(rows, first, released))
  }

  ghost predicate AfterResets(l: Links, active: map<Button, ActiveButton>, hasLast: bool, rows: nat)
    requires l.clicks.Keys == active.Keys
  {
    forall m :: 0 <= m < |l.resets| ==>
      && l.resets[m] <= rows && (hasLast ==> l.resets[m] <= l.last)
      && forall b | b in active :: l.resets[m] <= l.clicks[b]
  }

  ghost predicate Linked(s: State, rows: seq<Row>, l: Links) {
    && l.clicks.Keys == s.active.Keys
    && (forall b | b in s.active :: Holding(s.active[b], s.pending, rows, b, l.clicks[b]))
    && (forall b | b in s.active && s.active[b].seed :: Free(l.pairs, l.clicks[b]))
    && (s.last.Some? ==> Remembered(s.last.value, rows, l.last, l.released) && Free(l.pairs, l.last))
    && (s.last.Some? ==> forall b | b in s.active :: l.clicks[b] != l.last)
    && Matching(rows, l.pairs) && NoneSpans(l.pairs, l.resets)
    && AfterResets(l, s.active, s.last.Some?, |rows|)
  }

  // ------------------------------------------------------- growing the rows

  lemma {:induction false} PressWindowGrows(rows: seq<Row>, more: seq<Row>, c: nat, n: nat)
    requires c < n <= |rows| && rows[c].MouseClick?
    ensures PressWindow(rows + more, c, n) == PressWindow(rows, c, n)
  {
    if n > c + 1 { PressWindowGrows(rows, more, c, n - 1); }
  }

  lemma PressWindowStep(rows: seq<Row>, row: Row, c: nat)
    requires c < |rows| && rows[c].MouseClick?
    ensures PressWindow(rows + [row], c, |rows| + 1)
      == Or(if row.MouseMove? then row.window else None, PressWindow(rows, c, |rows|))
  {
    PressWindowGrows(rows, [row], c, |rows|);
  }

  lemma DoublesGrows(rows: seq<Row>, more: seq<Row>, p: Pair)
    requires Doubles(rows, p)
    ensures Doubles(rows + more, p)
  {
    hide PressWindow, Far;
    PressWindowGrows(rows, more, p.first, p.released);
  }

  lemma MatchingGrows(rows: seq<Row>, row: Row, pairs: seq<Pair>)
    requires Matching(rows, pairs) && !row.MouseDoubleClick?
    ensures Matching(rows + [row], pairs)
  {
    hide Doubles, Disjoint;
    forall k | 0 <= k < |pairs| ensures Doubles(rows + [row], pairs[k]) { DoublesGrows(rows, [row], pairs[k]); }
    forall d | 0 <= d < |rows + [row]| && (rows + [row])[d].MouseDoubleClick?
      ensures exists k :: 0 <= k < |pairs| && pairs[k].second + 1 == d
    {
      assert d < |rows| && rows[d].MouseDoubleClick?;
    }
  }

  lemma RememberedGrows(last: CompletedClick, rows: seq<Row>, row: Row, first: nat, released: nat)
    requires Remembered(last, rows, first, released)
    ensures Remembered(last, rows + [row], first, released)
  {
    hide PressWindow;
    PressWindowGrows(rows, [row], first, released);
  }

  /** A row that is neither a move nor a double click disturbs no link. */
  lemma QuietRow(s: State, rows: seq<Row>, row: Row, l: Links)
    requires Linked(s, rows, l) && !row.MouseDoubleClick? && !row.MouseMove?
    ensures Linked(s, rows + [row], l)
  {
    hide Matching, Remembered, PressWindow, Free, NoneSpans;
    MatchingGrows(rows, row, l.pairs);
    if s.last.Some? { RememberedGrows(s.last.value, rows, row, l.last, l.released); }
    forall b | b in s.active ensures Holding(s.active[b], s.pending, rows + [row], b, l.clicks[b]) {
      PressWindowStep(rows, row, l.clicks[b]);
    }
  }

  lemma FlushLinked(s: State, rows: seq<Row>, l: Links)
    requires Linked(s, rows, l)
    ensures Linked(Flush(s).state, rows + Flush(s).rows, l)
  {
    hide Matching, Remembered, PressWindow, Free, NoneSpans;
    if s.pending.None? {
      assert rows + [] == rows;
    } else {
      var row := MoveRow(s.pending.value);
      MatchingGrows(rows, row, l.pairs);
      if s.last.Some? { RememberedGrows(s.last.value, rows, row, l.last, l.released); }
      forall b | b in s.active ensures Holding(s.active[b], None, rows + [row], b, l.clicks[b]) {
        PressWindowStep(rows, row, l.clicks[b]);
      }
    }
  }

  lemma MoveLinked(s: State, rows: seq<Row>, l: Links, dx: int, dy: int, pos: Option<Point>, window: Option<Window>, now: nat)
    requires Linked(s, rows, l)
    ensures Linked(Move(s, dx, dy, pos, window, now), rows, l)
  {
    hide Matching, Remembered, PressWindow, Free, NoneSpans, Add, DistancePx;
  }

  lemma ReleaseLinked(s: State, rows: seq<Row>, l: Links, button: Button, pos: Option<Point>, now: nat) returns (next: Links)
    requires Linked(s, rows, l) && s.pending.None?
    ensures var o := Release(s, button, pos, now);
      Linked(o.state, rows + o.rows, next)
      && next == if button in s.active then Dropped(l, button, o.state.last.Some?, |rows|) else l
  {
    hide Linked, IsDrag;
    var o := Release(s, button, pos, now);
    assert rows + [] == rows;
    next := l;
    if button in s.active {
      var kept := s.active[button].seed && o.rows == [];
      next := LetGo(s, rows, l, button, o.state);
      if o.rows != [] {
        QuietRow(o.state, rows, o.rows[0], next);
        assert o.rows == [o.rows[0]];
      }
    }
  }

  /** Letting a button go drops its link or turns it into the remembered click. */
  lemma LetGo(s: State, rows: seq<Row>, l: Links, button: Button, after: State) returns (next: Links)
    requires Linked(s, rows, l) && s.pending.None? && button in s.active && after.pending.None?
    requires after.active == s.active - {button}
    requires after.last.Some? ==> s.active[button].seed && var a := s.active[button];
      after.last.value == CompletedClick(button, a.startedAt, a.start, Hwnd(a.window))
    ensures Linked(after, rows, next) && next == Dropped(l, button, after.last.Some?, |rows|)
  {
    hide Matching, PressWindow, Free, NoneSpans, Remembered, Holding;
    next := l.(clicks := l.clicks - {button});
    if after.last.Some? {
      HoldingBecomesRemembered(s.active[button], rows, button, l.clicks[button]);
      forall b | b in after.active ensures l.clicks[b] != l.clicks[button] {
        HoldingApart(s.active[b], s.active[button], None, rows, b, button, l.clicks[b], l.clicks[button]);
      }
      next := next.(last := l.clicks[button], released := |rows|);
    }
  }

  lemma HoldingBecomesRemembered(a: ActiveButton, rows: seq<Row>, b: Button, c: nat)
    requires Holding(a, None, rows, b, c)
    ensures Remembered(CompletedClick(b, a.startedAt, a.start, Hwnd(a.window)), rows, c, |rows|)
  {}

  lemma HoldingApart(a: ActiveButton, a': ActiveButton, pending: Option<PendingMove>, rows: seq<Row>, b: Button, b': Button, c: nat,
                     c': nat)
    requires Holding(a, pending, rows, b, c) && Holding(a', pending, rows, b', c') && b != b'
    ensures c != c'
  {}

  // ------------------------------------------------------------- pressing

  /** The state of a press before its double click row, if any, is out. */
  lemma PressClick(s: State, rows: seq<Row>, l: Links, a: ActiveButton, button: Button)
    requires Linked(s, rows, l) && s.pending.None?
    ensures var row := MouseClick(a.startedAt, button, a.start, a.window);
      Linked(s.(active := s.active[button := a]), rows + [row], l.(clicks := l.clicks[button := |rows|]))
  {
    hide Matching, PressWindow, NoneSpans, Remembered, Free, Holding, Or;
    var row := MouseClick(a.startedAt, button, a.start, a.window);
    if s.last.Some? { RememberedOlder(s.last.value, rows, l.last, l.released); }
    QuietRow(s, rows, row, l);
    NewestFree(rows, l.pairs);
    NewestHolding(rows, row, a, button);
  }

  lemma RememberedOlder(last: CompletedClick, rows: seq<Row>, first: nat, released: nat)
    requires Remembered(last, rows, first, released)
    ensures first < |rows|
  {}

  lemma NewestFree(rows: seq<Row>, pairs: seq<Pair>)
    requires Matching(rows, pairs)
    ensures Free(pairs, |rows|)
  {
    hide PressWindow;
    forall k | 0 <= k < |pairs| ensures pairs[k].first != |rows| && pairs[k].second != |rows| {
      assert Doubles(rows, pairs[k]);
    }
  }

  lemma NewestHolding(rows: seq<Row>, row: Row, a: ActiveButton, b: Button)
    requires row == MouseClick(a.startedAt, b, a.start, a.window)
    ensures Holding(a, None, rows + [row], b, |rows|)
  {}

  /** The double click row joins the remembered press and the newest one. */
  lemma PressDouble(s: State, rows: seq<Row>, l: Links, button: Button, row: Row)
    requires Linked(s, rows, l) && button in s.active && !s.active[button].seed && s.last.Some?
    requires l.clicks[button] + 1 == |rows| && row.MouseDoubleClick?
    requires Doubles(rows + [row], Pair(l.last, l.released, l.clicks[button]))
    requires l.last < l.clicks[button] && Free(l.pairs, l.clicks[button])
    ensures var pair := Pair(l.last, l.released, l.clicks[button]);
      Linked(s.(last := None), rows + [row], l.(pairs := l.pairs + [pair]))
  {
    hide Doubles, PressWindow, Matching, NoneSpans, Free, Holding, Remembered;
    var pair := Pair(l.last, l.released, l.clicks[button]);
    MatchingJoins(rows, row, l.pairs, pair);
    SpansJoin(l.pairs, pair, l.resets);
    forall b | b in s.active
      ensures Holding(s.active[b], s.pending, rows + [row], b, l.clicks[b])
      ensures s.active[b].seed ==> Free(l.pairs + [pair], l.clicks[b])
    {
      HoldingStays(s.active[b], s.pending, rows, row, b, l.clicks[b]);
      if b != button { HoldingApart(s.active[b], s.active[button], s.pending, rows, b, button, l.clicks[b], l.clicks[button]); }
      if s.active[b].seed { FreeJoins(l.pairs, pair, l.clicks[b]); }
    }
  }

  lemma HoldingStays(a: ActiveButton, pending: Option<PendingMove>, rows: seq<Row>, row: Row, b: Button, c: nat)
    requires Holding(a, pending, rows, b, c) && row.MouseDoubleClick?
    ensures Holding(a, pending, rows + [row], b, c)
  {
    hide PressWindow;
    PressWindowStep(rows, row, c);
  }

  lemma FreeJoins(pairs: seq<Pair>, pair: Pair, click: nat)
    requires Free(pairs, click) && click != pair.first && click != pair.second
    ensures Free(pairs + [pair], click)
  {}

  lemma MatchingJoins(rows: seq<Row>, row: Row, pairs: seq<Pair>, pair: Pair)
    requires Matching(rows, pairs) && row.MouseDoubleClick? && pair.second + 1 == |rows|
    requires Doubles(rows + [row], pair) && Free(pairs, pair.first) && Free(pairs, pair.second)
    ensures Matching(rows + [row], pairs + [pair])
  {
    hide Doubles;
    var all, out := pairs + [pair], rows + [row];
    forall k | 0 <= k < |all| ensures Doubles(out, all[k]) {
      if k < |pairs| { DoublesGrows(rows, [row], pairs[k]); }
    }
    forall d | 0 <= d < |out| && out[d].MouseDoubleClick?
      ensures exists k :: 0 <= k < |all| && all[k].second + 1 == d
    {
      if d < |rows| {
        assert rows[d].MouseDoubleClick?;
        var k :| 0 <= k < |pairs| && pairs[k].second + 1 == d;
        assert all[k] == pairs[k];
      } else {
        assert all[|pairs|] == pair;
      }
    }
  }

  lemma SpansJoin(pairs: seq<Pair>, pair: Pair, resets: seq<nat>)
    requires NoneSpans(pairs, resets) && forall m :: 0 <= m < |resets| ==> resets[m] <= pair.first
    ensures NoneSpans(pairs + [pair], resets)
  {
    forall k, m | 0 <= k < |pairs + [pair]| && 0 <= m < |resets| ensures Apart((pairs + [pair])[k], resets[m]) {
      if k < |pairs| { assert Apart(pairs[k], resets[m]); }
    }
  }

  lemma PressLinked(s: State, rows: seq<Row>, l: Links, button: Button, pos: Option<Point>, window: Option<Window>, now: nat)
    returns (next: Links)
    requires Linked(s, rows, l) && s.pending.None?
    ensures var o := Press(s, button, pos, window, now); Linked(o.state, rows + o.rows, next)
    ensures next == Joined(l, button, DoubleClickInterval(s, button, pos, window, now).Some?, |rows|)
  {
    hide Linked, Matching, PressWindow, Free, Doubles;
    var interval := DoubleClickInterval(s, button, pos, window, now);
    var a := ActiveButton(now, pos, pos, ZERO, window, interval.None?);
    var click := MouseClick(now, button, pos, window);
    PressClick(s, rows, l, a, button);
    var clicked := s.(active := s.active[button := a]);
    next := l.(clicks := l.clicks[button := |rows|]);
    if interval.Some? {
      var row := MouseDoubleClick(now, button, interval.value, pos, window);
      NewPair(s, rows, l, button, pos, window, now);
      PressDouble(clicked, rows + [click], next, button, row);
      next := next.(pairs := next.pairs + [Pair(l.last, l.released, |rows|)]);
      assert rows + [click, row] == rows + [click] + [row];
    }
  }

  lemma NewPair(s: State, rows: seq<Row>, l: Links, button: Button, pos: Option<Point>, window: Option<Window>, now: nat)
    requires Linked(s, rows, l) && DoubleClickInterval(s, button, pos, window, now).Some?
    ensures l.last < |rows| && Free(l.pairs, |rows|)
    ensures var interval := DoubleClickInterval(s, button, pos, window, now).value;
      var out := rows + [MouseClick(now, button, pos, window)] + [MouseDoubleClick(now, button, interval, pos, window)];
      Doubles(out, Pair(l.last, l.released, |rows|))
  {
    hide Matching, Free, PressWindow, NoneSpans, Holding, Far;
    NewestFree(rows, l.pairs);
    var interval := DoubleClickInterval(s, button, pos, window, now).value;
    var more := [MouseClick(now, button, pos, window), MouseDoubleClick(now, button, interval, pos, window)];
    PressWindowGrows(rows, more, l.last, l.released);
    assert rows + [more[0]] + [more[1]] == rows + more;
  }

  // --------------------------------------------------------------- whole runs

  lemma ResetLinked(s: State, rows: seq<Row>, l: Links)
    requires Linked(s, rows, l)
    ensures Linked(s.(active := map[], last := None), rows, l.(clicks := map[], resets := l.resets + [|rows|]))
  {
    hide Doubles;
    var resets := l.resets + [|rows|];
    forall k, m | 0 <= k < |l.pairs| && 0 <= m < |resets| ensures Apart(l.pairs[k], resets[m]) {
      PairInside(rows, l.pairs[k]);
      if m < |l.resets| { assert Apart(l.pairs[k], l.resets[m]); }
    }
  }

  lemma PairInside(rows: seq<Row>, p: Pair)
    requires Doubles(rows, p)
    ensures p.second < |rows|
  {}

  lemma StepLinked(s: State, rows: seq<Row>, l: Links, op: Op) returns (next: Links)
    requires Linked(s, rows, l)
    ensures Linked(Step(s, op).state, rows + Step(s, op).rows, next)
    ensures next == Relinked(s, |rows|, l, op)
  {
    hide Linked, Press, Release, Flush, Move;
    assert rows + [] == rows;
    next := l;
    var f := Flush(s);
    FlushLinked(s, rows, l);
    FlushEmpties(s);
    match op {
      case Input(Moved(dx, dy), pos, window, now) =>
        MoveLinked(s, rows, l, dx, dy, pos, window, now);
      case Input(Down(button), pos, window, now) =>
        next := PressLinked(f.state, rows + f.rows, l, button, pos, window, now);
        assert rows + f.rows + Press(f.state, button, pos, window, now).rows == rows + Step(s, op).rows;
      case Input(Up(button), pos, window, now) =>
        next := ReleaseLinked(f.state, rows + f.rows, l, button, pos, now);
        assert rows + f.rows + Release(f.state, button, pos, now).rows == rows + Step(s, op).rows;
      case Input(Wheel(axis, ticks), pos, window, now) =>
        if ticks != 0 {
          var row := MouseWheel(now, axis, WheelDelta(ticks), pos, window);
          QuietRow(f.state, rows + f.rows, row, l);
          assert rows + f.rows + [row] == rows + Step(s, op).rows;
        }
      case FlushDue(now) =>
      case Reset =>
        ResetLinked(s, rows, l);
        next := l.(clicks := map[], resets := l.resets + [|rows|]);
    }
  }

  lemma FlushEmpties(s: State)
    ensures Flush(s).state == s.(pending := None)
  {}

  /** The links once a button is let go, remembered or not, with `n` rows out. */
  function Dropped(l: Links, button: Button, remembered: bool, n: nat): Links {
    if remembered && button in l.clicks then l.(clicks := l.clicks - {button}, last := l.clicks[button], released := n)
    else l.(clicks := l.clicks - {button})
  }

  /** The links once a button is pressed at click row `n`. */
  function Joined(l: Links, button: Button, double: bool, n: nat): Links {
    l.(clicks := l.clicks[button := n], pairs := if double then l.pairs + [Pair(l.last, l.released, n)] else l.pairs)
  }

  /** The links after a step taken with `n` rows out. */
  function Relinked(s: State, n: nat, l: Links, op: Op): Links {
    var out := n + |Flush(s).rows|;
    match op
    case Input(Down(button), pos, window, now) =>
      Joined(l, button, DoubleClickInterval(Flush(s).state, button, pos, window, now).Some?, out)
    case Input(Up(button), _, _, _) => if button in s.active then Dropped(l, button, Step(s, op).state.last.Some?, out) else l
    case Reset => l.(clicks := map[], resets := l.resets + [n])
    case _ => l
  }

  /** How many rows were out at each reset of a run. */
  function Resets(ops: seq<Op>): seq<nat> {
    if ops == [] then [] else
      Resets(ops[..|ops| - 1]) + if ops[|ops| - 1].Reset? then [|Run(ops[..|ops| - 1]).rows|] else []
  }

  // -------------------------------------------------- presses and releases

  /** Operation `d` is the press that puts out click row `c`. */
  predicate PressAt(ops: seq<Op>, d: nat, b: Button, c: nat) {
    && d < |ops| && ops[d].Input? && ops[d].kind == Down(b)
    && |Run(ops[..d]).rows| <= c < |Run(ops[..d + 1]).rows|
  }

  /** Operation `u` lets the button go, and `n` rows are out then. */
  predicate ReleaseAt(ops: seq<Op>, u: nat, b: Button, n: nat) {
    u < |ops| && ops[u].Input? && ops[u].kind == Up(b) && |Run(ops[..u + 1]).rows| == n
  }

  /** What starts a press of the button or ends one. */
  predicate Concerns(op: Op, b: Button) { op.Reset? || (op.Input? && (op.kind == Down(b) || op.kind == Up(b))) }

  predicate Unbroken(ops: seq<Op>, b: Button, d: nat, u: nat) {
    forall j :: d < j < u && j < |ops| ==> !Concerns(ops[j], b)
  }

  /** The press of click row `c` is still on. */
  ghost predicate HeldSince(ops: seq<Op>, b: Button, c: nat) {
    exists d: nat :: PressAt(ops, d, b, c) && Unbroken(ops, b, d, |ops|)
  }

  /** The press of click row `c` ended in a release of the same button, with `n` rows
      out, and nothing between them concerned the button. */
  ghost predicate EndedAt(ops: seq<Op>, b: Button, c: nat, n: nat) {
    exists d: nat, u: nat :: PressAt(ops, d, b, c) && ReleaseAt(ops, u, b, n) && d < u && Unbroken(ops, b, d, u)
  }

  lemma PressStays(ops: seq<Op>, op: Op, d: nat, b: Button, c: nat)
    requires PressAt(ops, d, b, c)
    ensures PressAt(ops + [op], d, b, c)
  {
    hide Run;
    assert (ops + [op])[..d] == ops[..d] && (ops + [op])[..d + 1] == ops[..d + 1];
  }

  lemma HeldStays(ops: seq<Op>, op: Op, b: Button, c: nat)
    requires HeldSince(ops, b, c) && !Concerns(op, b)
    ensures HeldSince(ops + [op], b, c)
  {
    hide PressAt, Concerns;
    var d: nat :| PressAt(ops, d, b, c) && Unbroken(ops, b, d, |ops|);
    PressStays(ops, op, d, b, c);
    assert Unbroken(ops + [op], b, d, |ops + [op]|);
  }

  lemma EndedStays(ops: seq<Op>, op: Op, b: Button, c: nat, n: nat)
    requires EndedAt(ops, b, c, n)
    ensures EndedAt(ops + [op], b, c, n)
  {
    hide PressAt, Concerns, Run;
    var d: nat, u: nat :| PressAt(ops, d, b, c) && ReleaseAt(ops, u, b, n) && d < u && Unbroken(ops, b, d, u);
    PressStays(ops, op, d, b, c);
    assert (ops + [op])[..u + 1] == ops[..u + 1];
    assert ReleaseAt(ops + [op], u, b, n) && Unbroken(ops + [op], b, d, u);
  }

  lemma RunStep(ops: seq<Op>, op: Op)
    ensures Run(ops + [op]) == After(Run(ops), Step(Run(ops).state, op))
  {
    assert (ops + [op])[..|ops|] == ops;
  }

  lemma PressEmits(s: State, op: Op, b: Button)
    requires op.Input? && op.kind == Down(b)
    ensures |Step(s, op).rows| > |Flush(s).rows|
  {
    hide Flush, DoubleClickInterval;
  }

  lemma HeldFrom(ops: seq<Op>, d: nat, b: Button, c: nat)
    requires PressAt(ops, d, b, c) && |ops| == d + 1
    ensures HeldSince(ops, b, c)
  {
    hide PressAt, Concerns;
    assert Unbroken(ops, b, d, |ops|);
  }

  lemma RowsGrow(ops: seq<Op>, op: Op)
    ensures |Run(ops + [op]).rows| == |Run(ops).rows| + |Step(Run(ops).state, op).rows|
  {
    RunStep(ops, op);
    hide Run, Step;
  }

  lemma Appended(ops: seq<Op>, op: Op)
    ensures (ops + [op])[..|ops|] == ops && (ops + [op])[..|ops| + 1] == ops + [op] && (ops + [op])[|ops|] == op
  {}

  lemma PressIs(ops: seq<Op>, d: nat, b: Button, c: nat, before: seq<Op>)
    requires |ops| == d + 1 && ops[d].Input? && ops[d].kind == Down(b) && before == ops[..d]
    requires |Run(before).rows| <= c < |Run(ops).rows|
    ensures PressAt(ops, d, b, c)
  {
    hide Run;
    assert ops[..d + 1] == ops;
  }

  lemma PressHeld(ops: seq<Op>, op: Op, b: Button)
    requires op.Input? && op.kind == Down(b)
    ensures HeldSince(ops + [op], b, |Run(ops).rows| + |Flush(Run(ops).state).rows|)
  {
    hide *;
    var c := |Run(ops).rows| + |Flush(Run(ops).state).rows|;
    RowsGrow(ops, op);
    PressEmits(Run(ops).state, op, b);
    Appended(ops, op);
    PressIs(ops + [op], |ops|, b, c, ops);
    HeldFrom(ops + [op], |ops|, b, c);
  }

  lemma ReleaseEnds(ops: seq<Op>, op: Op, b: Button, c: nat)
    requires op.Input? && op.kind == Up(b) && HeldSince(ops, b, c)
    ensures EndedAt(ops + [op], b, c, |Run(ops + [op]).rows|)
  {
    hide PressAt, Concerns, Run;
    var d: nat :| PressAt(ops, d, b, c) && Unbroken(ops, b, d, |ops|);
    PressStays(ops, op, d, b, c);
    assert d < |ops| by { PressInside(ops, d, b, c); }
    assert (ops + [op])[..|ops| + 1] == ops + [op];
    assert ReleaseAt(ops + [op], |ops|, b, |Run(ops + [op]).rows|) && Unbroken(ops + [op], b, d, |ops|);
  }

  lemma PressInside(ops: seq<Op>, d: nat, b: Button, c: nat)
    requires PressAt(ops, d, b, c)
    ensures d < |ops|
  {}

  /** Every link is to a press and, once let go, to the release that ended it. */
  ghost predicate Tied(ops: seq<Op>, l: Links) {
    && (forall b | b in l.clicks :: HeldSince(ops, b, l.clicks[b]))
    && (Run(ops).state.last.Some? ==> EndedAt(ops, Run(ops).state.last.value.button, l.last, l.released))
    && (forall k :: 0 <= k < |l.pairs| ==> PairTied(ops, Run(ops).rows, l.pairs[k]))
  }

  /** The pair's first press was let go where the pair says. */
  ghost predicate PairTied(ops: seq<Op>, rows: seq<Row>, p: Pair) {
    p.first < |rows| && rows[p.first].MouseClick? && EndedAt(ops, rows[p.first].button, p.first, p.released)
  }

  lemma PairStaysTied(ops: seq<Op>, op: Op, p: Pair)
    requires PairTied(ops, Run(ops).rows, p)
    ensures PairTied(ops + [op], Run(ops + [op]).rows, p)
  {
    hide EndedAt, Step;
    RunStep(ops, op);
    hide Run;
    EndedStays(ops, op, Run(ops).rows[p.first].button, p.first, p.released);
  }

  /** What a step makes of the remembered click. */
  lemma StepLast(s: State, op: Op)
    ensures var last := Step(s, op).state.last;
      match op
      case Input(Down(button), pos, window, now) =>
        var double := DoubleClickInterval(Flush(s).state, button, pos, window, now).Some?;
        last == (if double then None else s.last) && (double ==> s.last.Some? && s.last.value.button == button)
      case Input(Up(button), _, _, _) =>
        if button !in s.active then last == s.last
        else last.Some? ==> last.value.button == button && Step(s, op).rows == Flush(s).rows
      case Reset => last == None
      case _ => last == s.last
  {
    FlushEmpties(s);
    hide Flush, IsDrag, MoveRow;
  }

  /** How a step moves the remembered press. */
  lemma LastMoves(s: State, n: nat, m: Links, op: Op)
    requires m.clicks.Keys == s.active.Keys && Step(s, op).state.last.Some?
    ensures var l, b := Relinked(s, n, m, op), Step(s, op).state.last.value.button;
      || (s.last == Step(s, op).state.last && l.last == m.last && l.released == m.released)
      || (op.Input? && op.kind == Up(b) && b in m.clicks && l.last == m.clicks[b] && l.released == n + |Step(s, op).rows|)
  {
    StepLast(s, op);
    hide Step, Flush, DoubleClickInterval;
  }

  lemma StepTiedLast(ops: seq<Op>, op: Op, m: Links, l: Links)
    requires Linked(Run(ops).state, Run(ops).rows, m) && Tied(ops, m) && l == Relinked(Run(ops).state, |Run(ops).rows|, m, op)
    ensures var last := Run(ops + [op]).state.last; last.Some? ==> EndedAt(ops + [op], last.value.button, l.last, l.released)
  {
    var s := Run(ops).state;
    RunStep(ops, op);
    KeysAgree(s, Run(ops).rows, m);
    hide Run, Step, Linked, Flush, DoubleClickInterval, HeldSince, EndedAt, PairTied, Relinked;
    var last := Step(s, op).state.last;
    if last.Some? {
      LastMoves(s, |Run(ops).rows|, m, op);
      var b := last.value.button;
      if s.last == last && l.last == m.last && l.released == m.released {
        EndedStays(ops, op, b, m.last, m.released);
      } else {
        ReleaseEnds(ops, op, b, m.clicks[b]);
      }
    }
  }

  lemma KeysAgree(s: State, rows: seq<Row>, m: Links)
    requires Linked(s, rows, m)
    ensures m.clicks.Keys == s.active.Keys
    ensures s.last.Some? ==> m.last < |rows| && IsClick(rows[m.last], s.last.value.button)
  {}

  /** How a step moves the click row of a held button. */
  lemma ClicksMove(s: State, n: nat, m: Links, op: Op, b: Button)
    requires m.clicks.Keys == s.active.Keys && b in Relinked(s, n, m, op).clicks
    ensures var c := Relinked(s, n, m, op).clicks[b];
      if op.Input? && op.kind == Down(b) then c == n + |Flush(s).rows|
      else b in m.clicks && c == m.clicks[b] && !Concerns(op, b)
  {
    hide Step, Flush, DoubleClickInterval;
  }

  lemma TiedClick(ops: seq<Op>, m: Links, b: Button)
    requires Tied(ops, m) && b in m.clicks
    ensures HeldSince(ops, b, m.clicks[b])
  {
    hide Run, HeldSince, EndedAt, PairTied;
  }

  lemma ClickTied(ops: seq<Op>, op: Op, m: Links, l: Links, b: Button)
    requires Linked(Run(ops).state, Run(ops).rows, m) && Tied(ops, m) && l == Relinked(Run(ops).state, |Run(ops).rows|, m, op)
    requires b in l.clicks
    ensures HeldSince(ops + [op], b, l.clicks[b])
  {
    hide *;
    KeysAgree(Run(ops).state, Run(ops).rows, m);
    ClicksMove(Run(ops).state, |Run(ops).rows|, m, op, b);
    if op.Input? && op.kind == Down(b) {
      PressHeld(ops, op, b);
    } else {
      TiedClick(ops, m, b);
      HeldStays(ops, op, b, l.clicks[b]);
    }
  }

  lemma StepTiedClicks(ops: seq<Op>, op: Op, m: Links, l: Links)
    requires Linked(Run(ops).state, Run(ops).rows, m) && Tied(ops, m) && l == Relinked(Run(ops).state, |Run(ops).rows|, m, op)
    ensures forall b | b in l.clicks :: HeldSince(ops + [op], b, l.clicks[b])
  {
    hide *;
    forall b | b in l.clicks ensures HeldSince(ops + [op], b, l.clicks[b]) { ClickTied(ops, op, m, l, b); }
  }

  /** How a step moves the pairs. */
  lemma PairsMove(s: State, n: nat, m: Links, op: Op)
    ensures var l := Relinked(s, n, m, op);
      || l.pairs == m.pairs
      || (s.last.Some? && exists c: nat :: l.pairs == m.pairs + [Pair(m.last, m.released, c)])
  {
    StepLast(s, op);
    hide Step, Flush, DoubleClickInterval;
  }

  lemma TiedPair(ops: seq<Op>, m: Links, k: nat)
    requires Tied(ops, m) && k < |m.pairs|
    ensures PairTied(ops, Run(ops).rows, m.pairs[k])
  {
    hide Run, HeldSince, EndedAt, PairTied;
  }

  lemma LastTied(ops: seq<Op>, m: Links, c: nat)
    requires Linked(Run(ops).state, Run(ops).rows, m) && Tied(ops, m) && Run(ops).state.last.Some?
    ensures PairTied(ops, Run(ops).rows, Pair(m.last, m.released, c))
  {
    KeysAgree(Run(ops).state, Run(ops).rows, m);
    hide Run, Linked, HeldSince, EndedAt;
  }

  lemma StepTiedPairs(ops: seq<Op>, op: Op, m: Links, l: Links)
    requires Linked(Run(ops).state, Run(ops).rows, m) && Tied(ops, m) && l == Relinked(Run(ops).state, |Run(ops).rows|, m, op)
    ensures forall k :: 0 <= k < |l.pairs| ==> PairTied(ops + [op], Run(ops + [op]).rows, l.pairs[k])
  {
    hide *;
    PairsMove(Run(ops).state, |Run(ops).rows|, m, op);
    forall k | 0 <= k < |l.pairs| ensures PairTied(ops + [op], Run(ops + [op]).rows, l.pairs[k]) {
      if k < |m.pairs| { TiedPair(ops, m, k); } else { LastTied(ops, m, l.pairs[k].second); }
      PairStaysTied(ops, op, l.pairs[k]);
    }
  }

  lemma StepTied(ops: seq<Op>, op: Op, m: Links, l: Links)
    requires Linked(Run(ops).state, Run(ops).rows, m) && Tied(ops, m) && l == Relinked(Run(ops).state, |Run(ops).rows|, m, op)
    ensures Tied(ops + [op], l)
  {
    StepTiedLast(ops, op, m, l);
    StepTiedClicks(ops, op, m, l);
    StepTiedPairs(ops, op, m, l);
    hide Run, Linked, Relinked, HeldSince, EndedAt, PairTied;
  }

  lemma ResetsStep(ops: seq<Op>, op: Op, m: Links, l: Links)
    requires m.resets == Resets(ops) && l == Relinked(Run(ops).state, |Run(ops).rows|, m, op)
    ensures l.resets == Resets(ops + [op])
  {
    assert (ops + [op])[..|ops|] == ops;
    hide Run, Step, Flush, DoubleClickInterval;
  }

  lemma NothingTied()
    ensures Linked(Run([]).state, Run([]).rows, Links(map[], 0, 0, [], [])) && Tied([], Links(map[], 0, 0, [], []))
  {}

  lemma {:induction false} RunLinked(ops: seq<Op>) returns (l: Links)
    ensures Linked(Run(ops).state, Run(ops).rows, l) && l.resets == Resets(ops) && Tied(ops, l)
  {
    if ops == [] {
      NothingTied();
      l := Links(map[], 0, 0, [], []);
    } else {
      var before, op := ops[..|ops| - 1], ops[|ops| - 1];
      assert ops == before + [op];
      var m := RunLinked(before);
      RunStep(before, op);
      hide *;
      l := StepLinked(Run(before).state, Run(before).rows, m, op);
      ResetsStep(before, op, m, l);
      StepTied(before, op, m, l);
    }
  }


  /** Double clicks form a matching on button presses: every double click row
      joins two presses of one button, close in time and place and in one known
      window; no press is in two double clicks; and no reset lies between them. The
      window is the one last known when the first press was let go, by the first
      operation after it on that button, so the two click rows of every pair name one
      window exactly when every first press was let go in the window it began in. */
  lemma DoubleClicksMatch(ops: seq<Op>) returns (pairs: seq<Pair>)
    ensures Matching(Run(ops).rows, pairs) && NoneSpans(pairs, Resets(ops))
    ensures forall k :: 0 <= k < |pairs| ==> PairTied(ops, Run(ops).rows, pairs[k])
    ensures (forall k :: 0 <= k < |pairs| ==> RowsAgree(Run(ops).rows, pairs[k]))
      <==> (forall k :: 0 <= k < |pairs| ==> LetGoWhereBegun(Run(ops).rows, pairs[k]))
  {
    hide Matching, NoneSpans, Holding, Remembered, Free, Run, RowsAgree, LetGoWhereBegun, PairTied, HeldSince, EndedAt;
    var l := RunLinked(ops);
    pairs := l.pairs;
    forall k | 0 <= k < |pairs| ensures RowsAgree(Run(ops).rows, pairs[k]) <==> LetGoWhereBegun(Run(ops).rows, pairs[k]) {
      PairIn(Run(ops).rows, pairs, k);
      WindowsAgree(Run(ops).rows, pairs[k]);
    }
  }

  predicate RowsAgree(rows: seq<Row>, p: Pair) {
    && p.first < |rows| && p.second < |rows| && rows[p.first].MouseClick? && rows[p.second].MouseClick?
    && Hwnd(rows[p.first].window) == Hwnd(rows[p.second].window)
  }

  predicate LetGoWhereBegun(rows: seq<Row>, p: Pair) {
    && p.first < p.released <= |rows| && rows[p.first].MouseClick?
    && Hwnd(PressWindow(rows, p.first, p.released)) == Hwnd(rows[p.first].window)
  }

  lemma PairIn(rows: seq<Row>, pairs: seq<Pair>, k: nat)
    requires Matching(rows, pairs) && k < |pairs|
    ensures Doubles(rows, pairs[k])
  {}

  lemma WindowsAgree(rows: seq<Row>, p: Pair)
    requires Doubles(rows, p)
    ensures RowsAgree(rows, p) <==> LetGoWhereBegun(rows, p)
  {
    hide PressWindow;
  }

  // ------------------------------------------------------------- windows

  /** Press in one window, wander into another before letting go, press there. */
  function Wandering(v: Window, w: Window): seq<Op> {
    [Input(Down(Left), Some(Point(0, 0)), Some(v), 0), Input(Moved(1, 0), Some(Point(1, 0)), Some(w), 0),
     Input(Up(Left), Some(Point(1, 0)), Some(w), 0), Input(Down(Left), Some(Point(1, 0)), Some(w), 0)]
  }

  lemma FourSteps(ops: seq<Op>)
    requires |ops| == 4
    ensures Run(ops) == After(After(After(Step(START, ops[0]), Step(Step(START, ops[0]).state, ops[1])),
      Step(Step(Step(START, ops[0]).state, ops[1]).state, ops[2])),
      Step(Step(Step(Step(START, ops[0]).state, ops[1]).state, ops[2]).state, ops[3]))
  {
    hide Step;
    assert ops[..3][..2] == ops[..2] && ops[..2][..1] == ops[..1] && ops[..1][..0] == [];
    assert Run(ops[..1]) == Step(START, ops[0]) by { assert [] + Step(START, ops[0]).rows == Step(START, ops[0]).rows; }
    assert Run(ops[..2]) == After(Run(ops[..1]), Step(Run(ops[..1]).state, ops[1]));
    assert Run(ops[..3]) == After(Run(ops[..2]), Step(Run(ops[..2]).state, ops[2]));
  }

  lemma PressAndWander(v: Window, w: Window)
    ensures var o := Step(START, Wandering(v, w)[0]); var m := Step(o.state, Wandering(v, w)[1]);
      && o.rows == [MouseClick(0, Left, Some(Point(0, 0)), Some(v))] && m.rows == []
      && m.state.last == None && m.state.active.Keys == {Left}
      && m.state.pending == Some(PendingMove(0, 0, Totals(1, 0, 1, 1), Some(Point(1, 0)), Some(w)))
      && m.state.active[Left] == ActiveButton(0, Some(Point(0, 0)), Some(Point(1, 0)), Totals(1, 0, 1, 1), Some(w), true)
  {
    assert DistancePx(1, 0) == 1 by { assert IsRoot(1, DistancePx(1, 0)); }
  }

  lemma LetGoAndPress(s: State, v: Window, w: Window)
    requires s.last == None && s.active.Keys == {Left}
    requires s.pending == Some(PendingMove(0, 0, Totals(1, 0, 1, 1), Some(Point(1, 0)), Some(w)))
    requires s.active[Left] == ActiveButton(0, Some(Point(0, 0)), Some(Point(1, 0)), Totals(1, 0, 1, 1), Some(w), true)
    ensures var o := Step(s, Wandering(v, w)[2]); var m := Step(o.state, Wandering(v, w)[3]);
      && o.rows == [MouseMove(0, Totals(1, 0, 1, 1), 0, Some(Point(1, 0)), Some(w))]
      && m.rows == [MouseClick(0, Left, Some(Point(1, 0)), Some(w)), MouseDoubleClick(0, Left, 0, Some(Point(1, 0)), Some(w))]
  {}

  /** The wandering press makes a double click although its click rows name
      different windows. */
  lemma ClickRowsMayDisagree(v: Window, w: Window)
    requires v.hwnd != w.hwnd
    ensures var rows := Run(Wandering(v, w)).rows;
      Doubles(rows, Pair(0, 2, 2)) && Hwnd(rows[0].window) != Hwnd(rows[2].window)
  {
    hide Step, Run;
    var ops := Wandering(v, w);
    FourSteps(ops);
    PressAndWander(v, w);
    LetGoAndPress(Step(Step(START, ops[0]).state, ops[1]).state, v, w);
    var rows := Run(ops).rows;
    assert rows == [MouseClick(0, Left, Some(Point(0, 0)), Some(v)),
                    MouseMove(0, Totals(1, 0, 1, 1), 0, Some(Point(1, 0)), Some(w)),
                    MouseClick(0, Left, Some(Point(1, 0)), Some(w)),
                    MouseDoubleClick(0, Left, 0, Some(Point(1, 0)), Some(w))];
    assert PressWindow(rows, 0, 2) == Some(w);
  }
}
