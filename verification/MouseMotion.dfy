/** Accounting of pointer motion over whole runs: nothing moved is lost or
    counted twice, and a drag is the sum of the move rows it spans. */
module MouseMotion {

  import opened Mouse
  import opened Wrappers

  // ---------------------------------------------------------- one distance

  lemma SquareMono(a: nat, b: nat)
    requires a <= b
    ensures a * a <= b * b
  {
    assert b * b == a * a + (b - a) * (b + a);
  }

  lemma TooFar(a: nat, b: nat, r: nat)
    requires r > a + b
    ensures r * r - r >= a * a + b * b
  {
    SquareMono(a + b, r - 1);
    assert (a + b) * (a + b) == a * a + b * b + 2 * a * b;
    assert r * r - r == (r - 1) * (r - 1) + (r - 1);
  }

  lemma TooNear(a: nat, r: nat)
    requires a > r
    ensures r * r + r < a * a
  {
    SquareMono(r + 1, a);
    assert (r + 1) * (r + 1) == r * r + 2 * r + 1;
  }

  /** Any nearest root of a * a + b * b is at least either leg and at most their sum. */
  lemma RootBounds(a: nat, b: nat, r: nat)
    requires IsRoot(a * a + b * b, r)
    ensures a <= r && b <= r && r <= a + b
  {
    if a > r { TooNear(a, r); }
    if b > r { TooNear(b, r); }
    if r > a + b { TooFar(a, b, r); }
  }

  lemma DistanceBounds(dx: int, dy: int)
    ensures Abs(dx) <= DistancePx(dx, dy) && Abs(dy) <= DistancePx(dx, dy)
    ensures DistancePx(dx, dy) <= Abs(dx) + Abs(dy)
  {
    assert Abs(dx) * Abs(dx) == dx * dx;
    assert Abs(dy) * Abs(dy) == dy * dy;
    RootBounds(Abs(dx), Abs(dy), DistancePx(dx, dy));
  }

  /** Two roots of one number are the same: the distance is well defined. */
  lemma RootUnique(n: nat, r: nat, q: nat)
    requires IsRoot(n, r) && IsRoot(n, q)
    ensures r == q
  {
    if r < q { RootBelow(n, r, q); }
    if q < r { RootBelow(n, q, r); }
  }

  lemma RootBelow(n: nat, r: nat, q: nat)
    requires IsRoot(n, r) && r < q
    ensures !IsRoot(n, q)
  {
    SquareMono(r, q - 1);
    assert q * q - q == (q - 1) * (q - 1) + (q - 1);
  }

  /** The distance is the one integer nearest to the root, however it is found. */
  lemma DistanceIsTheRoot(dx: int, dy: int, r: nat)
    ensures r == DistancePx(dx, dy) <==> IsRoot(dx * dx + dy * dy, r)
  {
    if IsRoot(dx * dx + dy * dy, r) { RootUnique(dx * dx + dy * dy, r, DistancePx(dx, dy)); }
  }

  // ----------------------------------------------------------- exact sums

  /** Short of saturation: the path length is within a signed 64-bit number, and so
      the displacement is too, and the count is below its ceiling. */
  predicate Unsaturated(t: Totals) { t.distance <= 0x7FFF_FFFF_FFFF_FFFF && t.count < 0xFFFF_FFFF_FFFF_FFFF }

  datatype Motion = Motion(dx: I32, dy: I32)

  function Plus(a: Totals, b: Totals): Totals {
    Totals(a.dx + b.dx, a.dy + b.dy, a.distance + b.distance, a.count + b.count)
  }

  function One(dx: int, dy: int): Totals { Totals(dx, dy, DistancePx(dx, dy), 1) }

  /** The net displacement on either axis is within the path length. */
  predicate Tame(t: Totals) { Abs(t.dx) <= t.distance && Abs(t.dy) <= t.distance }

  /** Adding keeps that even when it saturates, and is exact when the result is
      short of saturation. */
  lemma AddExact(t: Totals, dx: I32, dy: I32)
    requires Tame(t)
    ensures Tame(Add(t, dx, dy)) && Add(t, dx, dy).distance <= t.distance + DistancePx(dx, dy)
    ensures Unsaturated(Add(t, dx, dy)) ==> Unsaturated(t) && Add(t, dx, dy) == Plus(t, One(dx, dy))
  {
    hide IsRoot, RootFrom, DistancePx;
    DistanceBounds(dx, dy);
  }

  // ---------------------------------------------------- batches of motion

  function RawMoves(ops: seq<Op>): seq<Motion> {
    if ops == [] then [] else RawMoves(ops[..|ops| - 1]) + MotionOf(ops[|ops| - 1])
  }

  function MotionOf(op: Op): seq<Motion> {
    if op.Input? && op.kind.Moved? then [Motion(op.kind.dx, op.kind.dy)] else []
  }

  /** What the machine accumulates over one batch, saturation included. */
  function Fold(batch: seq<Motion>): Totals {
    if batch == [] then ZERO else Add(Fold(batch[..|batch| - 1]), batch[|batch| - 1].dx, batch[|batch| - 1].dy)
  }

  /** What the batch really adds up to. */
  function Exact(batch: seq<Motion>): Totals {
    if batch == [] then ZERO else Plus(Exact(batch[..|batch| - 1]), One(batch[|batch| - 1].dx, batch[|batch| - 1].dy))
  }

  function Manhattan(batch: seq<Motion>): nat {
    if batch == [] then 0 else Manhattan(batch[..|batch| - 1]) + Abs(batch[|batch| - 1].dx) + Abs(batch[|batch| - 1].dy)
  }

  lemma {:induction false} FoldIsTame(batch: seq<Motion>)
    ensures Tame(Fold(batch))
    ensures Unsaturated(Fold(batch)) ==> Fold(batch) == Exact(batch)
  {
    hide DistancePx, Add;
    if batch != [] {
      var m := batch[|batch| - 1];
      FoldIsTame(batch[..|batch| - 1]);
      AddExact(Fold(batch[..|batch| - 1]), m.dx, m.dy);
    }
  }

  /** Every aggregate's path length lies between its net displacement on either
      axis and the axis-by-axis length of the raw motion. */
  lemma {:induction false} PathBounds(batch: seq<Motion>)
    ensures var t := Fold(batch);
      Abs(t.dx) <= t.distance && Abs(t.dy) <= t.distance && t.distance <= Manhattan(batch)
  {
    hide DistancePx, Add;
    FoldIsTame(batch);
    if batch != [] {
      var m := batch[|batch| - 1];
      PathBounds(batch[..|batch| - 1]);
      FoldIsTame(batch[..|batch| - 1]);
      AddExact(Fold(batch[..|batch| - 1]), m.dx, m.dy);
      DistanceBounds(m.dx, m.dy);
    }
  }

  function Concat(batches: seq<seq<Motion>>): seq<Motion> {
    if batches == [] then [] else Concat(batches[..|batches| - 1]) + batches[|batches| - 1]
  }

  /** The totals of the move rows, in order. */
  function MoveTotals(rows: seq<Row>): seq<Totals> {
    if rows == [] then [] else MoveTotals(rows[..|rows| - 1]) + TotalsOf(rows[|rows| - 1])
  }

  function TotalsOf(row: Row): seq<Totals> { if row.MouseMove? then [row.totals] else [] }

  lemma {:induction false} MoveTotalsAppend(a: seq<Row>, b: seq<Row>)
    ensures MoveTotals(a + b) == MoveTotals(a) + MoveTotals(b)
  {
    hide MoveTotals, TotalsOf;
    if b == [] {
      MoveTotalsStart(a);
    } else {
      var row := b[|b| - 1];
      MoveTotalsAppend(a, b[..|b| - 1]);
      MoveTotalsStep(b[..|b| - 1], row);
      MoveTotalsStep(a + b[..|b| - 1], row);
      assert b[..|b| - 1] + [row] == b;
      assert a + b[..|b| - 1] + [row] == a + b;
    }
  }

  lemma MoveTotalsStart(a: seq<Row>)
    ensures a + [] == a && MoveTotals([]) == []
  {}

  lemma MoveTotalsStep(a: seq<Row>, row: Row)
    ensures MoveTotals(a + [row]) == MoveTotals(a) + TotalsOf(row)
  {
    assert (a + [row])[..|a|] == a;
  }

  /** The only move row an operation can emit is the pending aggregate's. */
  predicate Flushes(s: State, op: Op) {
    match op
    case Input(kind, _, _, _) => !kind.Moved? && !(kind.Wheel? && kind.ticks == 0)
    case FlushDue(now) => Due(s, now)
    case Reset => false
  }

  lemma StepMoves(s: State, op: Op)
    ensures MoveTotals(Step(s, op).rows) == if Flushes(s, op) && s.pending.Some? then [s.pending.value.totals] else []
    ensures Flushes(s, op) ==> MotionOf(op) == [] && Step(s, op).state.pending == None
    ensures !Flushes(s, op) && MotionOf(op) == [] ==> Step(s, op).state.pending == s.pending
  {
    hide MoveTotals, DoubleClickInterval, IsDrag, Recorded, Dragged;
    FlushMoves(s);
    QuietRows([]);
    if op.Input? && Flushes(s, op) {
      var rows, flushed := Step(s, op).rows, Flush(s).rows;
      var rest := match op.kind
        case Down(button) => Press(Flush(s).state, button, op.pos, op.window, op.now).rows
        case Up(button) => Release(Flush(s).state, button, op.pos, op.now).rows
        case Moved(_, _) => []
        case Wheel(axis, ticks) => [MouseWheel(op.now, axis, WheelDelta(ticks), op.pos, op.window)];
      assert rows == flushed + rest;
      QuietRows(rest);
      MoveTotalsAppend(flushed, rest);
    }
  }

  lemma FlushMoves(s: State)
    ensures MoveTotals(Flush(s).rows) == if s.pending.Some? then [s.pending.value.totals] else []
  {}

  lemma QuietRows(rows: seq<Row>)
    requires |rows| <= 2 && forall k :: 0 <= k < |rows| ==> !rows[k].MouseMove?
    ensures MoveTotals(rows) == []
  {
    if |rows| == 2 { assert MoveTotals(rows[..1]) == MoveTotals(rows[..1][..0]); }
  }

  /** Pending motion is the fold of the moves recorded since the last flush. */
  ghost predicate Accounted(s: State, rows: seq<Row>, raw: seq<Motion>, closed: seq<seq<Motion>>, open: seq<Motion>) {
    && Concat(closed) + open == raw
    && |MoveTotals(rows)| == |closed|
    && (forall k :: 0 <= k < |closed| ==> closed[k] != [] && MoveTotals(rows)[k] == Fold(closed[k]))
    && (s.pending.None? <==> open == [])
    && (s.pending.Some? ==> s.pending.value.totals == Fold(open))
  }

  /** Motion is conserved: the raw motion, in order, is cut into consecutive
      batches, one for each move row and one for the pending aggregate, and each
      row carries exactly what its own batch accumulates. */
  lemma {:induction false} MotionConserved(ops: seq<Op>) returns (closed: seq<seq<Motion>>, open: seq<Motion>)
    ensures Accounted(Run(ops).state, Run(ops).rows, RawMoves(ops), closed, open)
  {
    hide MoveTotals, Fold, Step, Flushes, MotionOf;
    if ops == [] {
      AccountedStart();
      closed, open := [], [];
    } else {
      var before, op := ops[..|ops| - 1], ops[|ops| - 1];
      closed, open := MotionConserved(before);
      var s, rows := Run(before).state, Run(before).rows;
      MoveTotalsAppend(rows, Step(s, op).rows);
      StepMoves(s, op);
      assert rows + [] == rows && MoveTotals(rows) + [] == MoveTotals(rows);
      if Flushes(s, op) && open != [] {
        CloseBatch(rows, Step(s, op).rows, closed, open);
        closed, open := closed + [open], [];
      } else if MotionOf(op) != [] {
        Extended(s, op, open);
        assert Concat(closed) + (open + MotionOf(op)) == (Concat(closed) + open) + MotionOf(op);
        open := open + MotionOf(op);
      }
    }
  }

  lemma AccountedStart()
    ensures Accounted(START, [], [], [], [])
  {}

  lemma CloseBatch(rows: seq<Row>, more: seq<Row>, closed: seq<seq<Motion>>, open: seq<Motion>)
    requires |MoveTotals(rows)| == |closed| && open != []
    requires forall k :: 0 <= k < |closed| ==> closed[k] != [] && MoveTotals(rows)[k] == Fold(closed[k])
    requires MoveTotals(rows + more) == MoveTotals(rows) + [Fold(open)]
    ensures Concat(closed + [open]) == Concat(closed) + open
    ensures |MoveTotals(rows + more)| == |closed + [open]|
    ensures forall k :: 0 <= k < |closed + [open]| ==>
      (closed + [open])[k] != [] && MoveTotals(rows + more)[k] == Fold((closed + [open])[k])
  {
    assert (closed + [open])[..|closed|] == closed;
  }

  lemma Extended(s: State, op: Op, open: seq<Motion>)
    requires MotionOf(op) != [] && (s.pending.None? <==> open == [])
    requires s.pending.Some? ==> s.pending.value.totals == Fold(open)
    ensures !Flushes(s, op) && open + MotionOf(op) != [] && Step(s, op).rows == [] && Step(s, op).state.pending.Some?
    ensures Step(s, op).state.pending.value.totals == Fold(open + MotionOf(op))
  {
    hide DistancePx, Add;
    var all := open + MotionOf(op);
    assert all[..|all| - 1] == open;
    FirstMove(op.kind.dx, op.kind.dy);
  }

  lemma FirstMove(dx: I32, dy: I32)
    ensures Add(ZERO, dx, dy) == One(dx, dy)
  {
    hide DistancePx;
    DistanceBounds(dx, dy);
  }

  // ------------------------------------------------------ sums over a run

  function Sum(totals: seq<Totals>): Totals {
    if totals == [] then ZERO else Plus(Sum(totals[..|totals| - 1]), totals[|totals| - 1])
  }

  function PendingTotals(pending: Option<PendingMove>): Totals {
    if pending.None? then ZERO else pending.value.totals
  }

  lemma {:induction false} ExactAppend(a: seq<Motion>, b: seq<Motion>)
    ensures Exact(a + b) == Plus(Exact(a), Exact(b))
  {
    hide Exact, DistancePx;
    if b == [] {
      ExactStart(a);
    } else {
      var m := b[|b| - 1];
      ExactAppend(a, b[..|b| - 1]);
      ExactStep(b[..|b| - 1], m);
      ExactStep(a + b[..|b| - 1], m);
      assert b[..|b| - 1] + [m] == b;
      assert a + b[..|b| - 1] + [m] == a + b;
    }
  }

  lemma ExactStart(a: seq<Motion>)
    ensures a + [] == a && Exact([]) == ZERO
  {}

  lemma ExactStep(a: seq<Motion>, m: Motion)
    ensures Exact(a + [m]) == Plus(Exact(a), One(m.dx, m.dy))
  {
    assert (a + [m])[..|a|] == a;
  }

  lemma {:induction false} SumOfBatches(totals: seq<Totals>, closed: seq<seq<Motion>>)
    requires |totals| == |closed|
    requires forall k :: 0 <= k < |closed| ==> totals[k] == Fold(closed[k]) && Unsaturated(totals[k])
    ensures Sum(totals) == Exact(Concat(closed))
  {
    hide DistancePx, Add;
    if closed != [] {
      var n := |closed| - 1;
      SumOfBatches(totals[..n], closed[..n]);
      FoldIsTame(closed[n]);
      ExactAppend(Concat(closed[..n]), closed[n]);
    }
  }

  /** The move rows and the pending aggregate add up to all raw motion, displacement,
      path length and event count, as long as none of them is itself saturated; how
      long the run is does not matter. */
  lemma SumsConserved(ops: seq<Op>)
    requires forall k :: 0 <= k < |MoveTotals(Run(ops).rows)| ==> Unsaturated(MoveTotals(Run(ops).rows)[k])
    requires Unsaturated(PendingTotals(Run(ops).state.pending))
    ensures Plus(Sum(MoveTotals(Run(ops).rows)), PendingTotals(Run(ops).state.pending)) == Exact(RawMoves(ops))
  {
    hide DistancePx, Run, Add;
    var closed, open := MotionConserved(ops);
    SumOfBatches(MoveTotals(Run(ops).rows), closed);
    FoldIsTame(open);
    ExactAppend(Concat(closed), open);
  }

  // --------------------------------------------------------------- drags

  /** The move rows since the last click row of this button, added up. */
  function SinceClick(rows: seq<Row>, b: Button): Totals {
    if rows == [] || IsClick(rows[|rows| - 1], b) then ZERO else
      Plus(SinceClick(rows[..|rows| - 1], b), if rows[|rows| - 1].MouseMove? then rows[|rows| - 1].totals else ZERO)
  }

  predicate Clicked(rows: seq<Row>, b: Button) {
    rows != [] && (IsClick(rows[|rows| - 1], b) || Clicked(rows[..|rows| - 1], b))
  }

  /** A held button has accumulated the move rows since its click and the
      pending aggregate, as long as it is short of saturation. */
  ghost predicate Held(a: ActiveButton, pending: Option<PendingMove>, rows: seq<Row>, b: Button) {
    && Clicked(rows, b) && Tame(a.totals)
    && (Unsaturated(a.totals) ==> a.totals == Plus(SinceClick(rows, b), PendingTotals(pending)))
  }

  ghost predicate AllHeld(s: State, rows: seq<Row>) {
    && Tame(PendingTotals(s.pending))
    && forall b | b in s.active :: Held(s.active[b], s.pending, rows, b)
  }

  lemma MoveHeld(a: ActiveButton, pending: Option<PendingMove>, rows: seq<Row>, b: Button, dx: I32, dy: I32,
                 pos: Option<Point>, window: Option<Window>, now: nat)
    requires Held(a, pending, rows, b) && Tame(PendingTotals(pending))
    ensures Held(Dragged(a, dx, dy, pos, window), Some(Recorded(pending, dx, dy, pos, window, now)), rows, b)
  {
    hide DistancePx, Add, Clicked, SinceClick;
    AddExact(a.totals, dx, dy);
    FirstMove(dx, dy);
    if pending.Some? {
      AddExact(pending.value.totals, dx, dy);
      if Unsaturated(Add(a.totals, dx, dy)) { AddPrecise(a.totals, pending.value.totals, SinceClick(rows, b), dx, dy); }
    }
  }

  /** Where the whole sum is short of saturation so is each part of it. */
  lemma AddPrecise(all: Totals, part: Totals, rest: Totals, dx: I32, dy: I32)
    requires Tame(all) && Tame(part) && Unsaturated(Add(all, dx, dy)) && (Unsaturated(all) ==> all == Plus(rest, part))
    ensures Add(part, dx, dy) == Plus(part, One(dx, dy))
  {
    hide DistancePx;
    AddExact(all, dx, dy);
    DistanceBounds(dx, dy);
  }

  lemma RecordedTame(pending: Option<PendingMove>, dx: I32, dy: I32, pos: Option<Point>, window: Option<Window>, now: nat)
    requires Tame(PendingTotals(pending))
    ensures Tame(Recorded(pending, dx, dy, pos, window, now).totals)
  {
    hide DistancePx, Add;
    FirstMove(dx, dy);
    AddExact(PendingTotals(pending), dx, dy);
  }

  lemma SinceClickStep(rows: seq<Row>, row: Row, b: Button)
    ensures Clicked(rows + [row], b) <==> IsClick(row, b) || Clicked(rows, b)
    ensures IsClick(row, b) ==> SinceClick(rows + [row], b) == ZERO
    ensures !IsClick(row, b) ==>
      SinceClick(rows + [row], b) == Plus(SinceClick(rows, b), if row.MouseMove? then row.totals else ZERO)
  {
    assert (rows + [row])[..|rows|] == rows;
  }

  /** Emitting a row that is neither a click of `b` nor a move changes nothing. */
  lemma QuietStep(rows: seq<Row>, row: Row, b: Button)
    requires !IsClick(row, b) && !row.MouseMove?
    ensures Clicked(rows + [row], b) <==> Clicked(rows, b)
    ensures SinceClick(rows + [row], b) == SinceClick(rows, b)
  {
    hide SinceClick, Clicked;
    SinceClickStep(rows, row, b);
  }

  lemma FlushHeld(s: State, rows: seq<Row>)
    requires AllHeld(s, rows)
    ensures AllHeld(Flush(s).state, rows + Flush(s).rows)
  {
    hide Clicked, SinceClick;
    if s.pending.None? {
      assert rows + [] == rows;
    } else {
      forall b | b in s.active ensures Held(s.active[b], None, rows + Flush(s).rows, b) {
        SinceClickStep(rows, MoveRow(s.pending.value), b);
      }
    }
  }

  lemma PressHeld(s: State, rows: seq<Row>, button: Button, pos: Option<Point>, window: Option<Window>, now: nat)
    requires AllHeld(s, rows) && s.pending.None?
    ensures var o := Press(s, button, pos, window, now); AllHeld(o.state, rows + o.rows)
  {
    hide Clicked, SinceClick, DoubleClickInterval, Held;
    var o := Press(s, button, pos, window, now);
    forall b | b in o.state.active ensures Held(o.state.active[b], None, rows + o.rows, b) {
      ClickHeld(rows, o.rows, b, button, o.state.active[b], b != button);
    }
  }

  /** A click row restarts its own button's account and leaves the others alone. */
  lemma ClickHeld(rows: seq<Row>, more: seq<Row>, b: Button, button: Button, a: ActiveButton, kept: bool)
    requires 1 <= |more| <= 2 && IsClick(more[0], button) && (|more| == 2 ==> more[1].MouseDoubleClick?)
    requires kept <==> b != button
    requires if kept then Held(a, None, rows, b) else a.totals == ZERO
    ensures Held(a, None, rows + more, b)
  {
    hide Clicked, SinceClick;
    ClickRows(rows, more, b, button);
  }

  lemma ClickRows(rows: seq<Row>, more: seq<Row>, b: Button, button: Button)
    requires 1 <= |more| <= 2 && IsClick(more[0], button) && (|more| == 2 ==> more[1].MouseDoubleClick?)
    ensures Clicked(rows + more, b) <==> b == button || Clicked(rows, b)
    ensures SinceClick(rows + more, b) == if b == button then ZERO else SinceClick(rows, b)
  {
    hide *;
    var click := more[0];
    ClickOf(click, button, b);
    SinceClickStep(rows, click, b);
    if |more| == 2 {
      NoClick(more[1], b);
      QuietStep(rows + [click], more[1], b);
      assert rows + more == rows + [click] + [more[1]];
    } else {
      assert more == [click];
    }
    PlusZero(SinceClick(rows, b));
  }

  lemma ClickOf(row: Row, button: Button, b: Button)
    requires IsClick(row, button)
    ensures IsClick(row, b) <==> b == button
    ensures !row.MouseMove?
  {}

  lemma NoClick(row: Row, b: Button)
    requires !row.MouseClick?
    ensures !IsClick(row, b)
  {}

  lemma PlusZero(t: Totals)
    ensures Plus(t, ZERO) == t
  {}

  lemma ReleaseHeld(s: State, rows: seq<Row>, button: Button, pos: Option<Point>, now: nat)
    requires AllHeld(s, rows) && s.pending.None?
    ensures var o := Release(s, button, pos, now); AllHeld(o.state, rows + o.rows)
  {
    hide Clicked, SinceClick, IsDrag;
    var o := Release(s, button, pos, now);
    assert rows + [] == rows;
    if o.rows != [] {
      forall b | b in o.state.active ensures Held(o.state.active[b], None, rows + o.rows, b) {
        QuietStep(rows, o.rows[0], b);
        assert o.rows == [o.rows[0]];
      }
    }
  }

  lemma StepHeld(s: State, rows: seq<Row>, op: Op)
    requires AllHeld(s, rows)
    ensures AllHeld(Step(s, op).state, rows + Step(s, op).rows)
  {
    hide Clicked, SinceClick, Press, Release, Flush, Held, Recorded, Dragged;
    assert rows + [] == rows;
    FlushHeld(s, rows);
    var f := Flush(s);
    FlushLeaves(s);
    match op {
      case Input(Moved(dx, dy), pos, window, now) =>
        RecordedTame(s.pending, dx, dy, pos, window, now);
        forall b | b in s.active { MoveHeld(s.active[b], s.pending, rows, b, dx, dy, pos, window, now); }
      case Input(Down(button), pos, window, now) =>
        PressHeld(f.state, rows + f.rows, button, pos, window, now);
        assert rows + f.rows + Press(f.state, button, pos, window, now).rows == rows + Step(s, op).rows;
      case Input(Up(button), pos, window, now) =>
        ReleaseHeld(f.state, rows + f.rows, button, pos, now);
        assert rows + f.rows + Release(f.state, button, pos, now).rows == rows + Step(s, op).rows;
      case Input(Wheel(axis, ticks), pos, window, now) =>
        if ticks != 0 {
          var row := MouseWheel(now, axis, WheelDelta(ticks), pos, window);
          WheelHeld(f.state, rows + f.rows, row);
          assert rows + f.rows + [row] == rows + Step(s, op).rows;
        }
      case FlushDue(now) =>
      case Reset =>
    }
  }

  lemma FlushLeaves(s: State)
    ensures Flush(s).state == s.(pending := None)
  {}

  lemma WheelHeld(s: State, rows: seq<Row>, row: Row)
    requires AllHeld(s, rows) && row.MouseWheel?
    ensures AllHeld(s, rows + [row])
  {
    forall b | b in s.active ensures Held(s.active[b], s.pending, rows + [row], b) { QuietStep(rows, row, b); }
  }

  lemma {:induction false} RunHeld(ops: seq<Op>)
    ensures AllHeld(Run(ops).state, Run(ops).rows)
  {
    if ops != [] {
      RunHeld(ops[..|ops| - 1]);
      StepHeld(Run(ops[..|ops| - 1]).state, Run(ops[..|ops| - 1]).rows, ops[|ops| - 1]);
    }
  }

  /** A drag row can only be the last row of the release that ends it. */
  lemma DragEmitted(s: State, rows: seq<Row>, op: Op, d: nat)
    requires AllHeld(s, rows) && |rows| <= d < |rows + Step(s, op).rows| && (rows + Step(s, op).rows)[d].MouseDrag?
    ensures var all := rows + Step(s, op).rows; var drag := all[d];
      Clicked(all[..d], drag.button) && (Unsaturated(drag.totals) ==> drag.totals == SinceClick(all[..d], drag.button))
  {
    hide Clicked, SinceClick, IsDrag, DoubleClickInterval;
    var all, f := rows + Step(s, op).rows, Flush(s);
    FlushHeld(s, rows);
    var button := op.kind.button;
    assert op.kind.Up? && button in s.active;
    assert all[..d] == rows + f.rows;
    assert Held(f.state.active[button], None, rows + f.rows, button);
  }

  /** Every drag row's displacement, path length and event count are the sums
      over the move rows emitted since that button's last click row. */
  lemma {:induction false} DragSumsItsMoveRows(ops: seq<Op>, d: nat)
    requires d < |Run(ops).rows| && Run(ops).rows[d].MouseDrag?
    ensures var rows := Run(ops).rows; var drag := rows[d];
      Clicked(rows[..d], drag.button) && (Unsaturated(drag.totals) ==> drag.totals == SinceClick(rows[..d], drag.button))
  {
    var before := ops[..|ops| - 1];
    var s, rows := Run(before).state, Run(before).rows;
    if d < |rows| {
      DragSumsItsMoveRows(before, d);
      assert rows[..d] == Run(ops).rows[..d];
    } else {
      RunHeld(before);
      DragEmitted(s, rows, ops[|ops| - 1], d);
    }
  }
}
