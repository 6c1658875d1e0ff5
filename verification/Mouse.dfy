/** The mouse gesture machine of `mouse.rs`: aggregated moves, drags and double
    clicks derived from one stream of raw pointer events. */
module Mouse {

  import opened Clock
  import opened Wrappers

  type I32 = n: int | -0x8000_0000 <= n < 0x8000_0000

  datatype Button = Left | Right | Middle | X1 | X2

  datatype Axis = Vertical | Horizontal

  datatype Window = Window(hwnd: nat, exe: string, title: string, pid: nat)

  datatype Point = Point(x: int, y: int)

  /** Clock readings are nanoseconds. */
  const MS := 1_000_000
  const MOVE_FLUSH := 250 * MS
  const DOUBLE_CLICK := 500 * MS
  const DOUBLE_CLICK_HALF_PX := 4
  const DRAG_HALF_PX := 8
  const WHEEL_UNIT := 120

  datatype Kind =
    | Down(button: Button)
    | Up(button: Button)
    | Moved(dx: I32, dy: I32)
    | Wheel(axis: Axis, ticks: I32)

  /** What the pump asks of the machine. */
  datatype Op =
    | Input(kind: Kind, pos: Option<Point>, window: Option<Window>, now: nat)
    | FlushDue(now: nat)
    | Reset

  datatype Totals = Totals(dx: int, dy: int, distance: nat, count: nat)

  const ZERO := Totals(0, 0, 0, 0)

  datatype PendingMove = PendingMove(startedAt: nat, lastAt: nat, totals: Totals, pos: Option<Point>, window: Option<Window>)

  datatype ActiveButton = ActiveButton(startedAt: nat, start: Option<Point>, end: Option<Point>, totals: Totals,
                                       window: Option<Window>, seed: bool)

  datatype CompletedClick = CompletedClick(button: Button, downAt: nat, pos: Option<Point>, hwnd: Option<nat>)

  datatype Row =
    | MouseMove(at: nat, totals: Totals, durationMs: nat, pos: Option<Point>, window: Option<Window>)
    | MouseClick(at: nat, button: Button, pos: Option<Point>, window: Option<Window>)
    | MouseDoubleClick(at: nat, button: Button, intervalMs: nat, pos: Option<Point>, window: Option<Window>)
    | MouseDrag(at: nat, button: Button, totals: Totals, durationMs: nat, start: Option<Point>, end: Option<Point>,
                window: Option<Window>)
    | MouseWheel(at: nat, axis: Axis, delta: int, pos: Option<Point>, window: Option<Window>)

  predicate IsClick(row: Row, b: Button) { row.MouseClick? && row.button == b }

  // -------------------------------------------------------- arithmetic

  function Clamp(n: int, low: int, high: int): int { if n < low then low else if n > high then high else n }

  function SatI64(n: int): int { Clamp(n, -0x8000_0000_0000_0000, 0x7FFF_FFFF_FFFF_FFFF) }

  function SatU64(n: nat): nat { Clamp(n, 0, 0xFFFF_FFFF_FFFF_FFFF) }

  function Abs(n: int): nat { if n < 0 then -n else n }

  /** `r` is the integer nearest to the square root of `n`. */
  predicate IsRoot(n: nat, r: nat) { (r == 0 || r * r - r < n) && n <= r * r + r }

  /** The nearest root of `n`, searched upwards from a lower bound. */
  function RootFrom(n: nat, r: nat): (root: nat)
    requires r == 0 || r * r - r < n
    ensures IsRoot(n, root)
    decreases n - r * r
  {
    if n <= r * r + r then r else
      assert (r + 1) * (r + 1) - (r + 1) == r * r + r;
      RootFrom(n, r + 1)
  }

  function DistancePx(dx: int, dy: int): nat { RootFrom(dx * dx + dy * dy, 0) }

  /** Accumulating one raw motion. */
  function Add(t: Totals, dx: int, dy: int): Totals {
    Totals(SatI64(t.dx + dx), SatI64(t.dy + dy), SatU64(t.distance + DistancePx(dx, dy)), SatU64(t.count + 1))
  }

  // ------------------------------------------------------- the machine

  datatype State = State(pending: Option<PendingMove>, active: map<Button, ActiveButton>, last: Option<CompletedClick>)

  datatype Outcome = Outcome(state: State, rows: seq<Row>)

  function Recorded(pending: Option<PendingMove>, dx: int, dy: int, pos: Option<Point>, window: Option<Window>, now: nat): PendingMove {
    match pending
    case None => PendingMove(now, now, Totals(dx, dy, DistancePx(dx, dy), 1), pos, window)
    case Some(m) => PendingMove(m.startedAt, now, Add(m.totals, dx, dy), Or(pos, m.pos), Or(window, m.window))
  }

  function Or<T>(newer: Option<T>, kept: Option<T>): Option<T> { if newer.Some? then newer else kept }

  function Dragged(a: ActiveButton, dx: int, dy: int, pos: Option<Point>, window: Option<Window>): ActiveButton {
    a.(totals := Add(a.totals, dx, dy), end := Or(pos, a.end), window := Or(window, a.window))
  }

  function Move(s: State, dx: int, dy: int, pos: Option<Point>, window: Option<Window>, now: nat): State {
    State(Some(Recorded(s.pending, dx, dy, pos, window, now)),
          map b | b in s.active :: Dragged(s.active[b], dx, dy, pos, window), s.last)
  }

  function MoveRow(m: PendingMove): Row {
    MouseMove(m.lastAt, m.totals, Since(m.lastAt, m.startedAt) / MS, m.pos, m.window)
  }

  function Flush(s: State): Outcome {
    if s.pending.None? then Outcome(s, []) else Outcome(s.(pending := None), [MoveRow(s.pending.value)])
  }

  predicate Far(a: Option<Point>, b: Option<Point>, half: nat) {
    a.Some? && b.Some? && (Abs(a.value.x - b.value.x) > half || Abs(a.value.y - b.value.y) > half)
  }

  predicate IsDrag(a: ActiveButton) { Far(a.end, a.start, DRAG_HALF_PX) || a.totals.distance >= DRAG_HALF_PX }

  /** The measured interval when this down completes a double click. */
  function DoubleClickInterval(s: State, button: Button, pos: Option<Point>, window: Option<Window>, now: nat): Option<nat> {
    if s.last.None? || s.last.value.button != button || Since(now, s.last.value.downAt) > DOUBLE_CLICK then None
    else if window.None? || s.last.value.hwnd != Some(window.value.hwnd) then None
    else if pos.None? || s.last.value.pos.None? || Far(pos, s.last.value.pos, DOUBLE_CLICK_HALF_PX) then None
    else Some(Since(now, s.last.value.downAt) / MS)
  }

  function Press(s: State, button: Button, pos: Option<Point>, window: Option<Window>, now: nat): Outcome {
    var interval := DoubleClickInterval(s, button, pos, window, now);
    var active := s.active[button := ActiveButton(now, pos, pos, ZERO, window, interval.None?)];
    var click := MouseClick(now, button, pos, window);
    if interval.None? then Outcome(s.(active := active), [click])
    else Outcome(s.(active := active, last := None), [click, MouseDoubleClick(now, button, interval.value, pos, window)])
  }

  function Hwnd(window: Option<Window>): Option<nat> { if window.None? then None else Some(window.value.hwnd) }

  function Release(s: State, button: Button, pos: Option<Point>, now: nat): Outcome {
    if button !in s.active then Outcome(s, []) else
      var a := s.active[button].(end := Or(pos, s.active[button].end));
      var left := s.(active := s.active - {button});
      if IsDrag(a) then
        Outcome(left.(last := None), [MouseDrag(now, button, a.totals, Since(now, a.startedAt) / MS, a.start, a.end, a.window)])
      else if a.seed then Outcome(left.(last := Some(CompletedClick(button, a.startedAt, a.start, Hwnd(a.window)))), [])
      else Outcome(left.(last := None), [])
  }

  function WheelDelta(ticks: int): int { Clamp(ticks * WHEEL_UNIT, -0x8000_0000, 0x7FFF_FFFF) }

  predicate Due(s: State, now: nat) { s.pending.Some? && Since(now, s.pending.value.startedAt) >= MOVE_FLUSH }

  /** `next` after `flushed`, with the rows of both. */
  function After(flushed: Outcome, next: Outcome): Outcome { Outcome(next.state, flushed.rows + next.rows) }

  function Step(s: State, op: Op): Outcome {
    match op
    case Input(Moved(dx, dy), pos, window, now) => Outcome(Move(s, dx, dy, pos, window, now), [])
    case Input(Down(button), pos, window, now) => After(Flush(s), Press(Flush(s).state, button, pos, window, now))
    case Input(Up(button), pos, window, now) => After(Flush(s), Release(Flush(s).state, button, pos, now))
    case Input(Wheel(axis, ticks), pos, window, now) =>
      if ticks == 0 then Outcome(s, [])
      else After(Flush(s), Outcome(Flush(s).state, [MouseWheel(now, axis, WheelDelta(ticks), pos, window)]))
    case FlushDue(now) => if Due(s, now) then Flush(s) else Outcome(s, [])
    case Reset => Outcome(s.(active := map[], last := None), [])
  }

  const START := State(None, map[], None)

  /** A whole run from a fresh machine: the state reached and every row emitted. */
  function Run(ops: seq<Op>): Outcome {
    if ops == [] then Outcome(START, []) else
      After(Run(ops[..|ops| - 1]), Step(Run(ops[..|ops| - 1]).state, ops[|ops| - 1]))
  }

  // ----------------------------------------------------------- the object

  class MouseState {
    var pendingMove: Option<PendingMove>
    var active: map<Button, ActiveButton>
    var lastCompletedClick: Option<CompletedClick>

    function Value(): State reads this { State(pendingMove, active, lastCompletedClick) }

    constructor ()
      ensures Value() == START
    {
      pendingMove, active, lastCompletedClick := None, map[], None;
    }

    method OnEvent(kind: Kind, pos: Option<Point>, window: Option<Window>, now: nat) returns (out: seq<Row>)
      modifies this
      ensures Outcome(Value(), out) == Step(old(Value()), Input(kind, pos, window, now))
    {
      out := [];
      match kind {
        case Moved(dx, dy) =>
          RecordMove(dx, dy, pos, window, now);
          AddMovement(dx, dy, pos, window);
        case Down(button) =>
          var moved := FlushMove();
          var rows := OnButtonDown(button, pos, window, now);
          out := moved + rows;
        case Up(button) =>
          var moved := FlushMove();
          var rows := OnButtonUp(button, pos, now);
          out := moved + rows;
        case Wheel(axis, ticks) =>
          if ticks == 0 { return; }
          var moved := FlushMove();
          out := moved + [MouseWheel(now, axis, WheelDelta(ticks), pos, window)];
      }
    }

    method ResetAfterBoundary()
      modifies this`active, this`lastCompletedClick
      ensures Outcome(Value(), []) == Step(old(Value()), Reset)
    {
      active, lastCompletedClick := map[], None;
    }

    method FlushPassed(now: nat) returns (out: seq<Row>)
      modifies this`pendingMove
      ensures Outcome(Value(), out) == Step(old(Value()), FlushDue(now))
    {
      out := [];
      if pendingMove.Some? && Since(now, pendingMove.value.startedAt) >= MOVE_FLUSH {
        out := FlushMove();
      }
    }

    method RecordMove(dx: I32, dy: I32, pos: Option<Point>, window: Option<Window>, now: nat)
      modifies this`pendingMove
      ensures pendingMove == Some(Recorded(old(pendingMove), dx, dy, pos, window, now))
    {
      match pendingMove {
        case Some(m) =>
          var next := m.(lastAt := now, totals := Add(m.totals, dx, dy));
          if pos.Some? { next := next.(pos := pos); }
          if window.Some? { next := next.(window := window); }
          pendingMove := Some(next);
        case None =>
          pendingMove := Some(PendingMove(now, now, Totals(dx, dy, DistancePx(dx, dy), 1), pos, window));
      }
    }

    /** Every held button accumulates the motion. */
    method AddMovement(dx: I32, dy: I32, pos: Option<Point>, window: Option<Window>)
      modifies this`active
      ensures active == map b | b in old(active) :: Dragged(old(active)[b], dx, dy, pos, window)
    {
      ghost var was := active;
      var todo := active.Keys;
      while todo != {}
        invariant active.Keys == was.Keys && todo <= was.Keys
        invariant forall b | b in was :: active[b] == if b in todo then was[b] else Dragged(was[b], dx, dy, pos, window)
        decreases |todo|
      {
        var button :| button in todo;
        active := active[button := Dragged(active[button], dx, dy, pos, window)];
        todo := todo - {button};
      }
    }

    method FlushMove() returns (out: seq<Row>)
      modifies this`pendingMove
      ensures Outcome(Value(), out) == Flush(old(Value()))
    {
      if pendingMove.None? { return []; }
      out := [MoveRow(pendingMove.value)];
      pendingMove := None;
    }

    method OnButtonDown(button: Button, pos: Option<Point>, window: Option<Window>, now: nat) returns (out: seq<Row>)
      modifies this`active, this`lastCompletedClick
      ensures Outcome(Value(), out) == Press(old(Value()), button, pos, window, now)
    {
      var interval := DoubleClickInterval(Value(), button, pos, window, now);
      active := active[button := ActiveButton(now, pos, pos, ZERO, window, interval.None?)];
      out := [MouseClick(now, button, pos, window)];
      if interval.Some? {
        out := out + [MouseDoubleClick(now, button, interval.value, pos, window)];
        lastCompletedClick := None;
      }
    }

    method OnButtonUp(button: Button, pos: Option<Point>, now: nat) returns (out: seq<Row>)
      modifies this`active, this`lastCompletedClick
      ensures Outcome(Value(), out) == Release(old(Value()), button, pos, now)
    {
      out := [];
      if button !in active { return; }
      var a := active[button];
      active := active - {button};
      if pos.Some? { a := a.(end := pos); }
      if IsDrag(a) {
        out := [MouseDrag(now, button, a.totals, Since(now, a.startedAt) / MS, a.start, a.end, a.window)];
        lastCompletedClick := None;
      } else if a.seed {
        lastCompletedClick := Some(CompletedClick(button, a.startedAt, a.start, Hwnd(a.window)));
      } else {
        lastCompletedClick := None;
      }
    }
  }
}
