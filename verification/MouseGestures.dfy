/** The gesture machine against the raw history: what is held, remembered and pending,
    and which rows an operation puts out, said of the operations alone. */
module MouseGestures {

  import opened Clock
  import opened Mouse
  import MouseMotion
  import opened Wrappers

  // ------------------------------------------------- reading the history

  predicate Moves(op: Op) { op.Input? && op.kind.Moved? }

  predicate Presses(op: Op, b: Button) { op.Input? && op.kind == Down(b) }

  predicate LetsGo(op: Op, b: Button) { op.Input? && op.kind == Up(b) }

  function At(op: Op): nat { if op.Reset? then 0 else op.now }

  function PosOf(op: Op): Option<Point> { if op.Input? then op.pos else None }

  function WindowOf(op: Op): Option<Window> { if op.Input? then op.window else None }

  /** The press that holds the button: its last press, unless a release of it or a
      reset came after. */
  function HeldAt(ops: seq<Op>, b: Button): (d: Option<nat>)
    ensures d.Some? ==> d.value < |ops| && Presses(ops[d.value], b)
  {
    if ops == [] then None else
      var op := ops[|ops| - 1];
      if Presses(op, b) then Some(|ops| - 1) else if LetsGo(op, b) || op.Reset? then None else HeldAt(ops[..|ops| - 1], b)
  }

  /** The length of the path moved since operation `d`. */
  function PathFrom(ops: seq<Op>, d: nat): nat {
    if |ops| <= d then 0 else
      var op := ops[|ops| - 1];
      PathFrom(ops[..|ops| - 1], d) + if Moves(op) then DistancePx(op.kind.dx, op.kind.dy) else 0
  }

  function TotalsFrom(ops: seq<Op>, d: nat): Totals {
    if |ops| <= d then ZERO else
      var op := ops[|ops| - 1];
      if Moves(op) then Add(TotalsFrom(ops[..|ops| - 1], d), op.kind.dx, op.kind.dy) else TotalsFrom(ops[..|ops| - 1], d)
  }

  /** The last position known from operation `d` on: its own, or a later move's. */
  function PosFrom(ops: seq<Op>, d: nat): Option<Point>
    requires d < |ops|
  {
    var op := ops[|ops| - 1];
    if |ops| == d + 1 then PosOf(op) else if Moves(op) && op.pos.Some? then op.pos else PosFrom(ops[..|ops| - 1], d)
  }

  function WindowFrom(ops: seq<Op>, d: nat): Option<Window>
    requires d < |ops|
  {
    var op := ops[|ops| - 1];
    if |ops| == d + 1 then WindowOf(op) else if Moves(op) && op.window.Some? then op.window else WindowFrom(ops[..|ops| - 1], d)
  }

  /** When the last move came. */
  function LastMoveAt(ops: seq<Op>): nat {
    if ops == [] then 0 else if Moves(ops[|ops| - 1]) then ops[|ops| - 1].now else LastMoveAt(ops[..|ops| - 1])
  }

  /** The first move of the batch that is still open. A press, a release or a wheel
      turn closes it, and so does a service pass 250 ms after it began. */
  function OpenFrom(ops: seq<Op>): (f: Option<nat>)
    ensures f.Some? ==> f.value < |ops|
  {
    if ops == [] then None else
      var before, op := ops[..|ops| - 1], ops[|ops| - 1];
      if Moves(op) then if OpenFrom(before).Some? then OpenFrom(before) else Some(|before|)
      else if Closes(op, if OpenFrom(before).Some? then At(ops[OpenFrom(before).value]) else 0) then None
      else OpenFrom(before)
  }

  predicate Closes(op: Op, began: nat) {
    match op
    case Input(kind, _, _, _) => kind.Down? || kind.Up? || (kind.Wheel? && kind.ticks != 0)
    case FlushDue(now) => now >= began + 250_000_000
    case Reset => false
  }

  /** Whole milliseconds gone by. */
  function Ms(now: nat, began: nat): nat { if now < began then 0 else (now - began) / 1_000_000 }

  /** The points are known and more than `px` apart on an axis. */
  predicate Beyond(a: Option<Point>, b: Option<Point>, px: int) {
    a.Some? && b.Some? && !(b.value.x - px <= a.value.x <= b.value.x + px && b.value.y - px <= a.value.y <= b.value.y + px)
  }

  /** Where the button is let go: the release's own position, or the last one known. */
  function EndPos(ops: seq<Op>, d: nat, up: Op): Option<Point>
    requires d < |ops|
  {
    if PosOf(up).Some? then PosOf(up) else PosFrom(ops, d)
  }

  /** A press that is let go 8 pixels along its path or more, or more than 8 pixels
      away on an axis, is a drag. */
  predicate EndsDrag(ops: seq<Op>, d: nat, up: Op)
    requires d < |ops|
  {
    PathFrom(ops, d) >= 8 || Beyond(EndPos(ops, d, up), PosOf(ops[d]), 8)
  }

  /** Both windows are known and are the same one. */
  predicate SameWindow(a: Option<Window>, b: Option<Window>) { a.Some? && b.Some? && a.value.hwnd == b.value.hwnd }

  /** A completed click: its press and its release. */
  datatype Click = Click(press: nat, release: nat)

  /** The click a press may complete to a double click: that of the last release, if it
      ended no drag and its press was itself no double click, and nothing has spent it. */
  function Remembers(ops: seq<Op>): (c: Option<Click>)
    ensures c.Some? ==> c.value.press < c.value.release < |ops|
    decreases |ops|, 0
  {
    if ops == [] then None else
      var before, op := ops[..|ops| - 1], ops[|ops| - 1];
      match op
      case Input(Down(b), _, _, _) => if Doubles(before, op) then None else Remembers(before)
      case Input(Up(b), _, _, _) =>
        if HeldAt(before, b).None? then Remembers(before)
        else if EndsDrag(before, HeldAt(before, b).value, op) || IsSecond(before, HeldAt(before, b).value) then None
        else Some(Click(HeldAt(before, b).value, |before|))
      case Reset => None
      case _ => Remembers(before)
  }

  /** The press at `d` was the second of a double click. */
  predicate IsSecond(ops: seq<Op>, d: nat)
    requires d < |ops|
    decreases |ops|, 0, d
  {
    Doubles(ops[..d], ops[d])
  }

  /** The press completes a double click: of the same button as the remembered click,
      at most 500 ms after its press, at most 4 pixels away on each axis, and in the
      window in which that click was let go. */
  predicate Doubles(ops: seq<Op>, op: Op)
    decreases |ops|, 1
  {
    var c := Remembers(ops);
    && c.Some? && op.Input? && op.kind.Down? && Presses(ops[c.value.press], op.kind.button)
    && op.now <= At(ops[c.value.press]) + 500_000_000
    && op.window.Some? && SameWindow(WindowFrom(ops[..c.value.release], c.value.press), op.window)
    && op.pos.Some? && PosOf(ops[c.value.press]).Some? && !Beyond(op.pos, PosOf(ops[c.value.press]), 4)
  }

  // ------------------------------------------------------- one more operation

  lemma Prefix(ops: seq<Op>, op: Op)
    ensures (ops + [op])[..|ops|] == ops && (ops + [op])[|ops|] == op
    ensures forall d: nat | d < |ops| :: (ops + [op])[..d] == ops[..d] && (ops + [op])[d] == ops[d]
  {}

  lemma HeldStep(ops: seq<Op>, op: Op, b: Button)
    ensures HeldAt(ops + [op], b)
      == if Presses(op, b) then Some(|ops|) else if LetsGo(op, b) || op.Reset? then None else HeldAt(ops, b)
  {
    assert (ops + [op])[..|ops|] == ops;
  }

  lemma FromStep(ops: seq<Op>, op: Op, d: nat)
    requires d <= |ops|
    ensures PathFrom(ops + [op], d) == PathFrom(ops, d) + if Moves(op) then DistancePx(op.kind.dx, op.kind.dy) else 0
    ensures TotalsFrom(ops + [op], d) == if Moves(op) then Add(TotalsFrom(ops, d), op.kind.dx, op.kind.dy) else TotalsFrom(ops, d)
    ensures d == |ops| ==> PosFrom(ops + [op], d) == PosOf(op) && WindowFrom(ops + [op], d) == WindowOf(op)
    ensures d < |ops| ==> PosFrom(ops + [op], d) == if Moves(op) && op.pos.Some? then op.pos else PosFrom(ops, d)
    ensures d < |ops| ==> WindowFrom(ops + [op], d) == if Moves(op) && op.window.Some? then op.window else WindowFrom(ops, d)
    ensures PathFrom(ops, |ops|) == 0 && TotalsFrom(ops, |ops|) == ZERO
  {
    hide Add, DistancePx;
    assert (ops + [op])[..|ops|] == ops;
  }

  lemma OpenStep(ops: seq<Op>, op: Op)
    ensures LastMoveAt(ops + [op]) == if Moves(op) then op.now else LastMoveAt(ops)
    ensures OpenFrom(ops + [op]) ==
      if Moves(op) then (if OpenFrom(ops).Some? then OpenFrom(ops) else Some(|ops|))
      else if Closes(op, if OpenFrom(ops).Some? then At(ops[OpenFrom(ops).value]) else 0) then None
      else OpenFrom(ops)
  {
    assert (ops + [op])[..|ops|] == ops;
  }

  lemma RemembersStep(ops: seq<Op>, op: Op)
    ensures Remembers(ops + [op]) ==
      if op.Reset? then None
      else if op.Input? && op.kind.Down? then if Doubles(ops, op) then None else Remembers(ops)
      else if !op.Input? || !op.kind.Up? || HeldAt(ops, op.kind.button).None? then Remembers(ops)
      else if EndsDrag(ops, HeldAt(ops, op.kind.button).value, op) || IsSecond(ops, HeldAt(ops, op.kind.button).value) then None
      else Some(Click(HeldAt(ops, op.kind.button).value, |ops|))
  {
    assert (ops + [op])[..|ops|] == ops;
    hide HeldAt, EndsDrag, Doubles, IsSecond;
  }

  lemma RunStep(ops: seq<Op>, op: Op)
    ensures Run(ops + [op]) == After(Run(ops), Step(Run(ops).state, op))
  {
    assert (ops + [op])[..|ops|] == ops;
  }

  // ---------------------------------------------- the state is the history

  ghost predicate HeldReads(ops: seq<Op>, s: State, b: Button) {
    match HeldAt(ops, b)
    case None => b !in s.active
    case Some(d) =>
      && d < |ops| && b in s.active
      && s.active[b] == ActiveButton(At(ops[d]), PosOf(ops[d]), PosFrom(ops, d), TotalsFrom(ops, d), WindowFrom(ops, d),
                                     !IsSecond(ops, d))
  }

  ghost predicate PendingReads(ops: seq<Op>, s: State) {
    match OpenFrom(ops)
    case None => s.pending == None
    case Some(f) =>
      s.pending == Some(PendingMove(At(ops[f]), LastMoveAt(ops), TotalsFrom(ops, f), PosFrom(ops, f), WindowFrom(ops, f)))
  }

  ghost predicate LastReads(ops: seq<Op>, s: State) {
    match Remembers(ops)
    case None => s.last == None
    case Some(c) =>
      && ops[c.press].Input? && ops[c.press].kind.Down?
      && s.last == Some(CompletedClick(ops[c.press].kind.button, At(ops[c.press]), PosOf(ops[c.press]),
                                       Hwnd(WindowFrom(ops[..c.release], c.press))))
  }

  ghost predicate Reads(ops: seq<Op>) {
    && (forall b :: HeldReads(ops, Run(ops).state, b)) && PendingReads(ops, Run(ops).state) && LastReads(ops, Run(ops).state)
  }

  lemma NothingRead()
    ensures Reads([])
  {}

  lemma DoublesIs(ops: seq<Op>, s: State, b: Button, pos: Option<Point>, window: Option<Window>, now: nat)
    requires LastReads(ops, s)
    ensures var interval := DoubleClickInterval(s, b, pos, window, now);
      && (interval.Some? <==> Doubles(ops, Input(Down(b), pos, window, now)))
      && (interval.Some? ==> Remembers(ops).Some? && interval.value == Ms(now, At(ops[Remembers(ops).value.press])))
  {
    hide WindowFrom, Remembers;
  }

  lemma DragIs(ops: seq<Op>, s: State, b: Button, up: Op)
    requires HeldReads(ops, s, b) && LetsGo(up, b) && b in s.active
    ensures HeldAt(ops, b).Some? && HeldAt(ops, b).value < |ops|
    ensures IsDrag(s.active[b].(end := Or(up.pos, s.active[b].end))) <==> EndsDrag(ops, HeldAt(ops, b).value, up)
  {
    PathIs(ops, HeldAt(ops, b).value);
    hide HeldAt, TotalsFrom, PathFrom, PosFrom, WindowFrom, IsSecond;
  }

  /** The accumulated distance is the path, up to saturation. */
  lemma {:induction false} PathIs(ops: seq<Op>, d: nat)
    ensures TotalsFrom(ops, d).distance == SatU64(PathFrom(ops, d))
  {
    hide DistancePx;
    if |ops| > d { PathIs(ops[..|ops| - 1], d); }
  }

  /** What a step makes of one held button. */
  lemma StepHeld(s: State, op: Op, b: Button)
    ensures var t := Step(s, op).state;
      && (Presses(op, b) ==> b in t.active && t.active[b] == ActiveButton(op.now, op.pos, op.pos, ZERO, op.window,
            DoubleClickInterval(Flush(s).state, b, op.pos, op.window, op.now).None?))
      && (LetsGo(op, b) || op.Reset? ==> b !in t.active)
      && (!Presses(op, b) && !LetsGo(op, b) && !op.Reset? ==> (b in t.active <==> b in s.active))
      && (!Presses(op, b) && !LetsGo(op, b) && !op.Reset? && b in s.active ==>
            t.active[b] == if Moves(op) then Dragged(s.active[b], op.kind.dx, op.kind.dy, op.pos, op.window) else s.active[b])
  {
    hide DoubleClickInterval, IsDrag, Dragged, Recorded, MoveRow;
  }

  lemma SecondStays(ops: seq<Op>, op: Op, d: nat)
    requires d < |ops|
    ensures IsSecond(ops + [op], d) == IsSecond(ops, d)
  {
    Prefix(ops, op);
    hide Doubles;
  }

  lemma FlushIs(s: State)
    ensures Flush(s).state == s.(pending := None)
    ensures Flush(s).rows == if s.pending.Some? then [MoveRow(s.pending.value)] else []
  {
    hide MoveRow;
  }

  lemma HeldReadsStep(ops: seq<Op>, op: Op, b: Button)
    requires Reads(ops)
    ensures HeldReads(ops + [op], Step(Run(ops).state, op).state, b)
  {
    var s := Run(ops).state;
    StepHeld(s, op, b);
    HeldStep(ops, op, b);
    Prefix(ops, op);
    assert HeldReads(ops, s, b);
    FlushIs(s);
    hide Run, Step, HeldAt, IsSecond, Doubles, PathFrom, TotalsFrom, PosFrom, WindowFrom, DoubleClickInterval, Flush, Add, PendingReads;
    if Presses(op, b) {
      FromStep(ops, op, |ops|);
      PressSecond(ops, op, b);
    } else if HeldAt(ops, b).Some? {
      var d := HeldAt(ops, b).value;
      FromStep(ops, op, d);
      SecondStays(ops, op, d);
    }
  }

  lemma PressSecond(ops: seq<Op>, op: Op, b: Button)
    requires Reads(ops) && Presses(op, b)
    ensures IsSecond(ops + [op], |ops|)
      <==> DoubleClickInterval(Flush(Run(ops).state).state, b, op.pos, op.window, op.now).Some?
  {
    Prefix(ops, op);
    FlushIs(Run(ops).state);
    hide Run, Flush, DoubleClickInterval, Doubles, Remembers, HeldReads, PendingReads;
    DoublesIs(ops, Flush(Run(ops).state).state, b, op.pos, op.window, op.now);
  }

  lemma PendingReadsStep(ops: seq<Op>, op: Op)
    requires Reads(ops)
    ensures PendingReads(ops + [op], Step(Run(ops).state, op).state)
  {
    var s := Run(ops).state;
    OpenStep(ops, op);
    Prefix(ops, op);
    StepPending(s, op);
    hide Run, Step, OpenFrom, LastMoveAt, PathFrom, TotalsFrom, PosFrom, WindowFrom, HeldReads, LastReads, Add, Due;
    if Moves(op) { MouseMotion.FirstMove(op.kind.dx, op.kind.dy); }
    FromStep(ops, op, if OpenFrom(ops).Some? then OpenFrom(ops).value else |ops|);
  }

  /** What a step makes of the pending aggregate. */
  lemma StepPending(s: State, op: Op)
    ensures Step(s, op).state.pending ==
      if Moves(op) then Some(Recorded(s.pending, op.kind.dx, op.kind.dy, op.pos, op.window, op.now))
      else if Closes(op, if s.pending.Some? then s.pending.value.startedAt else 0) then None
      else s.pending
  {
    FlushIs(s);
    hide Flush, DoubleClickInterval, IsDrag, Dragged, Recorded, MoveRow;
  }

  lemma LastReadsStep(ops: seq<Op>, op: Op)
    requires Reads(ops)
    ensures LastReads(ops + [op], Step(Run(ops).state, op).state)
  {
    var s := Run(ops).state;
    RemembersStep(ops, op);
    Prefix(ops, op);
    FlushIs(s);
    if op.Input? && op.kind.Down? {
      PressLast(ops, op, op.kind.button);
    } else if op.Input? && op.kind.Up? {
      ReleaseLast(ops, op, op.kind.button);
    } else {
      StepLast(s, op);
      hide Run, Step, Remembers, WindowFrom, HeldReads, PendingReads;
    }
  }

  lemma StepLast(s: State, op: Op)
    requires op.Input? ==> !op.kind.Down? && !op.kind.Up?
    ensures Step(s, op).state.last == if op.Reset? then None else s.last
  {
    hide MoveRow, Recorded, Dragged;
  }

  lemma PressLast(ops: seq<Op>, op: Op, b: Button)
    requires Reads(ops) && Presses(op, b)
    ensures LastReads(ops + [op], Step(Run(ops).state, op).state)
  {
    var s := Run(ops).state;
    RemembersStep(ops, op);
    Prefix(ops, op);
    FlushIs(s);
    DoublesIs(ops, Flush(s).state, b, op.pos, op.window, op.now);
    hide Run, Flush, DoubleClickInterval, Doubles, Remembers, HeldReads, PendingReads, WindowFrom;
  }

  lemma ReleaseLast(ops: seq<Op>, op: Op, b: Button)
    requires Reads(ops) && LetsGo(op, b)
    ensures LastReads(ops + [op], Step(Run(ops).state, op).state)
  {
    var s := Run(ops).state;
    RemembersStep(ops, op);
    Prefix(ops, op);
    FlushIs(s);
    assert HeldReads(ops, s, b);
    if b in s.active { DragIs(ops, s, b, op); }
    hide Run, Flush, Remembers, HeldAt, PendingReads, WindowFrom, PosFrom, TotalsFrom, PathFrom, EndsDrag, IsDrag, IsSecond, Doubles;
  }

  /** Whatever the run, the machine's state says of the raw history what these
      functions say of it. */
  lemma {:induction false} StateReadsHistory(ops: seq<Op>)
    ensures Reads(ops)
  {
    if ops == [] {
      NothingRead();
    } else {
      var before, op := ops[..|ops| - 1], ops[|ops| - 1];
      assert ops == before + [op];
      hide *;
      StateReadsHistory(before);
      ReadsStep(before, op);
    }
  }

  lemma ReadsStep(ops: seq<Op>, op: Op)
    requires Reads(ops)
    ensures Reads(ops + [op])
  {
    RunStep(ops, op);
    hide Run, Step, HeldReads, PendingReads, LastReads;
    forall b ensures HeldReads(ops + [op], Run(ops + [op]).state, b) { HeldReadsStep(ops, op, b); }
    PendingReadsStep(ops, op);
    LastReadsStep(ops, op);
  }

  // ------------------------------------------------- the rows are the history

  /** The row that closes the open batch of moves. */
  function MoveRows(ops: seq<Op>): seq<Row> {
    match OpenFrom(ops)
    case None => []
    case Some(f) =>
      [MouseMove(LastMoveAt(ops), TotalsFrom(ops, f), Ms(LastMoveAt(ops), At(ops[f])), PosFrom(ops, f), WindowFrom(ops, f))]
  }

  function PressRows(ops: seq<Op>, op: Op): seq<Row>
    requires op.Input? && op.kind.Down?
  {
    [MouseClick(op.now, op.kind.button, op.pos, op.window)] +
    if Doubles(ops, op) then
      [MouseDoubleClick(op.now, op.kind.button, Ms(op.now, At(ops[Remembers(ops).value.press])), op.pos, op.window)]
    else []
  }

  function ReleaseRows(ops: seq<Op>, op: Op): seq<Row>
    requires op.Input? && op.kind.Up?
  {
    match HeldAt(ops, op.kind.button)
    case None => []
    case Some(d) =>
      if !EndsDrag(ops, d, op) then [] else
        [MouseDrag(op.now, op.kind.button, TotalsFrom(ops, d), Ms(op.now, At(ops[d])), PosOf(ops[d]), EndPos(ops, d, op),
                   WindowFrom(ops, d))]
  }

  /** A notch is 120 wheel units, held to 32 bits. */
  function Notches(ticks: int): int {
    if ticks * 120 < -2147483648 then -2147483648 else if ticks * 120 > 2147483647 then 2147483647 else ticks * 120
  }

  /** Everything one operation puts out. */
  function RowsOf(ops: seq<Op>, op: Op): seq<Row> {
    if !Closes(op, if OpenFrom(ops).Some? then At(ops[OpenFrom(ops).value]) else 0) then []
    else if op.FlushDue? then MoveRows(ops)
    else if op.kind.Down? then MoveRows(ops) + PressRows(ops, op)
    else if op.kind.Up? then MoveRows(ops) + ReleaseRows(ops, op)
    else MoveRows(ops) + [MouseWheel(op.now, op.kind.axis, Notches(op.kind.ticks), op.pos, op.window)]
  }

  function AllRows(ops: seq<Op>): seq<Row> {
    if ops == [] then [] else AllRows(ops[..|ops| - 1]) + RowsOf(ops[..|ops| - 1], ops[|ops| - 1])
  }

  lemma FlushRows(ops: seq<Op>)
    requires Reads(ops)
    ensures Flush(Run(ops).state).rows == MoveRows(ops)
  {
    FlushIs(Run(ops).state);
    hide Run, Flush, OpenFrom, LastMoveAt, TotalsFrom, PosFrom, WindowFrom, HeldReads, LastReads;
  }

  lemma PressPutsOut(ops: seq<Op>, op: Op)
    requires Reads(ops) && op.Input? && op.kind.Down?
    ensures Press(Flush(Run(ops).state).state, op.kind.button, op.pos, op.window, op.now).rows == PressRows(ops, op)
  {
    var s := Run(ops).state;
    FlushIs(s);
    assert LastReads(ops, Flush(s).state);
    DoublesIs(ops, Flush(s).state, op.kind.button, op.pos, op.window, op.now);
    hide Run, Flush, DoubleClickInterval, Doubles, Remembers, HeldReads, PendingReads, LastReads, Ms;
  }

  lemma ReleasePutsOut(ops: seq<Op>, op: Op)
    requires Reads(ops) && op.Input? && op.kind.Up?
    ensures Release(Flush(Run(ops).state).state, op.kind.button, op.pos, op.now).rows == ReleaseRows(ops, op)
  {
    var s, b := Run(ops).state, op.kind.button;
    FlushIs(s);
    assert HeldReads(ops, s, b);
    if b in s.active { DragIs(ops, s, b, op); }
    hide Run, Flush, HeldAt, PendingReads, LastReads, WindowFrom, PosFrom, TotalsFrom, PathFrom, EndsDrag, IsDrag, IsSecond;
  }

  /** What a step puts out besides the closed batch. */
  lemma StepRows(s: State, op: Op)
    ensures Step(s, op).rows ==
      if !Closes(op, if s.pending.Some? then s.pending.value.startedAt else 0) then []
      else if op.FlushDue? then Flush(s).rows
      else if op.kind.Down? then Flush(s).rows + Press(Flush(s).state, op.kind.button, op.pos, op.window, op.now).rows
      else if op.kind.Up? then Flush(s).rows + Release(Flush(s).state, op.kind.button, op.pos, op.now).rows
      else Flush(s).rows + [MouseWheel(op.now, op.kind.axis, Notches(op.kind.ticks), op.pos, op.window)]
  {
    FlushIs(s);
    hide Press, Release, Flush, Move;
  }

  /** Whatever came before, an operation puts out exactly what the raw history asks for. */
  lemma StepRowsFollowHistory(ops: seq<Op>, op: Op)
    ensures Step(Run(ops).state, op).rows == RowsOf(ops, op)
  {
    StateReadsHistory(ops);
    StepRows(Run(ops).state, op);
    FlushRows(ops);
    if op.Input? && op.kind.Down? { PressPutsOut(ops, op); }
    if op.Input? && op.kind.Up? { ReleasePutsOut(ops, op); }
    hide Run, Step, Flush, Press, Release, OpenFrom, MoveRows, PressRows, ReleaseRows, Notches, HeldReads, LastReads, LastMoveAt;
  }

  /** The rows of a run are those its raw history asks for, said without the machine. */
  lemma {:induction false} RowsFollowHistory(ops: seq<Op>)
    ensures Run(ops).rows == AllRows(ops)
  {
    hide RowsOf, Step;
    if ops != [] {
      RowsFollowHistory(ops[..|ops| - 1]);
      StepRowsFollowHistory(ops[..|ops| - 1], ops[|ops| - 1]);
    }
  }

  // --------------------------------------------------- drags and double clicks

  ghost predicate Drags(rows: seq<Row>) { exists k :: 0 <= k < |rows| && rows[k].MouseDrag? }

  /** A drag comes out exactly when a held button is let go after a path of 8 pixels or
      more than 8 pixels away. It comes last and alone, names the press point, the last
      known point and window, and leaves no click to double. */
  lemma DragIff(ops: seq<Op>, op: Op)
    ensures var o := Step(Run(ops).state, op);
      && (Drags(o.rows) <==> op.Input? && op.kind.Up? && HeldAt(ops, op.kind.button).Some?
                              && EndsDrag(ops, HeldAt(ops, op.kind.button).value, op))
      && (Drags(o.rows) ==>
            var d := HeldAt(ops, op.kind.button).value;
            && o.rows[|o.rows| - 1] == MouseDrag(op.now, op.kind.button, TotalsFrom(ops, d), Ms(op.now, At(ops[d])), PosOf(ops[d]),
                                                 EndPos(ops, d, op), WindowFrom(ops, d))
            && !Drags(o.rows[..|o.rows| - 1])
            && o.state.last == None)
  {
    StepRowsFollowHistory(ops, op);
    StateReadsHistory(ops + [op]);
    RunStep(ops, op);
    RemembersStep(ops, op);
    hide Run, Step, HeldAt, EndsDrag, OpenFrom, Doubles, Remembers, TotalsFrom, PosFrom, WindowFrom, LastMoveAt, Notches, IsSecond,
         HeldReads, PendingReads;
    if op.Input? && op.kind.Up? {
      assert RowsOf(ops, op) == MoveRows(ops) + ReleaseRows(ops, op);
      if HeldAt(ops, op.kind.button).Some? && EndsDrag(ops, HeldAt(ops, op.kind.button).value, op) {
        assert RowsOf(ops, op)[|MoveRows(ops)|].MouseDrag?;
        assert RowsOf(ops, op)[..|MoveRows(ops)|] == MoveRows(ops);
      }
    }
  }

  /** The remembered click: its press held its button until its release, which ended no
      drag, and was not itself the second of a double click. */
  ghost predicate IsClean(ops: seq<Op>, c: Click) {
    && c.press < c.release < |ops| && ops[c.press].Input? && ops[c.press].kind.Down?
    && LetsGo(ops[c.release], ops[c.press].kind.button)
    && HeldAt(ops[..c.release], ops[c.press].kind.button) == Some(c.press)
    && !EndsDrag(ops[..c.release], c.press, ops[c.release]) && !IsSecond(ops, c.press)
  }

  lemma {:induction false} RememberedIsClean(ops: seq<Op>)
    ensures Remembers(ops).Some? ==> IsClean(ops, Remembers(ops).value)
  {
    if ops != [] {
      var before, op := ops[..|ops| - 1], ops[|ops| - 1];
      assert ops == before + [op];
      hide *;
      RememberedIsClean(before);
      CleanStep(before, op);
    }
  }

  lemma CleanGrows(ops: seq<Op>, op: Op, c: Click)
    requires IsClean(ops, c)
    ensures IsClean(ops + [op], c)
  {
    Prefix(ops, op);
    hide HeldAt, EndsDrag, Doubles;
  }

  lemma CleanStep(ops: seq<Op>, op: Op)
    requires Remembers(ops).Some? ==> IsClean(ops, Remembers(ops).value)
    ensures Remembers(ops + [op]).Some? ==> IsClean(ops + [op], Remembers(ops + [op]).value)
  {
    RemembersStep(ops, op);
    if Remembers(ops).Some? { CleanGrows(ops, op, Remembers(ops).value); }
    Prefix(ops, op);
    hide Remembers, HeldAt, EndsDrag, Doubles;
  }

  ghost predicate DoubleClicks(rows: seq<Row>) { exists k :: 0 <= k < |rows| && rows[k].MouseDoubleClick? }

  /** A double click comes out exactly when the press doubles the remembered click. It
      comes last and alone with the time between the presses, the first press ended in
      no drag and was no second press, and the click is spent. */
  lemma DoubleClickIff(ops: seq<Op>, op: Op)
    ensures var o := Step(Run(ops).state, op);
      && (DoubleClicks(o.rows) <==> Doubles(ops, op))
      && (DoubleClicks(o.rows) ==>
            var c := Remembers(ops).value;
            && IsClean(ops, c) && Presses(op, ops[c.press].kind.button)
            && o.rows[|o.rows| - 1] == MouseDoubleClick(op.now, op.kind.button, Ms(op.now, At(ops[c.press])), op.pos, op.window)
            && !DoubleClicks(o.rows[..|o.rows| - 1])
            && o.state.last == None)
  {
    StepRowsFollowHistory(ops, op);
    StateReadsHistory(ops + [op]);
    RunStep(ops, op);
    RemembersStep(ops, op);
    RememberedIsClean(ops);
    hide Run, Step, HeldAt, EndsDrag, OpenFrom, Remembers, TotalsFrom, PosFrom, WindowFrom, LastMoveAt, Notches, IsSecond,
         HeldReads, PendingReads, SameWindow, Beyond;
    if op.Input? && op.kind.Down? {
      assert RowsOf(ops, op) == MoveRows(ops) + PressRows(ops, op);
      if Doubles(ops, op) {
        var rows := RowsOf(ops, op);
        assert rows[|rows| - 1].MouseDoubleClick?;
        assert rows[..|rows| - 1] == MoveRows(ops) + [MouseClick(op.now, op.kind.button, op.pos, op.window)];
      }
    }
  }
}
