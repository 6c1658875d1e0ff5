/** Whole runs of `CapturePause`: which steps keep the pause rows of the log in
    order, whatever comes between them, and what goes wrong after any other. */
module CapturePauseRuns {
  import opened CapturePause

  // ---------------------------------------------------------- fair steps

  /** A toggle handler that saw no operation and is yet to move the gate. */
  predicate Unsettled(pump: Pump) {
    pump == Flip(false) || (pump.PumpShake? && !pump.shake.Lower? && !pump.shake.GiveUp?)
  }

  /** An operation begins with the user's pause standing if the log says paused, and
      not under a handler that will still move the gate; a toggle does not fall between
      an operation's reading of the pause and its raising of its own flag; and an operation
      that began unpaused does not come to its restore paused with rows still in the
      pipeline, which only a failed flush can leave there. */
  predicate Fair(s: State, a: Act) {
    match a
    case OpBegin => s.op.OpIdle? ==> (PausedNow(s.log) ==> s.userPaused) && !Unsettled(s.pump)
    case Toggle => s.pump.PumpIdle? ==> !s.op.Own?
    case OpGo(_, _, _) => s.op.Restore? && s.pipe != [] && s.userPaused ==> s.op.manual
    case _ => true
  }

  predicate FairFrom(s: State, acts: seq<Act>) {
    acts == [] || (
      var before, a := acts[..|acts| - 1], acts[|acts| - 1];
      FairFrom(s, before) && Fair(RunFrom(s, before), a))
  }

  // ------------------------------------------------------- the invariant

  /** The log says paused only behind a closed gate and an empty pipeline. */
  predicate Shut(s: State) { PausedNow(s.log) ==> s.suspended && s.pipe == [] }

  /** The user's pause stands for as long as the pump's handler is at work: an
      operation under way, if any, began with it. */
  predicate Kept(s: State) {
    s.userPaused && match s.op
      case OpIdle => true
      case Own(manual) => manual
      case OpSuspend(manual) => manual
      case OpFlush(manual) => manual
      case Work(manual) => manual
      case Restore(manual, _) => manual
      case Hold(manual, _) => manual
      case RePause => true
      case OpShake(_, _) => false
      case OpFailed => false
      case Close => true
  }

  predicate PumpOk(s: State) {
    match s.pump
    case PumpIdle => true
    case Flip(owned) => owned || s.op.OpIdle?
    case Suspend(owned) => owned || Kept(s)
    case PauseFlush => Kept(s) && s.suspended
    case PauseRow => Kept(s) && s.suspended && s.pipe == []
    case PumpShake(shake) =>
      shake.Lower? || shake.GiveUp? || (s.op.OpIdle? && !s.userPaused && (shake.Open? ==> !PausedNow(s.log)))
    case PumpFailed => true
  }

  predicate OpOk(s: State) {
    s.owned == (!s.op.OpIdle? && !s.op.Own?) &&
    match s.op
    case OpIdle => true
    case Own(manual) => !manual ==> !PausedNow(s.log)
    case OpSuspend(manual) => !manual ==> !PausedNow(s.log)
    case OpFlush(manual) => s.suspended && (!manual ==> !PausedNow(s.log))
    case Work(manual) => s.suspended && s.pipe == [] && (!manual ==> !PausedNow(s.log))
    case Restore(manual, replaced) => s.suspended && (!manual ==> !PausedNow(s.log)) && (replaced ==> s.pipe == [])
    case Hold(manual, replaced) => s.suspended && (s.pipe == [] || (manual && !replaced))
    case RePause => s.suspended && s.pipe == []
    case OpShake(manual, shake) =>
      (!manual ==> !PausedNow(s.log)) && (shake.Open? || shake.Lower? ==> !PausedNow(s.log))
    case OpFailed => true
    case Close => true
  }

  predicate Inv(s: State) { Clean(s.log) && Shut(s) && PumpOk(s) && OpOk(s) }

  lemma TrafficInv(s: State, a: Act)
    requires Inv(s) && (a.Produce? || a.Forward?)
    ensures Inv(Next(s, a))
  {
    hide Clean, PausedNow;
    if a.Forward? && s.pipe != [] { LogStep(s.log, Data(s.pipe[0])); }
  }

  lemma BeginInv(s: State, a: Act)
    requires Inv(s) && Fair(s, a) && (a.Toggle? || a.OpBegin?)
    ensures Inv(Next(s, a))
  {
    hide Clean, PausedNow;
  }

  lemma PumpInv(s: State, good: bool)
    requires Inv(s) && !s.pump.PumpShake?
    ensures Inv(PumpStep(s, good))
  {
    hide Clean, PausedNow, Append, ShakeStep;
    LogStep(s.log, CapturePaused);
  }

  lemma PumpShakeInv(s: State, good: bool)
    requires Inv(s) && s.pump.PumpShake?
    ensures Inv(PumpStep(s, good))
  {
    hide Clean, PausedNow, Append, Kept;
    LogStep(s.log, CaptureResumed);
  }

  lemma OpInv(s: State, good: bool, replaced: bool, lost: bool)
    requires Inv(s) && (s.op.OpIdle? || s.op.Own? || s.op.OpSuspend? || s.op.OpFlush? || s.op.Work?)
    ensures Inv(OpStep(s, good, replaced, lost))
  {
    hide Clean, PausedNow, ShakeStep, Append;
    LogStep(s.log, SessionStarted);
  }

  lemma OpEndInv(s: State, good: bool, replaced: bool, lost: bool)
    requires Inv(s) && Fair(s, OpGo(good, replaced, lost))
    requires s.op.Restore? || s.op.Hold? || s.op.RePause? || s.op.OpFailed? || s.op.Close?
    ensures Inv(OpStep(s, good, replaced, lost))
  {
    hide Clean, PausedNow, ShakeStep, Append;
    LogStep(s.log, CapturePaused);
  }

  lemma OpShakeInv(s: State, good: bool, replaced: bool, lost: bool)
    requires Inv(s) && s.op.OpShake?
    ensures Inv(OpStep(s, good, replaced, lost))
  {
    hide Clean, PausedNow, Append;
    LogStep(s.log, CaptureResumed);
  }

  /** Every fair step keeps the pause invariant. */
  lemma StepInv(s: State, a: Act)
    requires Inv(s) && Fair(s, a)
    ensures Inv(Next(s, a))
  {
    hide Inv, PumpStep, OpStep;
    match a {
      case Produce => TrafficInv(s, a);
      case Forward => TrafficInv(s, a);
      case Toggle => BeginInv(s, a);
      case PumpGo(good) => if s.pump.PumpShake? { PumpShakeInv(s, good); } else { PumpInv(s, good); }
      case OpBegin => BeginInv(s, a);
      case OpGo(good, replaced, lost) =>
        if s.op.OpShake? { OpShakeInv(s, good, replaced, lost); }
        else if s.op.Restore? || s.op.Hold? || s.op.RePause? || s.op.OpFailed? || s.op.Close? {
          OpEndInv(s, good, replaced, lost);
        } else {
          OpInv(s, good, replaced, lost);
        }
    }
  }

  lemma {:induction false} RunInv(s: State, acts: seq<Act>)
    requires Inv(s) && FairFrom(s, acts)
    ensures Inv(RunFrom(s, acts))
  {
    hide Inv, Next, Fair;
    if acts != [] {
      RunInv(s, acts[..|acts| - 1]);
      StepInv(RunFrom(s, acts[..|acts| - 1]), acts[|acts| - 1]);
    }
  }

  lemma InvIsSafe(s: State)
    requires Inv(s)
    ensures Clean(s.log) && Guarded(s)
  {}

  lemma StartInv()
    ensures Inv(START)
  {}

  /** In a run of fair steps no captured row ever lies between a pause and the next
      resume, and none can, whatever traffic comes. */
  lemma FairRunsStayClean(acts: seq<Act>)
    requires FairFrom(START, acts)
    ensures Clean(Run(acts).log) && Safe(Run(acts))
  {
    hide Inv, FairFrom, Safe;
    StartInv();
    RunInv(START, acts);
    InvIsSafe(Run(acts));
    SafeIffGuarded(Run(acts));
  }

  // ---------------------------------------------- every unfair step can leak

  /** Some continuation of fair steps puts a captured row after a pause. */
  ghost predicate CanLeak(s: State) { exists more: seq<Act> :: FairFrom(s, more) && !Clean(RunFrom(s, more).log) }

  lemma LeakNow(s: State)
    requires !Clean(s.log)
    ensures CanLeak(s)
  {
    assert FairFrom(s, []) && RunFrom(s, []) == s;
  }

  lemma {:induction false} FairPrepend(s: State, a: Act, more: seq<Act>)
    requires Fair(s, a) && FairFrom(Next(s, a), more)
    ensures FairFrom(s, [a] + more) && RunFrom(s, [a] + more) == RunFrom(Next(s, a), more)
  {
    hide Next, Fair;
    if more == [] {
      assert [a] + more == [a] && [a][..0] == [];
      RunOne(s, a);
    } else {
      FairPrepend(s, a, more[..|more| - 1]);
      assert ([a] + more)[..|more|] == [a] + more[..|more| - 1];
    }
  }

  lemma LeakBefore(s: State, a: Act)
    requires Fair(s, a) && CanLeak(Next(s, a))
    ensures CanLeak(s)
  {
    hide Next, Fair, FairFrom, RunFrom, Clean;
    var more: seq<Act> :| FairFrom(Next(s, a), more) && !Clean(RunFrom(Next(s, a), more).log);
    FairPrepend(s, a, more);
  }

  /** A step of the operation, or of the pump, with its answers as hoped for. */
  const OP_ON := OpGo(true, false, false)
  const PUMP_ON := PumpGo(true)

  lemma RowsAfterPause(s: State)
    requires PausedNow(s.log) && s.pipe != []
    ensures CanLeak(s)
  {
    hide CanLeak, PausedNow, Clean;
    LogStep(s.log, Data(s.pipe[0]));
    LeakNow(Next(s, Forward));
    LeakBefore(s, Forward);
  }

  lemma RePauseOverRows(s: State)
    requires s.op.RePause? && s.pipe != []
    ensures CanLeak(s)
  {
    hide CanLeak, PausedNow, Clean;
    LogStep(s.log, CapturePaused);
    RowsAfterPause(Next(s, OP_ON));
    LeakBefore(s, OP_ON);
  }

  lemma HoldOverRows(s: State)
    requires s.op.Hold? && (!s.op.manual || s.op.replaced) && s.pipe != []
    ensures CanLeak(s)
  {
    hide CanLeak, PausedNow, Clean;
    RePauseOverRows(Next(s, OP_ON));
    LeakBefore(s, OP_ON);
  }

  lemma HoldPastOpenGate(s: State)
    requires s.op.Hold? && (!s.op.manual || s.op.replaced) && GateOpen(s)
    ensures CanLeak(s)
  {
    hide CanLeak, PausedNow, Clean;
    HoldOverRows(Next(s, Produce));
    LeakBefore(s, Produce);
  }

  lemma OpenOverPause(s: State)
    requires s.op.OpShake? && s.op.opShake.Open? && PausedNow(s.log)
    ensures CanLeak(s)
  {
    hide CanLeak, PausedNow, Clean;
    var t := Next(s, OP_ON);
    var u := Next(t, OP_ON);
    RowsAfterPause(Next(u, Produce));
    LeakBefore(u, Produce);
    LeakBefore(t, OP_ON);
    LeakBefore(s, OP_ON);
  }

  function AtWork(s: State, manual: bool): State { s.(owned := true, suspended := true, op := Work(manual)) }

  lemma OwnToWork(s: State, manual: bool)
    requires s.op == Own(manual) && s.pipe == [] && CanLeak(AtWork(s, manual))
    ensures CanLeak(s)
  {
    hide CanLeak, PausedNow, Clean;
    var t := Next(s, OP_ON);
    var u := Next(t, OP_ON);
    assert Next(u, OP_ON) == AtWork(s, manual);
    LeakBefore(u, OP_ON);
    LeakBefore(t, OP_ON);
    LeakBefore(s, OP_ON);
  }

  /** The operation's handshake about to open the gate. */
  function AtOpen(s: State, manual: bool): State {
    s.(barrier := true, log := if manual then s.log + [CaptureResumed] else s.log, op := OpShake(manual, Open))
  }

  lemma DrainToOpen(s: State, manual: bool)
    requires s.op == OpShake(manual, Drain(0)) && s.barrier && s.pipe == [] && CanLeak(AtOpen(s, manual))
    ensures CanLeak(s)
  {
    hide CanLeak, PausedNow, Clean;
    var t := Next(s, OP_ON);
    assert Next(t, OP_ON) == AtOpen(s, manual);
    LeakBefore(t, OP_ON);
    LeakBefore(s, OP_ON);
  }

  lemma WorkToOpen(s: State, manual: bool)
    requires s.op == Work(manual) && !s.userPaused && s.pipe == [] && CanLeak(AtOpen(s, manual))
    ensures CanLeak(s)
  {
    hide CanLeak, PausedNow, Clean;
    var t := s.(op := Restore(manual, false));
    var u := s.(op := OpShake(manual, Raise));
    var v := s.(barrier := true, op := OpShake(manual, Drain(0)));
    assert AtOpen(v, manual) == AtOpen(s, manual);
    DrainToOpen(v, manual);
    assert Next(u, OP_ON) == v && Next(t, OP_ON) == u && Next(s, OP_ON) == t;
    LeakBefore(u, OP_ON);
    LeakBefore(t, OP_ON);
    LeakBefore(s, OP_ON);
  }

  /** An operation that began unpaused over a log that says paused opens the gate
      without a boundary. */
  lemma OwnOverPause(s: State)
    requires s.op == Own(false) && !s.userPaused && PausedNow(s.log) && s.pipe == []
    ensures CanLeak(s)
  {
    hide CanLeak, PausedNow, Clean;
    OpenOverPause(AtOpen(AtWork(s, false), false));
    WorkToOpen(AtWork(s, false), false);
    OwnToWork(s, false);
  }

  /** An operation at work behind an open gate writes its pause row over new rows. */
  lemma WorkPastOpenGate(s: State)
    requires s.op.Work? && s.pump.PumpIdle? && !s.userPaused && s.owned && GateOpen(s) && s.pipe == []
    ensures CanLeak(s)
  {
    hide CanLeak, PausedNow, Clean;
    var t := Next(s, Toggle);
    var u := Next(t, PUMP_ON);
    var v := Next(u, OpGo(true, true, false));
    HoldPastOpenGate(Next(v, OP_ON));
    LeakBefore(v, OP_ON);
    LeakBefore(u, OpGo(true, true, false));
    LeakBefore(t, PUMP_ON);
    LeakBefore(s, Toggle);
  }

  function Steps(shake: Shake): nat { match shake case Raise => 3 case Drain(_) => 2 case Boundary => 1 case _ => 0 }

  /** The pump's handshake opens the gate under an operation at work. */
  lemma {:induction false} ShakeUnderOperation(s: State)
    requires s.op.Own? && Unsettled(s.pump) && s.pump.PumpShake? && !s.userPaused
    ensures CanLeak(s)
    decreases |s.pipe|, Steps(s.pump.shake)
  {
    hide CanLeak, PausedNow, Clean;
    if s.pipe != [] {
      ShakeUnderOperation(Next(s, Forward));
      LeakBefore(s, Forward);
    } else if !s.pump.shake.Open? {
      ShakeUnderOperation(Next(s, PUMP_ON));
      LeakBefore(s, PUMP_ON);
    } else {
      var t := AtWork(s, s.op.manual);
      var u := Next(t, PUMP_ON);
      WorkPastOpenGate(Next(u, PUMP_ON));
      LeakBefore(u, PUMP_ON);
      LeakBefore(t, PUMP_ON);
      OwnToWork(s, s.op.manual);
    }
  }

  /** The operation's handshake opens the gate between the pump's flush and its row. */
  lemma OpenUnderFlip(s: State)
    requires s.op.OpShake? && s.op.opShake.Open? && s.pump == Flip(false) && !s.userPaused && s.pipe == []
    ensures CanLeak(s)
  {
    hide CanLeak, PausedNow, Clean;
    var t := Next(s, PUMP_ON);
    var u := Next(t, PUMP_ON);
    var v := Next(u, PUMP_ON);
    assert v.pump.PauseRow? && v.pipe == [] && v.op == s.op;
    OpenUnderPauseRow(v);
    LeakBefore(u, PUMP_ON);
    LeakBefore(t, PUMP_ON);
    LeakBefore(s, PUMP_ON);
  }

  lemma OpenUnderPauseRow(s: State)
    requires s.op.OpShake? && s.op.opShake.Open? && s.pump.PauseRow?
    ensures CanLeak(s)
  {
    hide CanLeak, PausedNow, Clean;
    var t := Next(s, OP_ON);
    var u := Next(t, OP_ON);
    var v := Next(u, Produce);
    LogStep(v.log, CapturePaused);
    RowsAfterPause(Next(v, PUMP_ON));
    LeakBefore(v, PUMP_ON);
    LeakBefore(u, Produce);
    LeakBefore(t, OP_ON);
    LeakBefore(s, OP_ON);
  }

  lemma {:induction false} FlipUnderOperation(s: State)
    requires s.op.Own? && s.pump == Flip(false)
    ensures CanLeak(s)
    decreases |s.pipe|
  {
    hide CanLeak, PausedNow, Clean;
    if s.pipe != [] {
      FlipUnderOperation(Next(s, Forward));
      LeakBefore(s, Forward);
    } else if s.userPaused {
      ShakeUnderOperation(Next(s, PUMP_ON));
      LeakBefore(s, PUMP_ON);
    } else {
      var manual := s.op.manual;
      OpenUnderFlip(AtOpen(AtWork(s, manual), manual));
      WorkToOpen(AtWork(s, manual), manual);
      OwnToWork(s, manual);
    }
  }

  lemma UnfairStepLeaks(s: State, a: Act)
    requires Inv(s) && !Fair(s, a)
    ensures CanLeak(Next(s, a))
  {
    hide CanLeak, PausedNow, Clean;
    match a {
      case OpBegin =>
        if s.pump == Flip(false) { FlipUnderOperation(Next(s, a)); }
        else if Unsettled(s.pump) { ShakeUnderOperation(Next(s, a)); }
        else { OwnOverPause(Next(s, a)); }
      case Toggle => FlipUnderOperation(Next(s, a));
      case OpGo(_, _, _) => HoldOverRows(Next(s, a));
      case _ =>
    }
  }

  lemma CleanHereafter(s: State)
    requires Inv(s)
    ensures !CanLeak(s)
  {
    hide Next, Fair, Clean, Inv, FairFrom, RunFrom;
    forall more: seq<Act> | FairFrom(s, more) ensures Clean(RunFrom(s, more).log) {
      RunInv(s, more);
      InvIsSafe(RunFrom(s, more));
    }
  }

  /** The conditions are exact. From any state that fair steps can lead to, a step of
      any kind is fair exactly when no continuation of fair steps after it puts a
      captured row after a pause. */
  lemma FairIffNothingLeaks(s: State, a: Act)
    requires Inv(s)
    ensures Fair(s, a) <==> !CanLeak(Next(s, a))
  {
    hide Next, Fair, Inv, CanLeak;
    if Fair(s, a) {
      StepInv(s, a);
      CleanHereafter(Next(s, a));
    } else {
      UnfairStepLeaks(s, a);
    }
  }

  /** The same over whole runs: after a run of fair steps the next step is fair
      exactly when no fair continuation leaks. */
  lemma FairRunsAreTheCleanOnes(acts: seq<Act>, a: Act)
    requires FairFrom(START, acts)
    ensures FairFrom(START, acts + [a]) <==> !CanLeak(Run(acts + [a]))
  {
    hide Next, Fair, Clean, Inv, CanLeak;
    StartInv();
    RunInv(START, acts);
    assert (acts + [a])[..|acts|] == acts;
    assert Run(acts + [a]) == Next(Run(acts), a);
    FairIffNothingLeaks(Run(acts), a);
  }

  // ------------------------------------------------------ two unfair runs

  lemma RunFour(s: State, a: seq<Act>)
    requires |a| == 4
    ensures RunFrom(s, a) == Next(Next(Next(Next(s, a[0]), a[1]), a[2]), a[3])
  {
    assert a[..3][..2] == a[..2] == [a[0], a[1]];
    RunTwo(s, a[0], a[1]);
    hide Next;
  }

  lemma FourStates(s: State, a: seq<Act>, t: State, u: State, v: State, w: State)
    requires |a| == 4 && Next(s, a[0]) == t && Next(t, a[1]) == u && Next(u, a[2]) == v && Next(v, a[3]) == w
    ensures RunFrom(s, a) == w
  {
    hide Next, RunFrom;
    RunFour(s, a);
  }

  /** The user pauses while an operation's flush is failing: the operation writes
      the pause row over a pipeline that was never drained. */
  const LEAK_BEGINS: seq<Act> := [Produce, OpBegin, OP_ON, OP_ON]
  const LEAK_PAUSES: seq<Act> := [Toggle, PUMP_ON, PUMP_ON, OpGo(false, false, false)]
  const LEAK_WRITES: seq<Act> := [OP_ON, OP_ON, OP_ON, Forward]

  lemma LeakBegins()
    ensures RunFrom(START, LEAK_BEGINS) == State(true, false, false, true, [0], 1, [], PumpIdle, OpFlush(false))
  {
    hide RunFrom, Clean, PausedNow;
    RunFour(START, LEAK_BEGINS);
  }

  lemma LeakPauses(s: State)
    requires s == State(true, false, false, true, [0], 1, [], PumpIdle, OpFlush(false))
    ensures RunFrom(s, LEAK_PAUSES) == State(true, false, true, true, [0], 1, [], PumpIdle, Restore(false, false))
  {
    hide RunFrom, Clean, PausedNow;
    RunFour(s, LEAK_PAUSES);
  }

  lemma LeakWrites(s: State)
    requires s == State(true, false, true, true, [0], 1, [], PumpIdle, Restore(false, false))
    ensures RunFrom(s, LEAK_WRITES).log == [CapturePaused, Data(0)]
  {
    hide RunFrom, Clean, PausedNow;
    RunFour(s, LEAK_WRITES);
    assert [] + [CapturePaused] == [CapturePaused];
  }

  lemma LeakedLog()
    ensures !Clean([CapturePaused, Data(0)])
  {
    assert [CapturePaused, Data(0)] == [CapturePaused] + [Data(0)];
    LogStep([], CapturePaused);
    LogStep([CapturePaused], Data(0));
    assert [] + [CapturePaused] == [CapturePaused];
  }

  /** After the flush has failed the operation writes its pause row, and the row
      captured before it all follows. */
  lemma FailedFlushLeaksRow()
    ensures var log := Run(LEAK_BEGINS + LEAK_PAUSES + LEAK_WRITES).log;
      log == [CapturePaused, Data(0)] && !Clean(log)
  {
    hide RunFrom, Clean, LEAK_BEGINS, LEAK_PAUSES, LEAK_WRITES;
    RunAppend(START, LEAK_BEGINS + LEAK_PAUSES, LEAK_WRITES);
    RunAppend(START, LEAK_BEGINS, LEAK_PAUSES);
    LeakBegins();
    LeakPauses(RunFrom(START, LEAK_BEGINS));
    LeakWrites(RunFrom(START, LEAK_BEGINS + LEAK_PAUSES));
    LeakedLog();
  }

  /** The user pauses; an operation comes and goes; during its closing report the user
      lifts the pause, which only clears the flag; the next operation opens the gate
      without a boundary. No flush fails and no two threads race. */
  const LIFT_PAUSES: seq<Act> := [PUMP_ON, PUMP_ON, PUMP_ON, PUMP_ON]
  const LIFT_HOLDS: seq<Act> := [OpBegin, OP_ON, OP_ON, OP_ON]
  const LIFT_CLOSES: seq<Act> := [OP_ON, OP_ON, OP_ON, Toggle]
  const LIFT_LIFTS: seq<Act> := [PUMP_ON, OP_ON, OpBegin, OP_ON]
  const LIFT_RETURNS: seq<Act> := [OP_ON, OP_ON, OP_ON, OP_ON]
  const LIFT_OPENS: seq<Act> := [OP_ON, OP_ON, OP_ON, OP_ON]
  const LIFT_LEAKS: seq<Act> := [OP_ON, OP_ON, Produce, Forward]

  lemma LiftPauses(s: State)
    requires s == START.(pump := Flip(false))
    ensures RunFrom(s, LIFT_PAUSES) == State(true, false, true, false, [], 0, [CapturePaused], PumpIdle, OpIdle)
  {
    hide RunFrom, Clean, PausedNow;
    RunFour(s, LIFT_PAUSES);
    assert [] + [CapturePaused] == [CapturePaused];
  }

  lemma LiftHolds(s: State)
    requires s == State(true, false, true, false, [], 0, [CapturePaused], PumpIdle, OpIdle)
    ensures RunFrom(s, LIFT_HOLDS) == s.(owned := true, op := Work(true))
  {
    hide RunFrom, Clean, PausedNow;
    RunFour(s, LIFT_HOLDS);
  }

  lemma LiftCloses(s: State)
    requires s == State(true, false, true, true, [], 0, [CapturePaused], PumpIdle, Work(true))
    ensures RunFrom(s, LIFT_CLOSES) == s.(pump := Flip(true), op := Close)
  {
    hide RunFrom, Clean, PausedNow;
    FourStates(s, LIFT_CLOSES, s.(op := Restore(true, false)), s.(op := Hold(true, false)), s.(op := Close),
               s.(pump := Flip(true), op := Close));
  }

  lemma LiftLifts(s: State)
    requires s == State(true, false, true, true, [], 0, [CapturePaused], Flip(true), Close)
    ensures RunFrom(s, LIFT_LIFTS) == s.(userPaused := false, pump := PumpIdle, op := OpSuspend(false))
  {
    hide RunFrom, Clean, PausedNow;
    RunFour(s, LIFT_LIFTS);
  }

  lemma LiftReturns(s: State)
    requires s == State(true, false, false, true, [], 0, [CapturePaused], PumpIdle, OpSuspend(false))
    ensures RunFrom(s, LIFT_RETURNS) == s.(op := OpShake(false, Raise))
  {
    hide RunFrom, Clean, PausedNow;
    FourStates(s, LIFT_RETURNS, s.(op := OpFlush(false)), s.(op := Work(false)), s.(op := Restore(false, false)),
               s.(op := OpShake(false, Raise)));
  }

  lemma LiftOpens(s: State)
    requires s == State(true, false, false, true, [], 0, [CapturePaused], PumpIdle, OpShake(false, Raise))
    ensures RunFrom(s, LIFT_OPENS) == s.(barrier := true, suspended := false, op := OpShake(false, Lower))
  {
    hide RunFrom, Clean, PausedNow;
    var raised := s.(barrier := true);
    FourStates(s, LIFT_OPENS, raised.(op := OpShake(false, Drain(0))), raised.(op := OpShake(false, Boundary)),
               raised.(op := OpShake(false, Open)), raised.(suspended := false, op := OpShake(false, Lower)));
  }

  lemma LiftLeaks(s: State)
    requires s == State(false, true, false, true, [], 0, [CapturePaused], PumpIdle, OpShake(false, Lower))
    ensures RunFrom(s, LIFT_LEAKS).log == [CapturePaused, Data(0)]
  {
    hide RunFrom, Clean, PausedNow;
    RunFour(s, LIFT_LEAKS);
    assert [CapturePaused] + [Data(0)] == [CapturePaused, Data(0)];
  }

  lemma LiftedPauseLeaksRow()
    ensures var log := Run([Toggle] + LIFT_PAUSES + LIFT_HOLDS + LIFT_CLOSES + LIFT_LIFTS + LIFT_RETURNS + LIFT_OPENS + LIFT_LEAKS).log;
      log == [CapturePaused, Data(0)] && !Clean(log)
  {
    hide RunFrom, Clean, LIFT_PAUSES, LIFT_HOLDS, LIFT_CLOSES, LIFT_LIFTS, LIFT_RETURNS, LIFT_OPENS, LIFT_LEAKS;
    var a := [Toggle] + LIFT_PAUSES + LIFT_HOLDS;
    var b := a + LIFT_CLOSES + LIFT_LIFTS;
    RunAppend(START, b + LIFT_RETURNS + LIFT_OPENS, LIFT_LEAKS);
    RunAppend(START, b + LIFT_RETURNS, LIFT_OPENS);
    RunAppend(START, b, LIFT_RETURNS);
    RunAppend(START, a + LIFT_CLOSES, LIFT_LIFTS);
    RunAppend(START, a, LIFT_CLOSES);
    RunAppend(START, [Toggle] + LIFT_PAUSES, LIFT_HOLDS);
    RunAppend(START, [Toggle], LIFT_PAUSES);
    RunOne(START, Toggle);
    LiftPauses(RunFrom(START, [Toggle]));
    LiftHolds(RunFrom(START, [Toggle] + LIFT_PAUSES));
    LiftCloses(RunFrom(START, a));
    LiftLifts(RunFrom(START, a + LIFT_CLOSES));
    LiftReturns(RunFrom(START, b));
    LiftOpens(RunFrom(START, b + LIFT_RETURNS));
    LiftLeaks(RunFrom(START, b + LIFT_RETURNS + LIFT_OPENS));
    LeakedLog();
  }
}
