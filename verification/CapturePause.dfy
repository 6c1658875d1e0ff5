/** Pausing, privacy operations and resuming in `main.rs`: producers behind a
    gate, the forwarder between them and the writer, the pump's toggle handler
    and one privacy operation at a time, interleaved step by step. */
module CapturePause {

  import opened Wrappers

  /** What the writer's input log holds. A replacement session starts a new page. */
  datatype Row = Data(n: nat) | CapturePaused | CaptureResumed | SessionStarted

  /** The resume handshake: raise the barrier, drain (up to three times), write the
      boundary, open the gate, lower the barrier. */
  datatype Shake = Raise | Drain(attempt: nat) | Boundary | Open | Lower | GiveUp

  /** The toggle handler in the pump; `owned` is what it read of the operation's flag. */
  datatype Pump =
    | PumpIdle
    | Flip(owned: bool)
    | Suspend(owned: bool)
    | PauseFlush
    | PauseRow
    | PumpShake(shake: Shake)
    | PumpFailed

  /** A privacy operation; `manual` is whether the user had paused when it began. */
  datatype Operation =
    | OpIdle
    | Own(manual: bool)
    | OpSuspend(manual: bool)
    | OpFlush(manual: bool)
    | Work(manual: bool)
    | Restore(manual: bool, replaced: bool)
    | Hold(manual: bool, replaced: bool)
    | RePause
    | OpShake(manual: bool, opShake: Shake)
    | OpFailed
    | Close

  datatype State = State(suspended: bool, barrier: bool, userPaused: bool, owned: bool, pipe: seq<nat>, produced: nat,
                         log: seq<Row>, pump: Pump, op: Operation)

  const START := State(false, false, false, false, [], 0, [], PumpIdle, OpIdle)

  /** One step. `good` is whether the flush, check or write at hand succeeds;
      `replaced` and `lost` are how the operation's work ends. */
  datatype Act =
    | Produce
    | Forward
    | Toggle
    | PumpGo(good: bool)
    | OpBegin
    | OpGo(good: bool, replaced: bool, lost: bool)

  predicate GateOpen(s: State) { !s.suspended && !s.barrier }

  /** A flush is confirmed only when the pipeline is drained. */
  predicate Drained(s: State, good: bool) { good && s.pipe == [] }

  // ---------------------------------------------------------- the handshake

  datatype Progress = Going(shake: Shake) | Done | Failed

  datatype Shaken = Shaken(state: State, progress: Progress)

  function ShakeStep(s: State, shake: Shake, boundary: bool, good: bool): Shaken {
    match shake
    case Raise => Shaken(s.(barrier := true), Going(Drain(0)))
    case Drain(attempt) =>
      if Drained(s, good) then Shaken(s, Going(Boundary))
      else if attempt < 2 then Shaken(s, Going(Drain(attempt + 1)))
      else Shaken(s, Going(GiveUp))
    case Boundary =>
      if !boundary then Shaken(s, Going(Open))
      else if good then Shaken(s.(log := s.log + [CaptureResumed]), Going(Open))
      else Shaken(s, Going(GiveUp))
    case Open => Shaken(s.(suspended := false), Going(Lower))
    case Lower => Shaken(s.(barrier := false), Done)
    case GiveUp => Shaken(s.(barrier := false), Failed)
  }

  // ------------------------------------------------------------ the threads

  function PumpStep(s: State, good: bool): State {
    match s.pump
    case PumpIdle => s
    case Flip(owned) =>
      if s.userPaused then s.(userPaused := false, pump := if owned then PumpIdle else PumpShake(Raise))
      else s.(userPaused := true, pump := Suspend(owned))
    case Suspend(owned) => s.(suspended := true, pump := if owned then PumpIdle else PauseFlush)
    case PauseFlush => s.(pump := if Drained(s, good) then PauseRow else PumpIdle)
    case PauseRow => s.(log := if good then s.log + [CapturePaused] else s.log, pump := PumpIdle)
    case PumpShake(shake) =>
      var r := ShakeStep(s, shake, true, good);
      r.state.(pump := match r.progress case Going(next) => PumpShake(next) case Done => PumpIdle case Failed => PumpFailed)
    case PumpFailed => s.(userPaused := true, pump := PumpIdle)
  }

  function OpStep(s: State, good: bool, replaced: bool, lost: bool): State {
    match s.op
    case OpIdle => s
    case Own(manual) => s.(owned := true, op := OpSuspend(manual))
    case OpSuspend(manual) => s.(suspended := true, op := OpFlush(manual))
    case OpFlush(manual) => s.(op := if Drained(s, good) then Work(manual) else Restore(manual, false))
    case Work(manual) =>
      if lost then s.(op := Close)
      else if replaced then s.(log := s.log + [SessionStarted], op := Restore(manual, true))
      else s.(op := Restore(manual, false))
    case Restore(manual, replaced_) =>
      s.(op := if s.userPaused then Hold(manual, replaced_) else OpShake(manual, Raise))
    case Hold(manual, replaced_) => s.(suspended := true, op := if !manual || replaced_ then RePause else Close)
    case RePause => s.(log := if good then s.log + [CapturePaused] else s.log, op := Close)
    case OpShake(manual, shake) =>
      var r := ShakeStep(s, shake, manual, good);
      r.state.(op := match r.progress case Going(next) => OpShake(manual, next) case Done => Close case Failed => OpFailed)
    case OpFailed => s.(userPaused := true, suspended := true, op := Close)
    case Close => s.(owned := false, op := OpIdle)
  }

  function Next(s: State, a: Act): State {
    match a
    case Produce => if GateOpen(s) then s.(pipe := s.pipe + [s.produced], produced := s.produced + 1) else s
    case Forward => if s.pipe == [] then s else s.(log := s.log + [Data(s.pipe[0])], pipe := s.pipe[1..])
    case Toggle => if s.pump.PumpIdle? then s.(pump := Flip(s.owned)) else s
    case PumpGo(good) => PumpStep(s, good)
    case OpBegin => if s.op.OpIdle? then s.(op := Own(s.userPaused)) else s
    case OpGo(good, replaced, lost) => OpStep(s, good, replaced, lost)
  }

  function RunFrom(s: State, acts: seq<Act>): State {
    if acts == [] then s else Next(RunFrom(s, acts[..|acts| - 1]), acts[|acts| - 1])
  }

  function Run(acts: seq<Act>): State { RunFrom(START, acts) }

  // ------------------------------------------------------------- the log

  /** The last boundary of the current session is a pause. */
  predicate PausedNow(log: seq<Row>) {
    log != [] && match log[|log| - 1]
      case Data(_) => PausedNow(log[..|log| - 1])
      case CapturePaused => true
      case CaptureResumed => false
      case SessionStarted => false
  }

  /** No captured row lies between a pause and the next resume. */
  predicate Clean(log: seq<Row>) {
    log == [] || (Clean(log[..|log| - 1]) && (log[|log| - 1].Data? ==> !PausedNow(log[..|log| - 1])))
  }

  lemma LogStep(log: seq<Row>, row: Row)
    ensures PausedNow(log + [row]) <==> row.CapturePaused? || (row.Data? && PausedNow(log))
    ensures Clean(log + [row]) <==> Clean(log) && (row.Data? ==> !PausedNow(log))
  {
    assert (log + [row])[..|log|] == log;
  }

  // --------------------------------------------------------- capture order

  function Written(log: seq<Row>): seq<nat> {
    if log == [] then [] else
      Written(log[..|log| - 1]) + if log[|log| - 1].Data? then [log[|log| - 1].n] else []
  }

  lemma WrittenStep(log: seq<Row>, row: Row)
    ensures Written(log + [row]) == Written(log) + if row.Data? then [row.n] else []
  {
    assert (log + [row])[..|log|] == log;
  }

  function Upto(n: nat): seq<nat> { seq(n, i requires 0 <= i < n => i) }

  /** What has been captured, in order, is what has been written and then what is
      still in the pipeline. */
  predicate InOrder(s: State) { Written(s.log) + s.pipe == Upto(s.produced) }

  /** The boundary row a step of either thread writes. */
  function Wrote(s: State, a: Act): Option<Row> {
    match a
    case PumpGo(good) =>
      if s.pump.PauseRow? && good then Some(CapturePaused)
      else if s.pump == PumpShake(Boundary) && good then Some(CaptureResumed) else None
    case OpGo(good, replaced, lost) =>
      if s.op.RePause? && good then Some(CapturePaused)
      else if s.op == OpShake(true, Boundary) && good then Some(CaptureResumed)
      else if s.op.Work? && !lost && replaced then Some(SessionStarted) else None
    case _ => None
  }

  function Append(log: seq<Row>, row: Option<Row>): seq<Row> { if row.None? then log else log + [row.value] }

  lemma ShakeWrites(s: State, shake: Shake, boundary: bool, good: bool)
    ensures var r := ShakeStep(s, shake, boundary, good).state;
      && r.log == Append(s.log, if shake.Boundary? && boundary && good then Some(CaptureResumed) else None)
      && r.pipe == s.pipe && r.produced == s.produced && r.pump == s.pump && r.op == s.op
      && r.userPaused == s.userPaused && r.owned == s.owned
  {}

  lemma PumpWrites(s: State, good: bool)
    ensures var n := PumpStep(s, good);
      n.log == Append(s.log, Wrote(s, PumpGo(good))) && n.pipe == s.pipe && n.produced == s.produced && n.op == s.op && n.owned == s.owned
  {
    if s.pump.PumpShake? { ShakeWrites(s, s.pump.shake, true, good); }
    hide ShakeStep;
  }

  lemma OpWrites(s: State, good: bool, replaced: bool, lost: bool)
    ensures var n := OpStep(s, good, replaced, lost);
      n.log == Append(s.log, Wrote(s, OpGo(good, replaced, lost))) && n.pipe == s.pipe && n.produced == s.produced && n.pump == s.pump
  {
    if s.op.OpShake? {
      OpShakeWrites(s, good, replaced, lost);
    } else {
      hide ShakeStep, Append;
      if s.op.Work? || s.op.RePause? { OpRowWrites(s, good, replaced, lost); }
      AppendNone(s.log);
    }
  }

  lemma AppendNone(log: seq<Row>)
    ensures Append(log, None) == log
  {}

  lemma OpShakeWrites(s: State, good: bool, replaced: bool, lost: bool)
    requires s.op.OpShake?
    ensures var n := OpStep(s, good, replaced, lost);
      n.log == Append(s.log, Wrote(s, OpGo(good, replaced, lost))) && n.pipe == s.pipe && n.produced == s.produced && n.pump == s.pump
  {
    ShakeWrites(s, s.op.opShake, s.op.manual, good);
    hide ShakeStep;
  }

  lemma OpRowWrites(s: State, good: bool, replaced: bool, lost: bool)
    requires s.op.Work? || s.op.RePause?
    ensures OpStep(s, good, replaced, lost).log == Append(s.log, Wrote(s, OpGo(good, replaced, lost)))
  {}

  /** Steps that are neither a producer's nor the forwarder's move no captured row. */
  lemma ControlWrites(s: State, a: Act)
    requires !a.Produce? && !a.Forward?
    ensures Next(s, a).pipe == s.pipe && Next(s, a).produced == s.produced
    ensures Next(s, a).log == Append(s.log, Wrote(s, a))
    ensures Wrote(s, a).Some? ==> !Wrote(s, a).value.Data?
  {
    hide PumpStep, OpStep;
    match a {
      case PumpGo(good) => PumpWrites(s, good);
      case OpGo(good, replaced, lost) => OpWrites(s, good, replaced, lost);
      case _ =>
    }
  }

  lemma StepInOrder(s: State, a: Act)
    requires InOrder(s)
    ensures InOrder(Next(s, a))
  {
    hide PumpStep, OpStep, Written, Wrote;
    if a.Produce? {
      assert Upto(s.produced + 1) == Upto(s.produced) + [s.produced];
    } else if a.Forward? {
      if s.pipe != [] {
        WrittenStep(s.log, Data(s.pipe[0]));
        assert Written(s.log) + [s.pipe[0]] + s.pipe[1..] == Written(s.log) + s.pipe;
      }
    } else {
      ControlWrites(s, a);
      if Wrote(s, a).Some? { WrittenStep(s.log, Wrote(s, a).value); }
    }
  }

  /** Every captured row reaches the log once, in capture order, in every run. */
  lemma {:induction false} RunInOrder(acts: seq<Act>)
    ensures InOrder(Run(acts))
  {
    hide Next, InOrder;
    if acts == [] {
      StartInOrder();
    } else {
      RunInOrder(acts[..|acts| - 1]);
      StepInOrder(Run(acts[..|acts| - 1]), acts[|acts| - 1]);
    }
  }

  lemma StartInOrder()
    ensures InOrder(Run([]))
  {}

  // ---------------------------------------------------- the exact condition

  /** While the log says paused, the pipeline is empty and the gate is closed. */
  predicate Guarded(s: State) { PausedNow(s.log) ==> s.pipe == [] && !GateOpen(s) }

  predicate Traffic(acts: seq<Act>) { forall k :: 0 <= k < |acts| ==> acts[k].Produce? || acts[k].Forward? }

  /** The log is clean and stays so under any capture traffic. */
  ghost predicate Safe(s: State) { forall acts: seq<Act> | Traffic(acts) :: Clean(RunFrom(s, acts).log) }

  lemma TrafficStep(s: State, a: Act)
    requires (a.Produce? || a.Forward?) && Guarded(s) && Clean(s.log)
    ensures Guarded(Next(s, a)) && Clean(Next(s, a).log)
  {
    if a.Forward? && s.pipe != [] { LogStep(s.log, Data(s.pipe[0])); }
  }

  lemma {:induction false} TrafficStaysClean(s: State, acts: seq<Act>)
    requires Traffic(acts) && Guarded(s) && Clean(s.log)
    ensures Guarded(RunFrom(s, acts)) && Clean(RunFrom(s, acts).log)
  {
    hide Next, Guarded, Clean;
    if acts != [] {
      TrafficStaysClean(s, acts[..|acts| - 1]);
      TrafficStep(RunFrom(s, acts[..|acts| - 1]), acts[|acts| - 1]);
    }
  }

  lemma RunOne(s: State, a: Act)
    ensures RunFrom(s, [a]) == Next(s, a)
  {
    assert [a][..0] == [];
  }

  lemma RunTwo(s: State, a: Act, b: Act)
    ensures RunFrom(s, [a, b]) == Next(Next(s, a), b)
  {
    assert [a, b][..1] == [a];
    RunOne(s, a);
  }

  lemma {:induction false} RunAppend(s: State, a: seq<Act>, b: seq<Act>)
    ensures RunFrom(s, a + b) == RunFrom(RunFrom(s, a), b)
  {
    hide Next;
    if b == [] {
      assert a + b == a;
    } else {
      RunAppend(s, a, b[..|b| - 1]);
      assert (a + b)[..|a + b| - 1] == a + b[..|b| - 1];
    }
  }

  /** A log is safe from capture traffic, whatever comes, exactly when it is clean
      and guarded: the pause row went out behind a drained pipeline and a closed gate. */
  lemma SafeIffGuarded(s: State)
    ensures Safe(s) <==> Clean(s.log) && Guarded(s)
  {
    hide RunFrom, Clean, PausedNow, Traffic;
    if !Clean(s.log) {
      NoTraffic(s);
    } else if Guarded(s) {
      forall acts: seq<Act> | Traffic(acts) ensures Clean(RunFrom(s, acts).log) { TrafficStaysClean(s, acts); }
    } else if s.pipe != [] {
      ForwardLeaks(s);
    } else {
      ProduceLeaks(s);
    }
  }

  lemma NoTraffic(s: State)
    ensures Traffic([]) && RunFrom(s, []) == s
  {}

  lemma ForwardLeaks(s: State)
    requires PausedNow(s.log) && s.pipe != []
    ensures Traffic([Forward]) && !Clean(RunFrom(s, [Forward]).log)
  {
    hide RunFrom, Clean, PausedNow;
    RunOne(s, Forward);
    LogStep(s.log, Data(s.pipe[0]));
  }

  lemma ProduceLeaks(s: State)
    requires PausedNow(s.log) && s.pipe == [] && GateOpen(s)
    ensures Traffic([Produce, Forward]) && !Clean(RunFrom(s, [Produce, Forward]).log)
  {
    hide RunFrom, Clean, PausedNow;
    RunTwo(s, Produce, Forward);
    LogStep(s.log, Data(s.produced));
  }

  /** The handshake step takes away the last thing that keeps the gate closed. */
  predicate Lifts(s: State, shake: Shake) {
    (shake.Open? && s.suspended && !s.barrier) || ((shake.Lower? || shake.GiveUp?) && s.barrier && !s.suspended)
  }

  predicate OpensGate(s: State, a: Act) {
    match a
    case PumpGo(_) => s.pump.PumpShake? && Lifts(s, s.pump.shake)
    case OpGo(_, _, _) => s.op.OpShake? && Lifts(s, s.op.opShake)
    case _ => false
  }

  /** A pause row goes out over rows not yet written or past an open gate, or the
      gate opens while the log says paused. */
  predicate Breaks(s: State, a: Act) {
    || (Wrote(s, a) == Some(CapturePaused) && (s.pipe != [] || GateOpen(s)))
    || (OpensGate(s, a) && PausedNow(s.log))
  }

  /** For every state and step: a guarded state stops being guarded exactly when the
      step breaks it in one of these two ways. */
  lemma GuardedUnlessBroken(s: State, a: Act)
    requires Guarded(s)
    ensures Guarded(Next(s, a)) <==> !Breaks(s, a)
  {
    hide Clean, Append, PausedNow;
    if a.Produce? {
    } else if a.Forward? {
      if s.pipe != [] { LogStep(s.log, Data(s.pipe[0])); }
    } else {
      ControlGate(s, a);
      ControlWrites(s, a);
      ControlBoundary(s, a);
    }
  }

  lemma ControlBoundary(s: State, a: Act)
    requires Next(s, a).log == Append(s.log, Wrote(s, a)) && (Wrote(s, a).Some? ==> !Wrote(s, a).value.Data?)
    ensures PausedNow(Next(s, a).log) <==> if Wrote(s, a).Some? then Wrote(s, a).value.CapturePaused? else PausedNow(s.log)
  {
    hide Next, Wrote;
    if Wrote(s, a).Some? { LogStep(s.log, Wrote(s, a).value); }
  }

  /** No step but a handshake's opens the gate, and none that writes a row moves it. */
  lemma ControlGate(s: State, a: Act)
    requires !a.Produce? && !a.Forward?
    ensures !GateOpen(s) ==> (GateOpen(Next(s, a)) <==> OpensGate(s, a))
    ensures Wrote(s, a).Some? ==> GateOpen(Next(s, a)) == GateOpen(s)
  {
    hide PumpStep, OpStep;
    match a {
      case PumpGo(good) => PumpGate(s, good);
      case OpGo(good, replaced, lost) =>
        if s.op.OpShake? { OpShakeGate(s, good, replaced, lost); } else { OpGate(s, good, replaced, lost); }
      case _ =>
    }
  }

  lemma ShakeGate(s: State, shake: Shake, boundary: bool, good: bool)
    ensures var r := ShakeStep(s, shake, boundary, good).state;
      && (!GateOpen(s) ==> (GateOpen(r) <==> Lifts(s, shake)))
      && (shake.Boundary? ==> GateOpen(r) == GateOpen(s))
  {}

  lemma PumpGate(s: State, good: bool)
    ensures !GateOpen(s) ==> (GateOpen(PumpStep(s, good)) <==> s.pump.PumpShake? && Lifts(s, s.pump.shake))
    ensures Wrote(s, PumpGo(good)).Some? ==> GateOpen(PumpStep(s, good)) == GateOpen(s)
  {
    if s.pump.PumpShake? { ShakeGate(s, s.pump.shake, true, good); }
    hide ShakeStep, Lifts;
  }

  lemma OpShakeGate(s: State, good: bool, replaced: bool, lost: bool)
    requires s.op.OpShake?
    ensures !GateOpen(s) ==> (GateOpen(OpStep(s, good, replaced, lost)) <==> Lifts(s, s.op.opShake))
    ensures Wrote(s, OpGo(good, replaced, lost)).Some? ==> GateOpen(OpStep(s, good, replaced, lost)) == GateOpen(s)
  {
    ShakeGate(s, s.op.opShake, s.op.manual, good);
    hide ShakeStep, Lifts;
  }

  lemma OpGate(s: State, good: bool, replaced: bool, lost: bool)
    requires !s.op.OpShake?
    ensures !GateOpen(s) ==> !GateOpen(OpStep(s, good, replaced, lost))
    ensures Wrote(s, OpGo(good, replaced, lost)).Some? ==> GateOpen(OpStep(s, good, replaced, lost)) == GateOpen(s)
  {
    hide ShakeStep;
  }

  ghost predicate SafeThroughout(s: State, acts: seq<Act>) {
    forall k :: 0 <= k <= |acts| ==> Safe(RunFrom(s, acts[..k]))
  }

  predicate NoneBreaks(s: State, acts: seq<Act>) {
    forall k :: 0 <= k < |acts| ==> !Breaks(RunFrom(s, acts[..k]), acts[k])
  }

  lemma PrefixesStep(s: State, before: seq<Act>, a: Act)
    ensures NoneBreaks(s, before + [a]) <==> NoneBreaks(s, before) && !Breaks(RunFrom(s, before), a)
    ensures SafeThroughout(s, before + [a]) <==> SafeThroughout(s, before) && Safe(RunFrom(s, before + [a]))
    ensures SafeThroughout(s, before) ==> Safe(RunFrom(s, before))
  {
    hide RunFrom, Breaks, Safe;
    var acts := before + [a];
    assert forall k :: 0 <= k <= |before| ==> acts[..k] == before[..k];
    assert acts[..|acts|] == acts && before[..|before|] == before && acts[|before|] == a;
    if NoneBreaks(s, acts) {
      forall k | 0 <= k < |before| ensures !Breaks(RunFrom(s, before[..k]), before[k]) { assert acts[k] == before[k]; }
      assert !Breaks(RunFrom(s, acts[..|before|]), acts[|before|]);
    }
    if SafeThroughout(s, acts) {
      forall k | 0 <= k <= |before| ensures Safe(RunFrom(s, before[..k])) { assert Safe(RunFrom(s, acts[..k])); }
    }
  }

  lemma NoPrefixes(s: State)
    ensures NoneBreaks(s, []) && RunFrom(s, []) == s && (SafeThroughout(s, []) <==> Safe(s))
  {
    hide Safe;
    var none: seq<Act> := [];
    assert none[..0] == none;
  }

  lemma RunStep(s: State, before: seq<Act>, a: Act)
    ensures RunFrom(s, before + [a]) == Next(RunFrom(s, before), a)
  {
    assert (before + [a])[..|before|] == before;
  }

  /** A run is safe at every moment exactly when none of its steps breaks. */
  lemma {:induction false} SafeUnlessBroken(s: State, acts: seq<Act>)
    requires Clean(s.log) && Guarded(s)
    ensures SafeThroughout(s, acts) <==> NoneBreaks(s, acts)
  {
    hide *;
    if acts == [] {
      NoPrefixes(s);
      SafeIffGuarded(s);
    } else {
      var before, a := acts[..|acts| - 1], acts[|acts| - 1];
      assert acts == before + [a];
      SafeUnlessBroken(s, before);
      PrefixesStep(s, before, a);
      RunStep(s, before, a);
      SafeIffGuarded(RunFrom(s, before));
      SafeIffGuarded(RunFrom(s, acts));
      if Safe(RunFrom(s, before)) {
        GuardedUnlessBroken(RunFrom(s, before), a);
        CleanStep(RunFrom(s, before), a);
      }
    }
  }

  lemma CleanStep(s: State, a: Act)
    requires Clean(s.log) && Guarded(s)
    ensures Clean(Next(s, a).log)
  {
    if a.Produce? || a.Forward? {
      TrafficStep(s, a);
    } else {
      ControlWrites(s, a);
      WritesClean(s.log, Wrote(s, a));
      hide *;
    }
  }

  lemma WritesClean(log: seq<Row>, row: Option<Row>)
    requires Clean(log) && (row.Some? ==> !row.value.Data?)
    ensures Clean(Append(log, row))
  {
    if row.Some? { LogStep(log, row.value); }
  }
}
