/** The flushes and handshakes of the interleaved model are those of the forwarder and
    of the resume handshake: the two models of `main.rs` joined. */
module CaptureHandshake {

  import opened Wrappers
  import P = CapturePause
  import R = CaptureResume

  // ------------------------------------------------- the forwarder's inputs

  /** The step is a flush and is confirmed. */
  predicate Confirmed(s: P.State, a: P.Act) {
    match a
    case PumpGo(good) => (s.pump.PauseFlush? || (s.pump.PumpShake? && s.pump.shake.Drain?)) && P.Drained(s, good)
    case OpGo(good, _, _) => (s.op.OpFlush? || (s.op.OpShake? && s.op.opShake.Drain?)) && P.Drained(s, good)
    case _ => false
  }

  /** What a step is to the forwarder: a captured row to pass on, a flush that finds
      nothing more for a quiet period, or nothing. */
  function Input(s: P.State, a: P.Act): seq<R.Input> {
    if a.Forward? && s.pipe != [] then [R.FromCapture(s.pipe[0])]
    else if Confirmed(s, a) then [R.Flush([R.QuietPeriod])] else []
  }

  /** What a whole run is to the forwarder. */
  function Served(acts: seq<P.Act>): seq<R.Input> {
    if acts == [] then [] else
      var before, a := acts[..|acts| - 1], acts[|acts| - 1];
      Served(before) + Input(P.Run(before), a)
  }

  /** How many rows had been captured at each confirmed flush of a run. */
  function CapturedAt(acts: seq<P.Act>): seq<nat> {
    if acts == [] then [] else
      var before, a := acts[..|acts| - 1], acts[|acts| - 1];
      CapturedAt(before) + if Confirmed(P.Run(before), a) then [P.Run(before).produced] else []
  }

  lemma ReceivedAppend(inputs: seq<R.Input>, more: R.Input)
    ensures R.Received(inputs + [more]) == R.Received(inputs) + match more
      case FromCapture(n) => [n]
      case Flush(arrivals) => R.Drained(arrivals)
      case CaptureClosed => []
      case FlushClosed => []
    ensures R.FlushMarks(inputs + [more]) == R.FlushMarks(inputs) + if more.Flush? then [|R.Received(inputs + [more])|] else []
  {
    R.ReceivedStep(inputs + [more], |inputs|);
    assert (inputs + [more])[..|inputs|] == inputs && (inputs + [more])[..|inputs| + 1] == inputs + [more];
  }

  lemma QuietFlush(inputs: seq<R.Input>)
    ensures R.Received(inputs + [R.Flush([R.QuietPeriod])]) == R.Received(inputs)
    ensures R.FlushMarks(inputs + [R.Flush([R.QuietPeriod])]) == R.FlushMarks(inputs) + [|R.Received(inputs)|]
  {
    ReceivedAppend(inputs, R.Flush([R.QuietPeriod]));
    assert R.Drained([R.QuietPeriod]) == [];
  }

  /** A confirmed flush moves no row and finds the pipeline empty. */
  lemma ConfirmedQuiet(s: P.State, a: P.Act)
    requires Confirmed(s, a)
    ensures !a.Forward? && s.pipe == [] && P.Next(s, a).log == s.log
  {}

  lemma StepWritten(s: P.State, a: P.Act)
    ensures P.Written(P.Next(s, a).log) == P.Written(s.log) + if a.Forward? && s.pipe != [] then [s.pipe[0]] else []
  {
    hide P.Written, P.PumpStep, P.OpStep, P.Wrote;
    if a.Forward? {
      if s.pipe != [] { P.WrittenStep(s.log, P.Data(s.pipe[0])); }
    } else if !a.Produce? {
      P.ControlWrites(s, a);
      if P.Wrote(s, a).Some? { P.WrittenStep(s.log, P.Wrote(s, a).value); }
    }
  }

  lemma RunStep(before: seq<P.Act>, a: P.Act)
    ensures P.Run(before + [a]) == P.Next(P.Run(before), a)
    ensures Served(before + [a]) == Served(before) + Input(P.Run(before), a)
    ensures CapturedAt(before + [a]) == CapturedAt(before) + if Confirmed(P.Run(before), a) then [P.Run(before).produced] else []
  {
    assert (before + [a])[..|before|] == before;
  }

  lemma AllWritten(s: P.State)
    requires P.InOrder(s) && s.pipe == []
    ensures |P.Written(s.log)| == s.produced
  {
    hide P.Written;
  }

  lemma OneServed(inputs: seq<R.Input>, s: P.State, a: P.Act)
    requires R.Received(inputs) == P.Written(s.log) && P.InOrder(s)
    ensures R.Received(inputs + Input(s, a)) == P.Written(P.Next(s, a).log)
    ensures R.FlushMarks(inputs + Input(s, a)) == R.FlushMarks(inputs) + if Confirmed(s, a) then [s.produced] else []
  {
    StepWritten(s, a);
    if a.Forward? && s.pipe != [] {
      hide R.Received, R.FlushMarks, P.Written, P.Next, P.InOrder;
      ReceivedAppend(inputs, R.FromCapture(s.pipe[0]));
    } else if Confirmed(s, a) {
      ConfirmedQuiet(s, a);
      hide R.Received, R.FlushMarks, P.Written, P.Next, P.InOrder, Confirmed;
      QuietFlush(inputs);
      AllWritten(s);
    } else {
      assert inputs + Input(s, a) == inputs;
      hide *;
    }
  }

  lemma StepServed(before: seq<P.Act>, a: P.Act)
    requires R.Received(Served(before)) == P.Written(P.Run(before).log) && R.FlushMarks(Served(before)) == CapturedAt(before)
    ensures R.Received(Served(before + [a])) == P.Written(P.Run(before + [a]).log)
    ensures R.FlushMarks(Served(before + [a])) == CapturedAt(before + [a])
  {
    hide *;
    RunStep(before, a);
    P.RunInOrder(before);
    OneServed(Served(before), P.Run(before), a);
  }

  lemma NothingServed()
    ensures R.Received(Served([])) == P.Written(P.Run([]).log) && R.FlushMarks(Served([])) == CapturedAt([])
  {}

  /** Every interleaved run is one of the forwarder's: it writes what the forwarder
      receives, in that order, and every confirmed flush is answered with everything
      captured up to then. */
  lemma {:induction false} RunsAreTheForwarders(acts: seq<P.Act>)
    ensures R.Received(Served(acts)) == P.Written(P.Run(acts).log)
    ensures R.FlushMarks(Served(acts)) == CapturedAt(acts)
  {
    hide *;
    if acts == [] {
      NothingServed();
    } else {
      var before, a := acts[..|acts| - 1], acts[|acts| - 1];
      assert acts == before + [a];
      RunsAreTheForwarders(before);
      StepServed(before, a);
    }
  }

  lemma {:induction false} ReceivedGrows(inputs: seq<R.Input>, k: nat)
    requires k <= |inputs|
    ensures |R.Received(inputs[..k])| <= |R.Received(inputs)|
  {
    if k < |inputs| {
      ReceivedGrows(inputs[..|inputs| - 1], k);
      assert inputs[..|inputs| - 1][..k] == inputs[..k];
    } else {
      assert inputs[..k] == inputs;
    }
  }

  lemma WrittenWithin(s: P.State)
    requires P.InOrder(s)
    ensures |P.Written(s.log)| <= s.produced
  {
    hide P.Written;
  }

  /** So a forwarder whose writer takes all that is captured gives exactly these
      answers, with exactly these rows written. */
  lemma AnswersInARun(acts: seq<P.Act>, room: nat)
    requires P.Run(acts).produced <= room
    ensures R.Firsts(R.Received(Served(acts)), room) == P.Written(P.Run(acts).log)
    ensures R.Capped(R.FlushMarks(Served(acts)), room) == CapturedAt(acts)
  {
    hide R.Received, R.FlushMarks, P.Written, P.Run, Served, CapturedAt, P.InOrder, R.Capped, R.Firsts;
    var inputs := Served(acts);
    RunsAreTheForwarders(acts);
    P.RunInOrder(acts);
    WrittenWithin(P.Run(acts));
    R.FirstsAll(R.Received(inputs), room);
    forall k | 0 <= k < |inputs| && inputs[k].Flush? ensures |R.Received(inputs[..k + 1])| <= room { ReceivedGrows(inputs, k + 1); }
    R.AnswersAreTrueIff(inputs, room);
  }

  // --------------------------------------------------- every drain is a run

  function DataRows(rows: seq<nat>): seq<P.Row> { seq(|rows|, i requires 0 <= i < |rows| => P.Data(rows[i])) }

  function AllWrittenOut(s: P.State): P.State { s.(pipe := [], log := s.log + DataRows(s.pipe)) }

  lemma NothingLeft(s: P.State)
    requires s.pipe == []
    ensures P.Traffic([]) && P.RunFrom(s, []) == AllWrittenOut(s)
  {
    assert s.log + DataRows([]) == s.log;
  }

  lemma OneForward(s: P.State)
    requires s.pipe != []
    ensures P.RunFrom(s, [P.Forward]).pipe == s.pipe[1..]
    ensures AllWrittenOut(P.RunFrom(s, [P.Forward])) == AllWrittenOut(s)
  {
    P.RunOne(s, P.Forward);
    hide P.RunFrom;
    assert s.log + [P.Data(s.pipe[0])] + DataRows(s.pipe[1..]) == s.log + DataRows(s.pipe);
  }

  lemma DrainedTail(arrivals: seq<R.Arrival>, pipe: seq<nat>)
    requires R.Drained(arrivals) == pipe && pipe != []
    ensures arrivals != [] && R.Drained(arrivals[1..]) == pipe[1..]
  {
    assert pipe == [arrivals[0].n] + R.Drained(arrivals[1..]);
  }

  lemma ForwardIsTraffic(rest: seq<P.Act>)
    requires P.Traffic(rest)
    ensures P.Traffic([P.Forward] + rest)
  {}

  lemma DrainedState(s: P.State)
    ensures P.Drained(AllWrittenOut(s), true) && AllWrittenOut(s).pipe == []
  {}

  /** Every drain the forwarder can make of what is in the pipeline, until a quiet
      period, is a run of its steps, and then a flush can be confirmed. */
  lemma {:induction false} DrainsAreRuns(s: P.State, arrivals: seq<R.Arrival>) returns (acts: seq<P.Act>)
    requires R.Drained(arrivals) == s.pipe
    ensures P.Traffic(acts) && P.RunFrom(s, acts) == AllWrittenOut(s) && P.Drained(P.RunFrom(s, acts), true)
    decreases |s.pipe|
  {
    hide *;
    DrainedState(s);
    if s.pipe == [] {
      NothingLeft(s);
      acts := [];
    } else {
      DrainedTail(arrivals, s.pipe);
      OneForward(s);
      var rest := DrainsAreRuns(P.RunFrom(s, [P.Forward]), arrivals[1..]);
      P.RunAppend(s, [P.Forward], rest);
      ForwardIsTraffic(rest);
      acts := [P.Forward] + rest;
    }
  }

  // ------------------------------------------------------- the handshake

  function Rank(shake: P.Shake): nat {
    match shake
    case Raise => 6
    case Drain(attempt) => if attempt < 2 then 5 - attempt else 3
    case Boundary => 2
    case Open => 1
    case Lower => 0
    case GiveUp => 0
  }

  /** Whether the step succeeds when the handshake meets these attempts; `last` is the
      one it is in. */
  predicate Meets(shake: P.Shake, attempts: seq<R.Attempt>, last: nat) {
    match shake
    case Drain(attempt) => attempt < |attempts| && R.Quiet(attempts[attempt])
    case Boundary => last < |attempts| && attempts[last].written
    case _ => true
  }

  /** The interleaved model's handshake steps taken to their end. */
  function ShakeRun(s: P.State, shake: P.Shake, boundary: bool, attempts: seq<R.Attempt>, last: nat): P.Shaken
    decreases Rank(shake)
  {
    var r := P.ShakeStep(s, shake, boundary, Meets(shake, attempts, last));
    if !r.progress.Going? then r
    else ShakeRun(r.state, r.progress.shake, boundary, attempts, if shake.Drain? then shake.attempt else last)
  }

  function Opened(s: P.State, boundary: bool): P.State {
    s.(suspended := false, barrier := false, log := if boundary then s.log + [P.CaptureResumed] else s.log)
  }

  predicate Reopens(boundary: bool, attempts: seq<R.Attempt>) {
    R.FirstQuiet(attempts) < |attempts| && (boundary ==> attempts[R.FirstQuiet(attempts)].written)
  }

  lemma ShakeEnds(s: P.State, boundary: bool, attempts: seq<R.Attempt>, k: nat)
    requires k < |attempts| && s.barrier
    ensures ShakeRun(s, P.Boundary, boundary, attempts, k)
      == if boundary && !attempts[k].written then P.Shaken(s.(barrier := false), P.Failed) else P.Shaken(Opened(s, boundary), P.Done)
  {}

  lemma {:induction false} ShakeDrains(s: P.State, boundary: bool, attempts: seq<R.Attempt>, k: nat, last: nat)
    requires |attempts| == 3 && k < 3 && s.pipe == [] && s.barrier && forall j :: 0 <= j < k ==> !R.Quiet(attempts[j])
    ensures ShakeRun(s, P.Drain(k), boundary, attempts, last)
      == if Reopens(boundary, attempts) then P.Shaken(Opened(s, boundary), P.Done) else P.Shaken(s.(barrier := false), P.Failed)
    decreases 3 - k
  {
    hide R.Quiet, R.FirstQuiet;
    if R.Quiet(attempts[k]) {
      R.FirstIs(attempts, k);
      ShakeEnds(s, boundary, attempts, k);
    } else if k < 2 {
      ShakeDrains(s, boundary, attempts, k + 1, k);
    }
  }

  /** With the pipeline drained the interleaved handshake ends as the resume handshake
      does, in every case of its three attempts: the same verdict, the same row written,
      the gate open or left as it was, and the barrier down. */
  lemma HandshakesAgree(s: P.State, boundary: bool, attempts: seq<R.Attempt>)
    requires |attempts| == 3 && s.pipe == []
    ensures ShakeRun(s, P.Raise, boundary, attempts, 0)
      == if Reopens(boundary, attempts) then P.Shaken(Opened(s, boundary), P.Done) else P.Shaken(s.(barrier := false), P.Failed)
  {
    hide R.Quiet, R.FirstQuiet;
    ShakeDrains(s.(barrier := true), boundary, attempts, 0, 0);
  }
}
