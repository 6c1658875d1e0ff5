/** What happens to each copy over whole runs of the clipboard machine. */
module ClipboardRuns {

  import opened Clipboard
  import opened Clock
  import opened Wrappers

  predicate IsCopy(op: Op) { op.Signalled? && op.enabled && op.signal.OwnerChanged? }

  predicate IsGone(op: Op) { op.Signalled? && op.signal.OwnerGone? }

  predicate IsReply(op: Op) { op.Signalled? && op.signal.TargetsReply? }

  /** The stream is on at this step and the step is not a reseed. */
  predicate Live(op: Op) { !op.Reseed? && op.enabled }

  /** Steps come in passes: after a signal the same pass goes on, with its own
      clock reading and its own view of the stream switch. */
  predicate Passes(ops: seq<Op>) {
    forall k :: 0 <= k < |ops| - 1 && ops[k].Signalled? ==>
      !ops[k + 1].Reseed? && ops[k + 1].enabled == ops[k].enabled && ops[k + 1].now == ops[k].now
  }

  /** What the pump asks of the monitor. */
  datatype Call = Pass(now: nat, enabled: bool, signals: seq<Signal>, sent: bool) | Wipe

  function Steps(calls: seq<Call>): seq<Op> {
    if calls == [] then [] else Steps(calls[..|calls| - 1]) + CallSteps(calls[|calls| - 1])
  }

  function CallSteps(call: Call): seq<Op> {
    if call.Wipe? then [Reseed] else PollOps(call.now, call.enabled, call.signals, call.sent)
  }

  lemma {:induction false} SignalStepsShape(now: nat, enabled: bool, signals: seq<Signal>, k: nat)
    requires k < |signals|
    ensures SignalOps(now, enabled, signals)[k] == Signalled(now, enabled, signals[k])
  {
    if k < |signals| - 1 { SignalStepsShape(now, enabled, signals[..|signals| - 1], k); }
  }

  lemma OneCallPasses(call: Call)
    ensures Passes(CallSteps(call)) && CallSteps(call) != [] && !CallSteps(call)[|CallSteps(call)| - 1].Signalled?
  {
    if call.Pass? {
      forall k | 0 <= k < |call.signals| { SignalStepsShape(call.now, call.enabled, call.signals, k); }
    }
  }

  /** Every sequence of passes and reseeds is a sequence of steps in passes. */
  lemma {:induction false} CallsPass(calls: seq<Call>)
    ensures Passes(Steps(calls))
    ensures Steps(calls) != [] ==> !Steps(calls)[|Steps(calls)| - 1].Signalled?
  {
    if calls != [] {
      hide CallSteps, Passes;
      CallsPass(calls[..|calls| - 1]);
      OneCallPasses(calls[|calls| - 1]);
      PassesJoin(Steps(calls[..|calls| - 1]), CallSteps(calls[|calls| - 1]));
    }
  }

  lemma PassesJoin(a: seq<Op>, b: seq<Op>)
    requires Passes(a) && Passes(b) && (a != [] ==> !a[|a| - 1].Signalled?)
    ensures Passes(a + b)
  {}

  /** The state before step `k` of a run. */
  function Before(ops: seq<Op>, k: nat): State
    requires k <= |ops|
  {
    Run(ops[..k]).state
  }

  /** What step `k` of a run emits. */
  function RowsAt(ops: seq<Op>, k: nat): seq<Row>
    requires k < |ops|
  {
    Step(Before(ops, k), ops[k]).rows
  }

  /** Which step's copy is pending before step `n`. */
  function Origin(ops: seq<Op>, n: nat): Option<nat>
    requires n <= |ops|
  {
    if n == 0 || Before(ops, n).pending.None? then None
    else if IsCopy(ops[n - 1]) then Some(n - 1)
    else Origin(ops, n - 1)
  }

  lemma BeforeStep(ops: seq<Op>, k: nat)
    requires k < |ops|
    ensures Before(ops, k + 1) == Step(Before(ops, k), ops[k]).state
  {
    assert ops[..k + 1][..k] == ops[..k];
  }

  // ---------------------------------------- off-period copies never replay

  /** The pending slot holds its origin's copy; the stream has been on and no
      reseed has come since, except in a pass that is about to clear the slot. */
  ghost predicate Holds(ops: seq<Op>, n: nat)
    requires n <= |ops|
  {
    Before(ops, n).pending.Some? ==>
      var o := Origin(ops, n);
      && o.Some? && o.value < n && IsCopy(ops[o.value])
      && Before(ops, n).pending.value.timestamp == ops[o.value].signal.timestamp
      && (Live(ops[n - 1]) ==> LiveBetween(ops, o.value, n))
      && (!Live(ops[n - 1]) ==> ops[n - 1].Signalled?)
  }

  predicate LiveBetween(ops: seq<Op>, from: nat, to: nat)
    requires to <= |ops|
  {
    forall k :: from <= k < to ==> Live(ops[k])
  }

  lemma KeepsCopy(s: State, op: Op)
    requires Step(s, op).state.pending.Some?
    ensures if IsCopy(op) then Step(s, op).state.pending.value.timestamp == op.signal.timestamp
      else s.pending.Some? && Step(s, op).state.pending.value.timestamp == s.pending.value.timestamp
    ensures !Live(op) ==> op.Signalled?
  {}

  lemma {:induction false} HoldsAlways(ops: seq<Op>, n: nat)
    requires n <= |ops| && Passes(ops)
    ensures Holds(ops, n)
  {
    hide Step, Run;
    if n == 0 {
      NothingFirst();
      assert ops[..0] == [];
    } else if Before(ops, n).pending.Some? {
      HoldsAlways(ops, n - 1);
      BeforeStep(ops, n - 1);
      KeepsCopy(Before(ops, n - 1), ops[n - 1]);
    }
  }

  lemma NothingFirst()
    ensures Run([]).state == START
  {}

  lemma RowsShape(s: State, op: Op)
    requires Step(s, op).rows != []
    ensures |Step(s, op).rows| == 1 && Live(op) && Step(s, op).rows[0].at == op.now
    ensures Step(s, op).state.pending.None?
    ensures if IsGone(op) then Step(s, op).rows[0] == Row(op.now, op.signal.timestamp, EmptyKind, 0)
      else s.pending.Some? && InFlight(s) && Step(s, op).rows[0].sequence == s.pending.value.timestamp
  {}

  /** A row is either an emptied clipboard's own, or carries one copy: a copy
      that arrived with the stream on, with the stream on at every step since
      and no reseed between them. */
  lemma RowsComeFromLiveCopies(ops: seq<Op>, j: nat)
    requires Passes(ops) && j < |ops| && RowsAt(ops, j) != []
    ensures |RowsAt(ops, j)| == 1
    ensures IsGone(ops[j]) ==> RowsAt(ops, j)[0] == Row(ops[j].now, ops[j].signal.timestamp, EmptyKind, 0)
    ensures !IsGone(ops[j]) ==> Origin(ops, j).Some? && var i := Origin(ops, j).value;
      i < j && IsCopy(ops[i]) && RowsAt(ops, j)[0].sequence == ops[i].signal.timestamp && LiveBetween(ops, i, j + 1)
  {
    hide Step, Run, Origin;
    RowsShape(Before(ops, j), ops[j]);
    HoldsAlways(ops, j);
  }

  // --------------------------------------------------- every copy ends once

  datatype Fate = Reported | Superseded | Cleared | Unsent

  /** How a step ends the pending copy, if it does. */
  function FateAt(s: State, op: Op): Option<Fate>
    requires s.pending.Some?
  {
    match op
    case Signalled(_, enabled, OwnerChanged(_)) => if enabled then Some(Superseded) else None
    case Signalled(_, _, OwnerGone(_)) => Some(Cleared)
    case Signalled(_, enabled, TargetsReply(_, _)) =>
      if !InFlight(s) then None else if enabled then Some(Reported) else Some(Cleared)
    case Service(now, enabled, sent) =>
      if !enabled then Some(Cleared)
      else if RequestDue(s, now) then (if sent then None else Some(Unsent))
      else if Expired(s, now) then Some(Reported)
      else None
    case Reseed => Some(Cleared)
  }

  lemma FateDecides(s: State, op: Op)
    requires s.pending.Some?
    ensures FateAt(s, op).None? ==> !IsCopy(op) && Step(s, op).state.pending.Some?
    ensures FateAt(s, op).Some? ==> IsCopy(op) || Step(s, op).state.pending.None?
    ensures Step(s, op).rows != [] && !IsGone(op) <==> FateAt(s, op) == Some(Reported)
  {}

  lemma {:induction false} OriginBack(ops: seq<Op>, n: nat, i: nat)
    requires n <= |ops| && Origin(ops, n) == Some(i)
    ensures i < n && IsCopy(ops[i]) && Before(ops, n).pending.Some?
    ensures i + 1 < n ==> Origin(ops, n - 1) == Some(i)
  {
    if i + 1 < n { OriginBack(ops, n - 1, i); }
    if n > 0 && !IsCopy(ops[n - 1]) { OriginBack(ops, n - 1, i); }
  }

  /** One step on: the copy stays, or its fate is decided. */
  lemma OriginStep(ops: seq<Op>, n: nat, i: nat)
    requires n < |ops| && Origin(ops, n) == Some(i)
    ensures Before(ops, n).pending.Some?
    ensures Origin(ops, n + 1) == Some(i) <==> FateAt(Before(ops, n), ops[n]).None?
  {
    hide Step, Run, FateAt;
    OriginBack(ops, n, i);
    BeforeStep(ops, n);
    FateDecides(Before(ops, n), ops[n]);
  }

  lemma CopyArrives(ops: seq<Op>, i: nat)
    requires i < |ops| && IsCopy(ops[i])
    ensures Origin(ops, i + 1) == Some(i)
  {
    BeforeStep(ops, i);
  }

  /** The steps that report copy `i`: they emit a row while it is the pending one. */
  predicate Reports(ops: seq<Op>, m: nat, i: nat)
    requires m < |ops|
  {
    Origin(ops, m) == Some(i) && !IsGone(ops[m]) && RowsAt(ops, m) != []
  }

  /** Every copy taken with the stream on is pending for one stretch of steps and
      ends once: `end` is the step that decides its fate, or the length of the
      run when it is still pending. Only that step can report it, and it does
      exactly when its fate is to be reported. */
  lemma {:induction false} CopyEndsOnce(ops: seq<Op>, i: nat, n: nat) returns (end: nat)
    requires i < n <= |ops| && IsCopy(ops[i])
    ensures i < end <= n
    ensures forall m :: i < m <= n ==> (Origin(ops, m) == Some(i) <==> m <= end)
    ensures forall m :: 0 <= m < n && m != end ==> !Reports(ops, m, i)
    ensures end < n ==> Before(ops, end).pending.Some?
    ensures end < n ==> FateAt(Before(ops, end), ops[end]).Some?
    ensures end < n ==> (Reports(ops, end, i) <==> FateAt(Before(ops, end), ops[end]) == Some(Reported))
  {
    hide Step, Run, Origin, FateAt, Reports;
    if n == i + 1 {
      CopyArrives(ops, i);
      end := n;
      forall m | 0 <= m < n ensures !Reports(ops, m, i) { NotYet(ops, m, i); }
    } else {
      end := CopyEndsOnce(ops, i, n - 1);
      if end == n - 1 {
        OriginStep(ops, n - 1, i);
        ReportsIff(ops, n - 1, i);
        if Origin(ops, n) == Some(i) { end := n; }
      } else {
        Gone(ops, n - 1, i);
      }
    }
  }

  lemma NotYet(ops: seq<Op>, m: nat, i: nat)
    requires m < |ops| && m <= i
    ensures !Reports(ops, m, i)
  {
    hide Run, Step;
    if Origin(ops, m) == Some(i) { OriginBack(ops, m, i); }
  }

  lemma ReportsIff(ops: seq<Op>, m: nat, i: nat)
    requires m < |ops| && Origin(ops, m) == Some(i) && Before(ops, m).pending.Some?
    ensures Reports(ops, m, i) <==> FateAt(Before(ops, m), ops[m]) == Some(Reported)
  {
    hide Run, Step, FateAt, Origin;
    FateDecides(Before(ops, m), ops[m]);
  }

  lemma Gone(ops: seq<Op>, m: nat, i: nat)
    requires i < m < |ops| && Origin(ops, m) != Some(i)
    ensures Origin(ops, m + 1) != Some(i) && !Reports(ops, m, i)
  {
    hide Run, Step, Origin;
    if Origin(ops, m + 1) == Some(i) { OriginBack(ops, m + 1, i); }
  }

  // ------------------------------------------------------ request spacing

  /** When each request of a run was made. */
  function RequestTimes(ops: seq<Op>): seq<nat> {
    if ops == [] then [] else
      RequestTimes(ops[..|ops| - 1])
      + if Asks(Run(ops[..|ops| - 1]).state, ops[|ops| - 1]) then [ops[|ops| - 1].now] else []
  }

  predicate Asks(s: State, op: Op) { op.Service? && op.enabled && RequestDue(s, op.now) }

  lemma AsksRight(s: State, op: Op)
    ensures |Step(s, op).asked| == if Asks(s, op) then 1 else 0
    ensures Step(s, op).state.lastRequest == if Asks(s, op) then Some(op.now) else s.lastRequest
    ensures Asks(s, op) && s.lastRequest.Some? ==> op.now >= s.lastRequest.value + SAMPLE_INTERVAL
  {}

  predicate Spaced(times: seq<nat>) {
    forall a, b :: 0 <= a < b < |times| ==> times[b] >= times[a] + SAMPLE_INTERVAL
  }

  /** Requests to owners are at least one sample interval apart, whatever the
      signals, stream switches and reseeds in between. */
  lemma {:induction false} RequestsAreSpaced(ops: seq<Op>)
    ensures Spaced(RequestTimes(ops)) && |RequestTimes(ops)| == |Run(ops).asked|
    ensures Run(ops).state.lastRequest ==
      if RequestTimes(ops) == [] then None else Some(RequestTimes(ops)[|RequestTimes(ops)| - 1])
  {
    if ops != [] {
      hide Step, Asks, Spaced, RequestTimes, RunFrom;
      var before, op := ops[..|ops| - 1], ops[|ops| - 1];
      assert before + [op] == ops;
      RequestsAreSpaced(before);
      RequestTimesStep(before, op);
      RunStep(START, before, op);
      AsksRight(Run(before).state, op);
      if Asks(Run(before).state, op) { SpacedJoin(RequestTimes(before), op.now); }
    }
  }

  lemma RequestTimesStep(ops: seq<Op>, op: Op)
    ensures RequestTimes(ops + [op]) == RequestTimes(ops) + if Asks(Run(ops).state, op) then [op.now] else []
  {
    assert (ops + [op])[..|ops|] == ops;
  }

  lemma SpacedJoin(times: seq<nat>, now: nat)
    requires Spaced(times) && (times != [] ==> now >= times[|times| - 1] + SAMPLE_INTERVAL)
    ensures Spaced(times + [now])
  {}

  /** An unanswered request is younger than the reply timeout, and a copy not asked
      about yet is only waiting for the cadence. */
  predicate NothingOverdue(s: State, now: nat) {
    && (InFlight(s) ==> Since(now, s.pending.value.requestedAt.value) < REPLY_TIMEOUT)
    && (Waiting(s) ==> s.lastRequest.Some? && Since(now, s.lastRequest.value) < SAMPLE_INTERVAL)
  }

  lemma ServiceLeavesNothingOverdue(s: State, now: nat, sent: bool)
    ensures NothingOverdue(Step(s, Service(now, true, sent)).state, now)
  {}

  lemma PassEnds(calls: seq<Call>, call: Call)
    requires call.Pass?
    ensures Steps(calls + [call])
      == Steps(calls) + SignalOps(call.now, call.enabled, call.signals) + [Service(call.now, call.enabled, call.sent)]
  {
    assert (calls + [call])[..|calls|] == calls;
  }

  /** Whatever passes and reseeds came before, after a pass with the stream on nothing
      is overdue, and after one with it off nothing is pending at all. */
  lemma PassLeavesNothingOverdue(calls: seq<Call>, call: Call)
    requires call.Pass?
    ensures var s := Run(Steps(calls + [call])).state;
      if call.enabled then NothingOverdue(s, call.now) else s.pending.None?
  {
    var before := Steps(calls) + SignalOps(call.now, call.enabled, call.signals);
    PassEnds(calls, call);
    RunStep(START, before, Service(call.now, call.enabled, call.sent));
    hide Run, Steps, SignalOps, NothingOverdue;
    if call.enabled { ServiceLeavesNothingOverdue(Run(before).state, call.now, call.sent); }
  }

  // ------------------------------------------------- whose answer is it

  /** Step `k` sends a request that leaves the connection. */
  predicate Sends(ops: seq<Op>, k: nat)
    requires k < |ops|
  {
    Asks(Before(ops, k), ops[k]) && ops[k].sent
  }

  /** The latest request sent before step `n`. */
  function Latest(ops: seq<Op>, n: nat): Option<nat>
    requires n <= |ops|
  {
    if n == 0 then None else if Sends(ops, n - 1) then Some(n - 1) else Latest(ops, n - 1)
  }

  lemma FlightStep(s: State, op: Op)
    ensures Asks(s, op) && op.sent ==> !IsCopy(op) && Waiting(s) && InFlight(Step(s, op).state)
    ensures !(Asks(s, op) && op.sent) && InFlight(Step(s, op).state) ==> InFlight(s) && !IsCopy(op)
    ensures InFlight(s) && Step(s, op).state.pending.Some? && !IsCopy(op) ==> InFlight(Step(s, op).state)
  {}

  /** While a request is in flight it is the latest one sent, and it was sent for
      the copy that is pending. */
  lemma {:induction false} FlightIsLatest(ops: seq<Op>, n: nat)
    requires n <= |ops| && InFlight(Before(ops, n))
    ensures Latest(ops, n).Some? && Latest(ops, n).value < n && Sends(ops, Latest(ops, n).value)
    ensures Origin(ops, n) == Origin(ops, Latest(ops, n).value)
  {
    hide Step, Run, Asks, InFlight;
    if n == 0 {
      NoFlightFirst(ops);
    } else {
      BeforeStep(ops, n - 1);
      FlightStep(Before(ops, n - 1), ops[n - 1]);
      FlightPending(Before(ops, n));
      if !Sends(ops, n - 1) { FlightIsLatest(ops, n - 1); }
    }
  }

  lemma NoFlightFirst(ops: seq<Op>)
    ensures !InFlight(Before(ops, 0))
  {}

  lemma FlightPending(s: State)
    requires InFlight(s)
    ensures s.pending.Some?
  {}

  /** Once asked about, a copy stays asked about for as long as it is pending. */
  lemma {:induction false} AskedStays(ops: seq<Op>, r: nat, n: nat, i: nat)
    requires r < n <= |ops| && Sends(ops, r) && Origin(ops, r) == Some(i) && Origin(ops, n) == Some(i)
    ensures InFlight(Before(ops, n))
  {
    hide Step, Run, Asks, InFlight;
    BeforeStep(ops, n - 1);
    FlightStep(Before(ops, n - 1), ops[n - 1]);
    OriginBack(ops, r, i);
    OriginBack(ops, n, i);
    if r < n - 1 { AskedStays(ops, r, n - 1, i); }
  }

  /** No copy is asked about twice. */
  lemma AskedOnce(ops: seq<Op>, r: nat, q: nat)
    requires r < q < |ops| && Sends(ops, r) && Sends(ops, q)
    ensures Origin(ops, r).Some? && Origin(ops, r) != Origin(ops, q)
  {
    hide Run;
    SendHasCopy(ops, r);
    FlightStep(Before(ops, q), ops[q]);
    if Origin(ops, r) == Origin(ops, q) { AskedStays(ops, r, q, Origin(ops, r).value); }
  }

  lemma NothingPending(ops: seq<Op>)
    ensures Before(ops, 0).pending.None?
  {}

  lemma {:induction false} SendHasCopy(ops: seq<Op>, r: nat)
    requires r <= |ops| && Before(ops, r).pending.Some?
    ensures Origin(ops, r).Some?
  {
    hide Run, Step;
    if r == 0 {
      NothingPending(ops);
    } else {
      BeforeStep(ops, r - 1);
      KeepsCopy(Before(ops, r - 1), ops[r - 1]);
      if !IsCopy(ops[r - 1]) { SendHasCopy(ops, r - 1); }
    }
  }

  lemma {:induction false} LatestAtLeast(ops: seq<Op>, n: nat, r: nat)
    requires r < n <= |ops| && Sends(ops, r)
    ensures Latest(ops, n).Some? && r <= Latest(ops, n).value < n && Sends(ops, Latest(ops, n).value)
  {
    hide Run, Step, Sends;
    if !Sends(ops, n - 1) { LatestAtLeast(ops, n - 1, r); }
  }

  /** An arriving answer carries no name of the request it answers: it is taken
      for the pending copy's whenever a request is in flight. The answer to
      request `r` is credited to the copy `r` asked about exactly when no newer
      request has gone out. */
  lemma AnswerIsCreditedRight(ops: seq<Op>, j: nat, r: nat)
    requires j < |ops| && IsReply(ops[j]) && r < j && Sends(ops, r) && InFlight(Before(ops, j))
    ensures Origin(ops, j) == Origin(ops, r) <==> Latest(ops, j) == Some(r)
  {
    hide Run, Step, Origin, Latest, Sends;
    FlightIsLatest(ops, j);
    LatestAtLeast(ops, j, r);
    var q := Latest(ops, j).value;
    if q != r { AskedOnce(ops, r, q); }
  }

  /** Copy A is asked about, copy B overwrites it and is asked about a second
      later, then A's late answer arrives. */
  const LATE_ANSWER: seq<Op> := [
    Signalled(0, true, OwnerChanged(5)), Service(0, true, true),
    Signalled(1000, true, OwnerChanged(6)), Service(1000, true, true),
    Signalled(1500, true, TargetsReply(true, Some([Text])))]

  lemma LateSteps()
    ensures Step(START, LATE_ANSWER[0]).state == State(Some(Pending(5, None)), None)
    ensures Step(State(Some(Pending(5, None)), None), LATE_ANSWER[1]).state == State(Some(Pending(5, Some(0))), Some(0))
    ensures Step(State(Some(Pending(5, Some(0))), Some(0)), LATE_ANSWER[2]).state == State(Some(Pending(6, None)), Some(0))
    ensures Step(State(Some(Pending(6, None)), Some(0)), LATE_ANSWER[3]).state == State(Some(Pending(6, Some(1000))), Some(1000))
  {}

  lemma LateStates()
    ensures Before(LATE_ANSWER, 1) == State(Some(Pending(5, None)), None)
    ensures Before(LATE_ANSWER, 2) == State(Some(Pending(5, Some(0))), Some(0))
    ensures Before(LATE_ANSWER, 3) == State(Some(Pending(6, None)), Some(0))
    ensures Before(LATE_ANSWER, 4) == State(Some(Pending(6, Some(1000))), Some(1000))
  {
    var ops := LATE_ANSWER;
    assert Before(ops, 0) == START by { assert ops[..0] == []; }
    LateSteps();
    hide Run, Step;
    BeforeStep(ops, 0);
    BeforeStep(ops, 1);
    BeforeStep(ops, 2);
    BeforeStep(ops, 3);
  }

  /** The late answer does not read as stale: it is reported as copy B's. */
  lemma LateAnswerIsNotStale()
    ensures Sends(LATE_ANSWER, 1) && Sends(LATE_ANSWER, 3)
    ensures Origin(LATE_ANSWER, 1) == Some(0) && Origin(LATE_ANSWER, 4) == Some(2)
    ensures RowsAt(LATE_ANSWER, 4) == [Row(1500, 6, TextKind, 1)]
  {
    hide Run, Before, Formats;
    LateStates();
    OneFormat();
  }

  lemma OneFormat()
    ensures Formats([Text]) == 1
  {
    assert [Text][..0] == [];
  }
}
