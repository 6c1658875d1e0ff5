/** Foreground dwell: the segment state of `gilbreth-core` and the monitor of
    `foreground.rs` that drives it. */
module Foreground {

  import opened Clock
  import opened Wrappers

  /** Clock readings are nanoseconds; rows carry milliseconds. */
  const MS := 1_000_000
  const MISSED_BOUNDARY := 30_000 * MS
  const RECHECK := 1_000 * MS

  datatype Window = Window(hwnd: nat, exe: string, title: string, pid: nat)

  datatype Row = FocusChanged(at: nat, window: Window, prev: Option<Window>, focusedForMs: nat, unfocusedForMs: nat)

  datatype Focused = Focused(window: Window, since: nat)

  /** The open segment and when each window last lost focus. */
  datatype Segments = Segments(current: Option<Focused>, unfocused: map<nat, nat>)

  const NO_SEGMENTS := Segments(None, map[])

  datatype Gate = Enabled | PausedByUser | BlockedBySession

  datatype Monitor = Monitor(state: Segments, lastPoll: Option<nat>, lastRead: Option<nat>, lastGate: Gate, redact: bool)

  const FRESH := Monitor(NO_SEGMENTS, None, None, PausedByUser, false)

  /** What the pump asks; `answer` is what the provider says if it is read. */
  datatype Call =
    | Poll(now: nat, gate: Gate, dirty: bool, answer: Option<Window>)
    | Reseed(redactTitle: bool)
    | FlushAt(now: nat)

  // -------------------------------------------------------- segment rules

  datatype Change = Change(state: Segments, rows: seq<Row>)

  function OnWindow(s: Segments, window: Window, now: nat): Change {
    if s.current.Some? && s.current.value.window.hwnd == window.hwnd then Change(s, []) else
      var away := if window.hwnd in s.unfocused then Since(now, s.unfocused[window.hwnd]) / MS else 0;
      match s.current
      case None => Change(s.(current := Some(Focused(window, now))), [FocusChanged(now, window, None, 0, away)])
      case Some(old_) =>
        Change(Segments(Some(Focused(window, now)), s.unfocused[old_.window.hwnd := now]),
               [FocusChanged(now, window, Some(old_.window), Since(now, old_.since) / MS, away)])
  }

  function Min(a: nat, b: nat): nat { if a < b then a else b }

  /** Close the open segment, attributing at most `limit`. */
  function EndCurrent(s: Segments, now: nat, limit: Option<nat>): Change {
    match s.current
    case None => Change(s, [])
    case Some(open) =>
      var elapsed := Since(now, open.since);
      var dwell := if limit.None? then elapsed else Min(elapsed, limit.value);
      Change(Segments(None, s.unfocused[open.window.hwnd := now]),
             [FocusChanged(now, open.window, Some(open.window), dwell / MS, 0)])
  }

  // -------------------------------------------------------------- monitor

  datatype Outcome = Outcome(monitor: Monitor, rows: seq<Row>)

  predicate Stalled(m: Monitor, now: nat) { m.lastPoll.Some? && Since(now, m.lastPoll.value) > MISSED_BOUNDARY }

  /** Close the open segment; across a stall only what was observed counts. */
  function EndCapped(m: Monitor, now: nat): Change {
    var limit := if m.state.current.Some? && Stalled(m, now)
                 then Some(Since(m.lastPoll.value, m.state.current.value.since)) else None;
    EndCurrent(m.state, now, limit)
  }

  function GatedPass(m: Monitor, now: nat, gate: Gate): Outcome {
    var closed := if m.lastGate == Enabled then EndCapped(m, now) else Change(m.state, []);
    var state := if gate == PausedByUser && m.lastGate != PausedByUser then closed.state.(unfocused := map[]) else closed.state;
    Outcome(Monitor(state, Some(now), None, gate, m.redact), closed.rows)
  }

  predicate ReadDue(m: Monitor, now: nat, dirty: bool) {
    dirty || m.lastGate != Enabled || m.lastRead.None? || Since(now, m.lastRead.value) >= RECHECK
  }

  function EnabledPass(m: Monitor, now: nat, dirty: bool, answer: Option<Window>): Outcome {
    var capped := if m.state.current.Some? && Stalled(m, now) then EndCapped(m, now) else Change(m.state, []);
    if !ReadDue(m, now, dirty) then Outcome(Monitor(capped.state, Some(now), m.lastRead, Enabled, m.redact), capped.rows)
    else if answer.None? then Outcome(Monitor(capped.state, Some(now), Some(now), Enabled, m.redact), capped.rows)
    else
      var seen := if m.redact then answer.value.(title := "") else answer.value;
      var moved := OnWindow(capped.state, seen, now);
      Outcome(Monitor(moved.state, Some(now), Some(now), Enabled, false), capped.rows + moved.rows)
  }

  function Step(m: Monitor, call: Call): Outcome {
    match call
    case Poll(now, gate, dirty, answer) =>
      if gate == Enabled then EnabledPass(m, now, dirty, answer) else GatedPass(m, now, gate)
    case Reseed(redactTitle) => Outcome(m.(state := NO_SEGMENTS, lastRead := None, redact := redactTitle), [])
    case FlushAt(now) => Outcome(m.(state := EndCapped(m, now).state), EndCapped(m, now).rows)
  }

  function RunFrom(m: Monitor, calls: seq<Call>): Outcome {
    if calls == [] then Outcome(m, []) else
      var before := RunFrom(m, calls[..|calls| - 1]);
      var last := Step(before.monitor, calls[|calls| - 1]);
      Outcome(last.monitor, before.rows + last.rows)
  }

  function Run(calls: seq<Call>): Outcome { RunFrom(FRESH, calls) }

  lemma RunStep(m: Monitor, calls: seq<Call>, call: Call)
    ensures var before := RunFrom(m, calls); var last := Step(before.monitor, call);
      RunFrom(m, calls + [call]) == Outcome(last.monitor, before.rows + last.rows)
  {
    assert (calls + [call])[..|calls|] == calls;
  }

  // ------------------------------------------------------------- the object

  class ForegroundMonitor {
    var state: Segments
    var lastPoll: Option<nat>
    var lastRead: Option<nat>
    var lastGate: Gate
    var redactNextReadTitle: bool

    function Value(): Monitor reads this { Monitor(state, lastPoll, lastRead, lastGate, redactNextReadTitle) }

    constructor ()
      ensures Value() == FRESH
    {
      state, lastPoll, lastRead, lastGate, redactNextReadTitle := NO_SEGMENTS, None, None, PausedByUser, false;
    }

    method ReseedMonitor(redactTitle: bool)
      modifies this
      ensures Outcome(Value(), []) == Step(old(Value()), Reseed(redactTitle))
    {
      state := NO_SEGMENTS;
      lastRead := None;
      redactNextReadTitle := redactTitle;
    }

    method PollOnce(now: nat, gate: Gate, dirty: bool, answer: Option<Window>) returns (events: seq<Row>)
      modifies this
      ensures Outcome(Value(), events) == Step(old(Value()), Poll(now, gate, dirty, answer))
    {
      events := [];
      if gate != Enabled {
        if lastGate == Enabled { events := EndCurrentGapCappedAt(now); }
        if gate == PausedByUser && lastGate != PausedByUser { state := state.(unfocused := map[]); }
        lastGate := gate;
        lastPoll := Some(now);
        lastRead := None;
        return;
      }
      var enableEdge := lastGate != Enabled;
      lastGate := Enabled;
      if state.current.Some? && lastPoll.Some? && Since(now, lastPoll.value) > MISSED_BOUNDARY {
        events := EndCurrentGapCappedAt(now);
      }
      if dirty || enableEdge || lastRead.None? || Since(now, lastRead.value) >= RECHECK {
        lastRead := Some(now);
        if answer.Some? {
          var window := answer.value;
          if redactNextReadTitle { window := window.(title := ""); }
          redactNextReadTitle := false;
          var change := OnWindow(state, window, now);
          state, events := change.state, events + change.rows;
        }
      }
      lastPoll := Some(now);
    }

    method EndCurrentGapCappedAt(now: nat) returns (rows: seq<Row>)
      modifies this`state
      ensures Change(state, rows) == EndCapped(old(Value()), now)
    {
      var cap := None;
      if lastPoll.Some? && state.current.Some? && Since(now, lastPoll.value) > MISSED_BOUNDARY {
        cap := Some(Since(lastPoll.value, state.current.value.since));
      }
      var change := EndCurrent(state, now, cap);
      state, rows := change.state, change.rows;
    }

    method FlushSegment(now: nat) returns (events: seq<Row>)
      modifies this`state
      ensures Outcome(Value(), events) == Step(old(Value()), FlushAt(now))
    {
      events := EndCurrentGapCappedAt(now);
    }
  }

  // ------------------------------------------------------- dwell accounting

  /** The dwell all rows attribute, in milliseconds. */
  function Dwell(rows: seq<Row>): nat {
    if rows == [] then 0 else Dwell(rows[..|rows| - 1]) + rows[|rows| - 1].focusedForMs
  }

  lemma {:induction false} DwellAppend(a: seq<Row>, b: seq<Row>)
    ensures Dwell(a + b) == Dwell(a) + Dwell(b)
  {
    if b == [] {
      assert a + b == a;
    } else {
      DwellAppend(a, b[..|b| - 1]);
      assert (a + b)[..|a + b| - 1] == a + b[..|b| - 1];
    }
  }

  function TimeOf(call: Call): Option<nat> { if call.Reseed? then None else Some(call.now) }

  /** The clock never runs backwards. */
  predicate Clocked(calls: seq<Call>) {
    forall j, k :: 0 <= j < k < |calls| ==> InOrder(TimeOf(calls[j]), TimeOf(calls[k]))
  }

  predicate InOrder(a: Option<nat>, b: Option<nat>) { a.Some? && b.Some? ==> a.value <= b.value }

  /** What one call may credit: the gap since the last pass, if a segment was
      open across it and it was no stall. */
  function Credit(m: Monitor, call: Call): nat {
    if TimeOf(call).None? || m.state.current.None? || m.lastPoll.None? || Stalled(m, TimeOf(call).value) then 0
    else Since(TimeOf(call).value, m.lastPoll.value)
  }

  /** The observed gaps of a run during which a segment was open. */
  function Observed(calls: seq<Call>): nat {
    if calls == [] then 0 else
      Observed(calls[..|calls| - 1]) + Credit(Run(calls[..|calls| - 1]).monitor, calls[|calls| - 1])
  }

  /** Observed time of the open segment, not yet in any row. */
  function Open(m: Monitor): nat {
    if m.state.current.Some? && m.lastPoll.Some? then Since(m.lastPoll.value, m.state.current.value.since) else 0
  }

  /** Observed time thrown away by reseeds. */
  function Forgotten(calls: seq<Call>): nat {
    if calls == [] then 0 else
      Forgotten(calls[..|calls| - 1])
      + if calls[|calls| - 1].Reseed? then Open(Run(calls[..|calls| - 1]).monitor) else 0
  }

  /** An open segment began at or before the last pass, and none is open while gated. */
  predicate Sane(m: Monitor, now: nat) {
    && (m.lastPoll.Some? ==> m.lastPoll.value <= now)
    && (m.state.current.Some? ==> m.lastPoll.Some? && m.state.current.value.since <= m.lastPoll.value && m.lastGate == Enabled)
  }

  lemma Floor(n: nat)
    ensures n / MS * MS <= n < n / MS * MS + MS
  {}

  lemma DwellShort(rows: seq<Row>)
    ensures rows == [] ==> Dwell(rows) == 0
    ensures |rows| == 1 ==> Dwell(rows) == rows[0].focusedForMs
    ensures |rows| == 2 ==> Dwell(rows) == rows[0].focusedForMs + rows[1].focusedForMs
  {
    if |rows| == 2 { DwellShort(rows[..1]); }
  }

  /** Closing attributes everything observed, to the millisecond below. */
  lemma EndBalances(m: Monitor, now: nat)
    requires Sane(m, now)
    ensures var c := EndCapped(m, now);
      && c.state.current.None?
      && (m.state.current.None? ==> c.rows == [])
      && (m.state.current.Some? ==> |c.rows| == 1 && c.rows[0].focusedForMs == (Open(m) + Credit(m, FlushAt(now))) / MS)
  {}

  lemma MoveBalances(s: Segments, window: Window, now: nat)
    ensures var c := OnWindow(s, window, now);
      && (c.rows == [] ==> c.state == s && s.current.Some?)
      && (c.rows != [] ==> (
            && |c.rows| == 1 && c.state.current.Some? && c.state.current.value.since == now
            && c.rows[0].focusedForMs == if s.current.Some? then Since(now, s.current.value.since) / MS else 0))
  {}

  /** `rows` and the open time after account for the time before, to within a
      millisecond a row. */
  predicate Balanced(rows: seq<Row>, after: nat, before: nat) {
    Dwell(rows) * MS + after <= before <= Dwell(rows) * MS + after + |rows| * MS
  }

  lemma EnabledBalances(m: Monitor, now: nat, dirty: bool, answer: Option<Window>)
    requires Sane(m, now)
    ensures var o := EnabledPass(m, now, dirty, answer);
      Sane(o.monitor, now) && Balanced(o.rows, Open(o.monitor), Open(m) + Credit(m, FlushAt(now)))
  {
    hide EndCapped, OnWindow, Dwell, ReadDue;
    var o := EnabledPass(m, now, dirty, answer);
    var total := Open(m) + Credit(m, FlushAt(now));
    Floor(total);
    EndBalances(m, now);
    DwellShort(o.rows);
    if answer.Some? {
      var closed := if m.state.current.Some? && Stalled(m, now) then EndCapped(m, now).state else m.state;
      MoveBalances(closed, if m.redact then answer.value.(title := "") else answer.value, now);
    }
  }

  lemma GatedBalances(m: Monitor, now: nat, gate: Gate)
    requires Sane(m, now) && gate != Enabled
    ensures var o := GatedPass(m, now, gate);
      Sane(o.monitor, now) && Balanced(o.rows, Open(o.monitor), Open(m) + Credit(m, FlushAt(now)))
  {
    hide EndCapped, Dwell;
    Floor(Open(m) + Credit(m, FlushAt(now)));
    EndBalances(m, now);
    DwellShort(GatedPass(m, now, gate).rows);
  }

  /** One call turns the open time and the call's credit into dwell rows and open
      time; a reseed throws the open time away. */
  lemma StepBalances(m: Monitor, call: Call, now: nat)
    requires Sane(m, now) && (TimeOf(call).Some? ==> now <= TimeOf(call).value)
    ensures var o := Step(m, call);
      && Sane(o.monitor, if TimeOf(call).Some? then TimeOf(call).value else now)
      && Balanced(o.rows, Open(o.monitor) + (if call.Reseed? then Open(m) else 0), Open(m) + Credit(m, call))
  {
    hide EnabledPass, GatedPass, Dwell, EndCapped, Balanced;
    match call {
      case Poll(t, gate, dirty, answer) =>
        if gate == Enabled { EnabledBalances(m, t, dirty, answer); } else { GatedBalances(m, t, gate); }
      case Reseed(_) => NothingBalances(Open(m));
      case FlushAt(t) => FlushBalances(m, t);
    }
  }

  lemma NothingBalances(open: nat)
    ensures Balanced([], open, open)
  {}

  lemma FlushBalances(m: Monitor, now: nat)
    requires Sane(m, now)
    ensures var c := EndCapped(m, now); c.state.current.None? && Balanced(c.rows, 0, Open(m) + Credit(m, FlushAt(now)))
  {
    hide EndCapped, Dwell;
    Floor(Open(m) + Credit(m, FlushAt(now)));
    EndBalances(m, now);
    DwellShort(EndCapped(m, now).rows);
  }

  /** The latest clock reading of a run. */
  function Latest(calls: seq<Call>): nat {
    if calls == [] then 0 else
      if TimeOf(calls[|calls| - 1]).Some? then TimeOf(calls[|calls| - 1]).value else Latest(calls[..|calls| - 1])
  }

  lemma {:induction false} LatestIs(calls: seq<Call>, call: Call)
    requires Clocked(calls + [call]) && TimeOf(call).Some?
    ensures Latest(calls) <= TimeOf(call).value
  {
    if calls != [] {
      var n := |calls| - 1;
      assert (calls + [call])[n] == calls[n] && (calls + [call])[n + 1] == call;
      assert InOrder(TimeOf(calls[n]), TimeOf(call));
      if TimeOf(calls[n]).None? {
        ClockedPart(calls, call);
        LatestIs(calls[..n], call);
      }
    }
  }

  lemma ClockedPart(calls: seq<Call>, call: Call)
    requires Clocked(calls + [call])
    ensures Clocked(calls)
    ensures calls != [] ==> Clocked(calls[..|calls| - 1] + [call])
  {
    var all := calls + [call];
    forall j, k | 0 <= j < k < |calls| ensures InOrder(TimeOf(calls[j]), TimeOf(calls[k])) {
      assert all[j] == calls[j] && all[k] == calls[k];
    }
    if calls != [] {
      var short := calls[..|calls| - 1] + [call];
      forall j, k | 0 <= j < k < |short| ensures InOrder(TimeOf(short[j]), TimeOf(short[k])) {
        assert all[j] == short[j] && all[if k == |short| - 1 then k + 1 else k] == short[k];
      }
    }
  }

  lemma AccountsStep(calls: seq<Call>, call: Call)
    ensures Observed(calls + [call]) == Observed(calls) + Credit(Run(calls).monitor, call)
    ensures Forgotten(calls + [call]) == Forgotten(calls) + if call.Reseed? then Open(Run(calls).monitor) else 0
    ensures Latest(calls + [call]) == if TimeOf(call).Some? then TimeOf(call).value else Latest(calls)
  {
    assert (calls + [call])[..|calls|] == calls;
  }

  lemma BalancedJoin(a: seq<Row>, b: seq<Row>, open: nat, total: nat, lost: nat, credit: nat, after: nat, thrown: nat)
    requires Balanced(a, open + lost, total) && Balanced(b, after + thrown, open + credit)
    ensures Balanced(a + b, after + (lost + thrown), total + credit)
  {
    hide Dwell;
    DwellAppend(a, b);
  }

  lemma NothingObserved()
    ensures Sane(Run([]).monitor, Latest([]))
    ensures Balanced(Run([]).rows, Open(Run([]).monitor) + Forgotten([]), Observed([]))
  {}

  /** Dwell is conserved: what the rows attribute, what the open segment still
      holds and what reseeds threw away add up to exactly the gaps between passes
      during which a segment was open and the pump was not stalled, except for
      less than a millisecond of rounding a row. */
  lemma {:induction false} DwellIsObserved(calls: seq<Call>)
    requires Clocked(calls)
    ensures Sane(Run(calls).monitor, Latest(calls))
    ensures Balanced(Run(calls).rows, Open(Run(calls).monitor) + Forgotten(calls), Observed(calls))
  {
    hide Dwell, Step, Balanced, Credit, Sane, Open, Latest, Observed, Forgotten, RunFrom, Clocked;
    if calls == [] {
      NothingObserved();
    } else {
      var n := |calls| - 1;
      var before, call := calls[..n], calls[n];
      assert before + [call] == calls;
      ClockedPart(before, call);
      DwellIsObserved(before);
      var m := Run(before).monitor;
      RunStep(FRESH, before, call);
      AccountsStep(before, call);
      if TimeOf(call).Some? { LatestIs(before, call); }
      StepBalances(m, call, Latest(before));
      BalancedJoin(Run(before).rows, Step(m, call).rows, Open(m), Observed(before), Forgotten(before), Credit(m, call),
                   Open(Step(m, call).monitor), if call.Reseed? then Open(m) else 0);
    }
  }

  // -------------------------------------------------- a pause leaves no trace

  /** Nothing is remembered while the user has paused the stream. */
  predicate Blank(m: Monitor) { m.lastGate == PausedByUser ==> m.state == NO_SEGMENTS }

  lemma StepBlank(m: Monitor, call: Call)
    requires Blank(m) && (m.lastGate != Enabled ==> m.state.current.None?)
    ensures Blank(Step(m, call).monitor)
    ensures Step(m, call).monitor.lastGate != Enabled ==> Step(m, call).monitor.state.current.None?
    ensures call.Poll? && call.gate == PausedByUser ==>
      Step(m, call).monitor == Monitor(NO_SEGMENTS, Some(call.now), None, PausedByUser, m.redact)
  {}

  lemma {:induction false} RunBlank(calls: seq<Call>)
    ensures Blank(Run(calls).monitor) && (Run(calls).monitor.lastGate != Enabled ==> Run(calls).monitor.state.current.None?)
  {
    if calls != [] {
      hide Step, Blank;
      RunBlank(calls[..|calls| - 1]);
      StepBlank(Run(calls[..|calls| - 1]).monitor, calls[|calls| - 1]);
    }
  }

  /** After a paused pass the whole monitor depends only on that pass's time and
      on the one-shot title flag. */
  lemma PauseForgets(history: seq<Call>, now: nat, dirty: bool, answer: Option<Window>)
    ensures Run(history + [Poll(now, PausedByUser, dirty, answer)]).monitor
      == Monitor(NO_SEGMENTS, Some(now), None, PausedByUser, Run(history).monitor.redact)
  {
    hide Step, RunFrom;
    var call := Poll(now, PausedByUser, dirty, answer);
    RunStep(FRESH, history, call);
    RunBlank(history);
    StepBlank(Run(history).monitor, call);
  }

  /** Two monitors tell no continuation apart. */
  ghost predicate Alike(m: Monitor, m': Monitor) {
    forall later: seq<Call> :: RunFrom(m, later).rows == RunFrom(m', later).rows
  }

  /** The pass that shows the flag: the stream is back on and a titled window is read. */
  function Telltale(now: nat): Call { Poll(now, Enabled, true, Some(Window(1, "", "title", 0))) }

  lemma TitleTells(m: Monitor, now: nat)
    requires m.state == NO_SEGMENTS
    ensures RunFrom(m, [Telltale(now)]).rows
      == [FocusChanged(now, Window(1, "", if m.redact then "" else "title", 0), None, 0, 0)]
  {
    assert [Telltale(now)][..0] == [];
    assert RunFrom(m, []) == Outcome(m, []);
    assert [] + Step(m, Telltale(now)).rows == Step(m, Telltale(now)).rows;
  }

  /** A paused pass wipes every trace of what came before it, for all later rows
      of all continuations, exactly when the two histories agree on whether the
      next title is to be blanked: that one flag outlives the pause. */
  lemma PauseLeavesNoTrace(a: seq<Call>, b: seq<Call>, now: nat, dirty: bool, answer: Option<Window>)
    ensures var pause := Poll(now, PausedByUser, dirty, answer);
      Alike(Run(a + [pause]).monitor, Run(b + [pause]).monitor)
      <==> Run(a).monitor.redact == Run(b).monitor.redact
  {
    hide Step, RunFrom;
    var pause := Poll(now, PausedByUser, dirty, answer);
    var m, m' := Run(a + [pause]).monitor, Run(b + [pause]).monitor;
    PauseForgets(a, now, dirty, answer);
    PauseForgets(b, now, dirty, answer);
    if m.redact != m'.redact {
      TitleTells(m, now);
      TitleTells(m', now);
      assert RunFrom(m, [Telltale(now)]).rows[0] != RunFrom(m', [Telltale(now)]).rows[0];
    }
  }
}
