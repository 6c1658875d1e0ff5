/** The rows of the foreground monitor against what was asked and answered: the open
    segment and the unfocused times are read off the rows already out, the rest off the
    calls, and every row is then what they say. */
module ForegroundRows {

  import opened Foreground
  import opened Wrappers

  // ------------------------------------------------------ reading the calls

  /** When the last pass ran. */
  function LastPass(calls: seq<Call>): Option<nat> {
    if calls == [] then None else
      var call := calls[|calls| - 1];
      if call.Poll? then Some(call.now) else LastPass(calls[..|calls| - 1])
  }

  /** How the last pass was gated; the stream starts out paused. */
  function LastGate(calls: seq<Call>): Gate {
    if calls == [] then PausedByUser else
      var call := calls[|calls| - 1];
      if call.Poll? then call.gate else LastGate(calls[..|calls| - 1])
  }

  /** The last reading of the active window, unless a reseed or a gated pass came after. */
  function LastReading(calls: seq<Call>): Option<nat>
    decreases |calls|, 0
  {
    if calls == [] then None else
      var before, call := calls[..|calls| - 1], calls[|calls| - 1];
      if call.Reseed? || (call.Poll? && call.gate != Enabled) then None
      else if Reads(before, call) then Some(call.now)
      else LastReading(before)
  }

  /** The pass reads the active window: on an edge, on being enabled again, and a second
      after the last reading. */
  predicate Reads(calls: seq<Call>, call: Call)
    decreases |calls|, 1
  {
    && call.Poll? && call.gate == Enabled
    && (call.dirty || LastGate(calls) != Enabled || LastReading(calls).None?
        || call.now >= LastReading(calls).value + 1_000_000_000)
  }

  /** The last reseed asked for a blank title and no window has been read since. */
  predicate RedactionDue(calls: seq<Call>) {
    calls != [] &&
    var before, call := calls[..|calls| - 1], calls[|calls| - 1];
    if call.Reseed? then call.redactTitle else RedactionDue(before) && !(Reads(before, call) && call.answer.Some?)
  }

  /** More than 30 seconds went by since the last pass. */
  predicate Stalls(calls: seq<Call>, now: nat) {
    LastPass(calls).Some? && now > LastPass(calls).value + 30_000_000_000
  }

  // ------------------------------------------------------- reading the rows

  /** A boundary row reuses the window on both sides. */
  predicate Closes(row: Row) { row.prev == Some(row.window) }

  /** The row that opened the segment still open, among those past the first `from`. */
  function OpenIn(rows: seq<Row>, from: nat): Option<Row> {
    if |rows| <= from || Closes(rows[|rows| - 1]) then None else Some(rows[|rows| - 1])
  }

  /** When a row past the first `from` last took focus from the window. */
  function LeftIn(rows: seq<Row>, from: nat, hwnd: nat): Option<nat> {
    if |rows| <= from then None else
      var row := rows[|rows| - 1];
      if row.prev.Some? && row.prev.value.hwnd == hwnd then Some(row.at) else LeftIn(rows[..|rows| - 1], from, hwnd)
  }

  /** How many rows were out at the last reseed. */
  function Reseeded(calls: seq<Call>): nat {
    if calls == [] then 0
    else if calls[|calls| - 1].Reseed? then |Run(calls).rows|
    else Reseeded(calls[..|calls| - 1])
  }

  /** How many rows were out at the last reseed or user pause. */
  function Forgotten(calls: seq<Call>): nat {
    if calls == [] then 0 else
      var call := calls[|calls| - 1];
      if call.Reseed? || (call.Poll? && call.gate == PausedByUser) then |Run(calls).rows|
      else Forgotten(calls[..|calls| - 1])
  }

  // ------------------------------------------------------- what must come out

  /** Whole milliseconds gone by. */
  function Ms(now: nat, began: nat): nat { if now < began then 0 else (now - began) / 1_000_000 }

  /** The open segment ends: its window on both sides, its dwell up to `end`. */
  function Closing(rows: seq<Row>, reseeded: nat, now: nat, end: nat): seq<Row> {
    match OpenIn(rows, reseeded)
    case None => []
    case Some(open) => [FocusChanged(now, open.window, Some(open.window), Ms(end, open.at), 0)]
  }

  /** A window is read: no row if the open segment is its own, else a row that names it,
      the window left for it, how long that one had focus and how long this one had not. */
  function Opening(rows: seq<Row>, reseeded: nat, forgotten: nat, window: Window, now: nat): seq<Row> {
    var open, left := OpenIn(rows, reseeded), LeftIn(rows, forgotten, window.hwnd);
    if open.Some? && open.value.window.hwnd == window.hwnd then [] else
      [FocusChanged(now, window, if open.Some? then Some(open.value.window) else None,
                    if open.Some? then Ms(now, open.value.at) else 0,
                    if left.Some? then Ms(now, left.value) else 0)]
  }

  /** Where the dwell ends: now, or at the last pass if the pump has stalled since. */
  function DwellEnd(calls: seq<Call>, now: nat): nat { if Stalls(calls, now) then LastPass(calls).value else now }

  /** The window as it is recorded. */
  function Seen(calls: seq<Call>, answer: Window): Window {
    Window(answer.hwnd, answer.exe, if RedactionDue(calls) then "" else answer.title, answer.pid)
  }

  function ClosingRows(calls: seq<Call>, now: nat): seq<Row> {
    Closing(Run(calls).rows, Reseeded(calls), now, DwellEnd(calls, now))
  }

  /** Everything one call puts out. */
  function RowsOf(calls: seq<Call>, call: Call): seq<Row> {
    match call
    case Reseed(_) => []
    case FlushAt(now) => ClosingRows(calls, now)
    case Poll(now, gate, _, answer) =>
      if gate != Enabled then ClosingRows(calls, now) else
        var closed := if Stalls(calls, now) then ClosingRows(calls, now) else [];
        if !Reads(calls, call) || answer.None? then closed
        else closed + Opening(Run(calls).rows + closed, Reseeded(calls), Forgotten(calls), Seen(calls, answer.value), now)
  }

  // ------------------------------------------------ the state is the history

  function Current(open: Option<Row>): Option<Focused> {
    if open.None? then None else Some(Focused(open.value.window, open.value.at))
  }

  /** The segment state is what the rows tell. */
  ghost predicate Told(s: Segments, rows: seq<Row>, reseeded: nat, forgotten: nat) {
    && reseeded <= forgotten <= |rows|
    && s.current == Current(OpenIn(rows, reseeded))
    && forall hwnd :: LeftIn(rows, forgotten, hwnd) == if hwnd in s.unfocused then Some(s.unfocused[hwnd]) else None
  }

  lemma LeftInStep(rows: seq<Row>, row: Row, from: nat, hwnd: nat)
    requires from <= |rows|
    ensures LeftIn(rows + [row], from, hwnd)
      == if row.prev.Some? && row.prev.value.hwnd == hwnd then Some(row.at) else LeftIn(rows, from, hwnd)
  {
    assert (rows + [row])[..|rows|] == rows;
  }

  lemma OpeningIs(s: Segments, rows: seq<Row>, reseeded: nat, forgotten: nat, window: Window, now: nat)
    requires Told(s, rows, reseeded, forgotten)
    ensures OnWindow(s, window, now).rows == Opening(rows, reseeded, forgotten, window, now)
  {
    assert LeftIn(rows, forgotten, window.hwnd)
        == if window.hwnd in s.unfocused then Some(s.unfocused[window.hwnd]) else None;
    hide LeftIn;
  }

  lemma ToldOpening(s: Segments, rows: seq<Row>, reseeded: nat, forgotten: nat, window: Window, now: nat)
    requires Told(s, rows, reseeded, forgotten)
    ensures OnWindow(s, window, now).rows == Opening(rows, reseeded, forgotten, window, now)
    ensures Told(OnWindow(s, window, now).state, rows + OnWindow(s, window, now).rows, reseeded, forgotten)
  {
    OpeningIs(s, rows, reseeded, forgotten, window, now);
    hide LeftIn, Opening;
    var c := OnWindow(s, window, now);
    if c.rows == [] {
      assert rows + [] == rows;
    } else {
      forall hwnd ensures LeftIn(rows + c.rows, forgotten, hwnd)
        == if hwnd in c.state.unfocused then Some(c.state.unfocused[hwnd]) else None
      {
        LeftInStep(rows, c.rows[0], forgotten, hwnd);
        assert c.rows == [c.rows[0]];
      }
    }
  }

  lemma ToldClosing(s: Segments, rows: seq<Row>, reseeded: nat, forgotten: nat, now: nat, limit: Option<nat>, end: nat)
    requires Told(s, rows, reseeded, forgotten)
    requires s.current.Some? ==>
      if limit.None? then end == now
      else end <= now && limit.value == if end < s.current.value.since then 0 else end - s.current.value.since
    ensures EndCurrent(s, now, limit).rows == Closing(rows, reseeded, now, end)
    ensures Told(EndCurrent(s, now, limit).state, rows + EndCurrent(s, now, limit).rows, reseeded, forgotten)
  {
    var c := EndCurrent(s, now, limit);
    hide LeftIn;
    if c.rows == [] {
      assert rows + [] == rows;
    } else {
      forall hwnd ensures LeftIn(rows + c.rows, forgotten, hwnd)
        == if hwnd in c.state.unfocused then Some(c.state.unfocused[hwnd]) else None
      {
        LeftInStep(rows, c.rows[0], forgotten, hwnd);
        assert c.rows == [c.rows[0]];
      }
    }
  }

  /** Everything the monitor knows is in the calls and the rows. */
  ghost predicate StateTold(calls: seq<Call>) {
    var m := Run(calls).monitor;
    && Told(m.state, Run(calls).rows, Reseeded(calls), Forgotten(calls))
    && m.lastPoll == LastPass(calls) && m.lastRead == LastReading(calls) && m.lastGate == LastGate(calls)
    && m.redact == RedactionDue(calls)
  }

  lemma CallStep(calls: seq<Call>, call: Call)
    ensures LastPass(calls + [call]) == if call.Poll? then Some(call.now) else LastPass(calls)
    ensures LastGate(calls + [call]) == if call.Poll? then call.gate else LastGate(calls)
    ensures LastReading(calls + [call]) ==
      if call.Reseed? || (call.Poll? && call.gate != Enabled) then None
      else if Reads(calls, call) then Some(call.now) else LastReading(calls)
    ensures RedactionDue(calls + [call]) <==>
      if call.Reseed? then call.redactTitle else RedactionDue(calls) && !(Reads(calls, call) && call.answer.Some?)
  {
    hide Reads;
    assert (calls + [call])[..|calls|] == calls;
  }

  lemma MarkStep(calls: seq<Call>, call: Call)
    ensures Reseeded(calls + [call]) == if call.Reseed? then |Run(calls + [call]).rows| else Reseeded(calls)
    ensures Forgotten(calls + [call]) ==
      if call.Reseed? || (call.Poll? && call.gate == PausedByUser) then |Run(calls + [call]).rows| else Forgotten(calls)
  {
    hide Run;
    assert (calls + [call])[..|calls|] == calls;
  }

  lemma ClosedIs(calls: seq<Call>, now: nat)
    requires StateTold(calls)
    ensures var c := EndCapped(Run(calls).monitor, now);
      && c.rows == ClosingRows(calls, now)
      && c.state.current.None?
      && Told(c.state, Run(calls).rows + c.rows, Reseeded(calls), Forgotten(calls))
  {
    hide Run, LastPass, LastReading, LastGate, RedactionDue, Reseeded, Forgotten, Told, Closing, EndCurrent;
    var m := Run(calls).monitor;
    var limit := if m.state.current.Some? && Stalled(m, now)
                 then Some(if m.lastPoll.value < m.state.current.value.since then 0
                           else m.lastPoll.value - m.state.current.value.since)
                 else None;
    ToldClosing(m.state, Run(calls).rows, Reseeded(calls), Forgotten(calls), now, limit, DwellEnd(calls, now));
    Ended(m.state, now, limit);
  }

  lemma Ended(s: Segments, now: nat, limit: Option<nat>)
    ensures EndCurrent(s, now, limit).state.current.None?
    ensures s.current.None? ==> EndCurrent(s, now, limit) == Change(s, [])
  {}

  lemma ToldAfresh(s: Segments, rows: seq<Row>, reseeded: nat, forgotten: nat)
    ensures Told(NO_SEGMENTS, rows, |rows|, |rows|)
    ensures Told(s, rows, reseeded, forgotten) ==> Told(s.(unfocused := map[]), rows, reseeded, |rows|)
  {}

  lemma GatedTold(calls: seq<Call>, now: nat, gate: Gate)
    requires StateTold(calls) && gate != Enabled
    ensures var o := GatedPass(Run(calls).monitor, now, gate); var all := Run(calls).rows + o.rows;
      && o.rows == ClosingRows(calls, now)
      && Told(o.monitor.state, all, Reseeded(calls), if gate == PausedByUser then |all| else Forgotten(calls))
  {
    var m, rows := Run(calls).monitor, Run(calls).rows;
    RunBlank(calls);
    ClosedIs(calls, now);
    assert rows + [] == rows;
    ToldAfresh(m.state, rows, Reseeded(calls), Forgotten(calls));
    ToldAfresh(EndCapped(m, now).state, rows + ClosingRows(calls, now), Reseeded(calls), Forgotten(calls));
    Ended(m.state, now, None);
    hide Run, LastPass, LastReading, LastGate, RedactionDue, Reseeded, Forgotten, Told, Closing, EndCurrent, Stalled;
  }

  lemma GuardsAgree(calls: seq<Call>, call: Call)
    requires StateTold(calls) && call.Poll? && call.gate == Enabled
    ensures var m := Run(calls).monitor;
      && (ReadDue(m, call.now, call.dirty) <==> Reads(calls, call))
      && (Stalled(m, call.now) <==> Stalls(calls, call.now))
      && m.lastRead == LastReading(calls) && m.redact == RedactionDue(calls)
      && Told(m.state, Run(calls).rows, Reseeded(calls), Forgotten(calls))
  {
    hide Run, LastPass, LastReading, LastGate, RedactionDue, Reseeded, Forgotten, Told;
  }

  lemma EnabledTold(calls: seq<Call>, call: Call)
    requires StateTold(calls) && call.Poll? && call.gate == Enabled
    ensures var o := EnabledPass(Run(calls).monitor, call.now, call.dirty, call.answer);
      && o.rows == RowsOf(calls, call)
      && Told(o.monitor.state, Run(calls).rows + o.rows, Reseeded(calls), Forgotten(calls))
      && o.monitor.lastPoll == Some(call.now) && o.monitor.lastGate == Enabled
      && o.monitor.lastRead == (if Reads(calls, call) then Some(call.now) else LastReading(calls))
      && o.monitor.redact == (RedactionDue(calls) && !(Reads(calls, call) && call.answer.Some?))
  {
    hide *;
    var m, rows, now := Run(calls).monitor, Run(calls).rows, call.now;
    GuardsAgree(calls, call);
    ClosedIs(calls, now);
    NoneOpen(calls, now);
    assert rows + [] == rows;
    EnabledUnfolds(calls, call, m);
    var closed := if m.state.current.Some? && Stalled(m, now) then EndCapped(m, now) else Change(m.state, []);
    if Reads(calls, call) && call.answer.Some? {
      var seen := Seen(calls, call.answer.value);
      ToldOpening(closed.state, rows + closed.rows, Reseeded(calls), Forgotten(calls), seen, now);
      var moved := OnWindow(closed.state, seen, now);
      assert rows + closed.rows + moved.rows == rows + (closed.rows + moved.rows);
    }
  }

  lemma EnabledUnfolds(calls: seq<Call>, call: Call, m: Monitor)
    requires call.Poll? && call.gate == Enabled && m.redact == RedactionDue(calls)
    ensures RowsOf(calls, call) ==
      var closed := if Stalls(calls, call.now) then ClosingRows(calls, call.now) else [];
      if !Reads(calls, call) || call.answer.None? then closed
      else closed + Opening(Run(calls).rows + closed, Reseeded(calls), Forgotten(calls), Seen(calls, call.answer.value), call.now)
    ensures EnabledPass(m, call.now, call.dirty, call.answer) ==
      var now := call.now;
      var closed := if m.state.current.Some? && Stalled(m, now) then EndCapped(m, now) else Change(m.state, []);
      if !ReadDue(m, now, call.dirty) then Outcome(Monitor(closed.state, Some(now), m.lastRead, Enabled, m.redact), closed.rows)
      else if call.answer.None? then Outcome(Monitor(closed.state, Some(now), Some(now), Enabled, m.redact), closed.rows)
      else
        var moved := OnWindow(closed.state, Seen(calls, call.answer.value), now);
        Outcome(Monitor(moved.state, Some(now), Some(now), Enabled, false), closed.rows + moved.rows)
  {
    hide Run, Reads, ReadDue, Stalled, Stalls, ClosingRows, EndCapped, OnWindow, Opening, RedactionDue, Reseeded, Forgotten;
  }

  lemma NoneOpen(calls: seq<Call>, now: nat)
    requires StateTold(calls)
    ensures Run(calls).monitor.state.current.None? ==> ClosingRows(calls, now) == []
  {
    hide Run, LastPass, LastReading, LastGate, RedactionDue, Reseeded, Forgotten, LeftIn;
  }

  lemma StepTold(calls: seq<Call>, call: Call)
    requires StateTold(calls)
    ensures Step(Run(calls).monitor, call).rows == RowsOf(calls, call)
    ensures StateTold(calls + [call])
  {
    var m, rows := Run(calls).monitor, Run(calls).rows;
    RunStep(FRESH, calls, call);
    CallStep(calls, call);
    MarkStep(calls, call);
    assert rows + [] == rows;
    match call {
      case Poll(now, gate, dirty, answer) =>
        if gate == Enabled { EnabledTold(calls, call); } else { GatedTold(calls, now, gate); }
      case Reseed(_) => ToldAfresh(m.state, rows, 0, 0);
      case FlushAt(now) => ClosedIs(calls, now);
    }
    hide RunFrom, LastPass, LastReading, LastGate, RedactionDue, Reseeded, Forgotten, Told, Closing, EndCapped, EnabledPass, Reads,
         RowsOf;
  }

  lemma {:induction false} RunTold(calls: seq<Call>)
    ensures StateTold(calls)
  {
    if calls != [] {
      var before, call := calls[..|calls| - 1], calls[|calls| - 1];
      assert before + [call] == calls;
      hide *;
      RunTold(before);
      StepTold(before, call);
    }
  }

  /** Whatever came before, a call puts out exactly what the calls and the rows so far
      ask for. */
  lemma RowsFollowHistory(calls: seq<Call>, call: Call)
    ensures Step(Run(calls).monitor, call).rows == RowsOf(calls, call)
    ensures Run(calls + [call]).rows == Run(calls).rows + RowsOf(calls, call)
  {
    hide Step, RunFrom, RowsOf, StateTold;
    RunTold(calls);
    StepTold(calls, call);
    RunStep(FRESH, calls, call);
  }

  /** The flag is up exactly when redaction is due. */
  lemma FlagIsRedactionDue(calls: seq<Call>)
    ensures Run(calls).monitor.redact <==> RedactionDue(calls)
  {
    hide Run, RedactionDue, Told;
    RunTold(calls);
  }

  // ------------------------------------------------------------- the chain

  /** A row that names a window before it follows the row that opened that window's
      segment, and credits it no more than the time between the two: all of it when the
      focus moved to another window. A row without one credits nothing. */
  ghost predicate Follows(rows: seq<Row>, k: nat)
    requires k < |rows|
  {
    match rows[k].prev
    case None => rows[k].focusedForMs == 0
    case Some(prev) =>
      && k > 0 && !Closes(rows[k - 1]) && prev == rows[k - 1].window
      && rows[k].focusedForMs <= Ms(rows[k].at, rows[k - 1].at)
      && if Closes(rows[k]) then rows[k].unfocusedForMs == 0
         else prev.hwnd != rows[k].window.hwnd && rows[k].focusedForMs == Ms(rows[k].at, rows[k - 1].at)
  }

  ghost predicate Chained(rows: seq<Row>) { forall k :: 0 <= k < |rows| ==> Follows(rows, k) }

  lemma ChainedStep(rows: seq<Row>, row: Row)
    requires Chained(rows) && Follows(rows + [row], |rows|)
    ensures Chained(rows + [row])
  {
    forall k | 0 <= k < |rows + [row]| ensures Follows(rows + [row], k) {
      if k < |rows| { assert Follows(rows, k); }
    }
  }

  lemma ClosingChained(rows: seq<Row>, reseeded: nat, now: nat, end: nat)
    requires Chained(rows) && end <= now
    ensures Chained(rows + Closing(rows, reseeded, now, end))
  {
    hide Chained;
    assert rows + [] == rows;
    if OpenIn(rows, reseeded).Some? { ChainedStep(rows, Closing(rows, reseeded, now, end)[0]); }
  }

  lemma OpeningChained(rows: seq<Row>, reseeded: nat, forgotten: nat, window: Window, now: nat)
    requires Chained(rows)
    ensures Chained(rows + Opening(rows, reseeded, forgotten, window, now))
  {
    hide Chained, LeftIn;
    assert rows + [] == rows;
    if Opening(rows, reseeded, forgotten, window, now) != [] {
      ChainedStep(rows, Opening(rows, reseeded, forgotten, window, now)[0]);
    }
  }

  lemma RowsOfChained(calls: seq<Call>, call: Call)
    requires Chained(Run(calls).rows)
    ensures Chained(Run(calls).rows + RowsOf(calls, call))
  {
    hide Chained, Closing, Opening, Run, Reads, LastPass, Reseeded, Forgotten, RedactionDue;
    var rows := Run(calls).rows;
    assert rows + [] == rows;
    if TimeOf(call).Some? {
      var now := TimeOf(call).value;
      ClosingChained(rows, Reseeded(calls), now, DwellEnd(calls, now));
      if call.Poll? && call.answer.Some? {
        var closed := if Stalls(calls, now) then ClosingRows(calls, now) else [];
        var shown := Opening(rows + closed, Reseeded(calls), Forgotten(calls), Seen(calls, call.answer.value), now);
        OpeningChained(rows + closed, Reseeded(calls), Forgotten(calls), Seen(calls, call.answer.value), now);
        assert rows + closed + shown == rows + (closed + shown);
      }
    }
  }

  /** The rows of any run form a chain of segments. */
  lemma {:induction false} RunsAreChained(calls: seq<Call>)
    ensures Chained(Run(calls).rows)
  {
    hide Step, RowsOf;
    if calls != [] {
      var before, call := calls[..|calls| - 1], calls[|calls| - 1];
      assert before + [call] == calls;
      RunsAreChained(before);
      RowsFollowHistory(before, call);
      RowsOfChained(before, call);
    }
  }
}
