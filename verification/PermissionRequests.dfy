/** The permission-request sidecar: dashboards write numbered requests, the pump
    acts on a request whose number has advanced (`main.rs`, `permissions.rs`). */
module PermissionRequests {

  import opened Wrappers

  datatype Action = PromptAccessibility | PromptInputMonitoring | Relaunch

  /** A request on disk; `id` tells apart the writes that put it there. */
  datatype Request = Request(id: nat, generation: nat, action: Action)

  /** The pump's memory. `baseline` is how many writes had happened when its
      first poll looked at the file; `polling` is between the two reads of a poll. */
  datatype Pump = Pump(last: nat, polled: bool, polling: bool, baseline: nat)

  datatype Acted = Acted(id: nat, baseline: nat, action: Action)

  /** `drafts` holds the number each dashboard has computed but not yet written. */
  datatype State = State(file: Option<Request>, writes: nat, drafts: map<nat, nat>, pump: Option<Pump>, acted: seq<Acted>)

  const START := State(None, 0, map[], None, [])

  /** One atomic step of some process. `readable` is whether a read of an
      existing file succeeds; `written` whether a write does. */
  datatype Event =
    | Draft(dash: nat, readable: bool)
    | Commit(dash: nat, action: Action, written: bool)
    | Launch
    | Quit
    | Begin(readable: bool)
    | Act(readable: bool)

  function Read(file: Option<Request>, readable: bool): Option<Request> { if readable then file else None }

  /** The number a dashboard gives its request: past the one it read. */
  function NextGeneration(prior: Option<Request>): nat { (if prior.Some? then prior.value.generation else 0) + 1 }

  /** The first half of a poll: the silent baseline, on the first poll only. */
  function Adopt(p: Pump, read: Option<Request>, writes: nat): Pump {
    if p.polled then p.(polling := true)
    else Pump(if read.Some? then read.value.generation else p.last, true, true, writes)
  }

  predicate Fresh(p: Pump, read: Option<Request>) { read.Some? && read.value.generation > p.last }

  /** The second half of a poll. */
  function Consider(p: Pump, read: Option<Request>): Pump {
    (if Fresh(p, read) then p.(last := read.value.generation) else p).(polling := false)
  }

  /** A step that its process cannot take changes nothing. */
  function Next(s: State, e: Event): State {
    match e
    case Draft(dash, readable) => s.(drafts := s.drafts[dash := NextGeneration(Read(s.file, readable))])
    case Commit(dash, action, written) =>
      if dash !in s.drafts then s
      else if !written then s.(drafts := s.drafts - {dash})
      else s.(file := Some(Request(s.writes, s.drafts[dash], action)), writes := s.writes + 1, drafts := s.drafts - {dash})
    case Launch => if s.pump.Some? then s else s.(pump := Some(Pump(0, false, false, 0)))
    case Quit => s.(pump := None)
    case Begin(readable) =>
      if s.pump.None? || s.pump.value.polling then s
      else s.(pump := Some(Adopt(s.pump.value, Read(s.file, readable), s.writes)))
    case Act(readable) =>
      if s.pump.None? || !s.pump.value.polling then s else
        var p, read := s.pump.value, Read(s.file, readable);
        s.(pump := Some(Consider(p, read)),
           acted := if Fresh(p, read) then s.acted + [Acted(read.value.id, p.baseline, read.value.action)] else s.acted)
  }

  function RunFrom(s: State, events: seq<Event>): State {
    if events == [] then s else Next(RunFrom(s, events[..|events| - 1]), events[|events| - 1])
  }

  function Run(events: seq<Event>): State { RunFrom(START, events) }

  // ------------------------------------------------------------- the object

  class PermissionPump {
    var lastGeneration: nat
    var lastPoll: Option<nat>

    /** The pump between polls; `writes` is what its baseline saw. */
    function Value(writes: nat): Pump reads this {
      if lastPoll.None? then Pump(lastGeneration, false, false, 0) else Pump(lastGeneration, true, false, writes)
    }

    constructor ()
      ensures lastGeneration == 0 && lastPoll == None
    {
      lastGeneration, lastPoll := 0, None;
    }

    /** One service call at `now` (milliseconds): `first` and `second` are what
        its two reads of the sidecar return. */
    method HandlePermissionSubsystem(now: nat, first: Option<Request>, second: Option<Request>, writes: nat)
      returns (action: Option<Action>)
      modifies this
      ensures old(lastPoll).Some? && now < old(lastPoll).value + 1000 ==>
        action == None && lastPoll == old(lastPoll) && lastGeneration == old(lastGeneration)
      ensures old(lastPoll).None? || now >= old(lastPoll).value + 1000 ==>
        var begun := Adopt(old(Value(writes)), first, writes);
        && lastPoll == Some(now) && Value(writes) == Consider(begun, second)
        && action == if Fresh(begun, second) then Some(second.value.action) else None
    {
      action := None;
      var firstPoll := lastPoll.None?;
      if lastPoll.Some? && now < lastPoll.value + 1000 { return; }
      lastPoll := Some(now);
      if firstPoll && first.Some? { lastGeneration := first.value.generation; }
      if second.Some? && second.value.generation > lastGeneration {
        lastGeneration := second.value.generation;
        action := Some(second.value.action);
      }
    }
  }

  // --------------------------------------------------------- single processes

  /** A dashboard that reads and writes puts its request into the file, numbered past the
      one it read, or leaves the file as it was when the write fails; either way it is
      done, and it writes nothing it has not numbered. */
  lemma DashboardRunsThrough(s: State, dash: nat, action: Action, readable: bool, written: bool)
    ensures var done := Next(Next(s, Draft(dash, readable)), Commit(dash, action, written));
      && done.file == (if written then Some(Request(s.writes, if readable && s.file.Some? then s.file.value.generation + 1 else 1, action))
                       else s.file)
      && done.writes == (if written then s.writes + 1 else s.writes)
      && done.drafts.Keys == s.drafts.Keys - {dash} && (forall d | d in done.drafts :: done.drafts[d] == s.drafts[d])
      && done.pump == s.pump && done.acted == s.acted
    ensures dash !in s.drafts ==> Next(s, Commit(dash, action, written)) == s
  {}

  /** A pump is launched only when none runs, and then knows nothing; it looks once per
      poll, and quitting takes nothing else with it. */
  lemma PumpsComeAndGo(s: State, readable: bool)
    ensures Next(s, Quit) == State(s.file, s.writes, s.drafts, None, s.acted)
    ensures s.pump.Some? ==> Next(s, Launch) == s
    ensures s.pump.None? ==>
      var fresh_ := Next(s, Launch);
      && fresh_.pump.Some? && fresh_.pump.value.last == 0 && !fresh_.pump.value.polled && !fresh_.pump.value.polling
      && Next(fresh_, Quit) == s
    ensures s.pump.None? || s.pump.value.polling ==> Next(s, Begin(readable)) == s
    ensures s.pump.None? || !s.pump.value.polling ==> Next(s, Act(readable)) == s
  {}

  // -------------------------------------------------------- never replayed

  /** The first poll of a pump sees the file, if there is one. */
  predicate HonestStep(s: State, e: Event) {
    e.Begin? && s.pump.Some? && !s.pump.value.polled && s.file.Some? ==> e.readable
  }

  predicate Honest(s: State, events: seq<Event>) {
    events == [] || (Honest(s, events[..|events| - 1]) && HonestStep(RunFrom(s, events[..|events| - 1]), events[|events| - 1]))
  }

  predicate ActedOn(acted: seq<Acted>, id: nat) { exists k :: 0 <= k < |acted| && acted[k].id == id }

  /** Every act was on a request written after the acting pump's baseline, and
      no request was acted on twice. */
  predicate OnceAndFresh(acted: seq<Acted>) {
    && (forall k :: 0 <= k < |acted| ==> acted[k].id >= acted[k].baseline)
    && (forall j, k :: 0 <= j < k < |acted| ==> acted[j].id != acted[k].id)
  }

  ghost predicate Safe(s: State) {
    && (s.file.Some? ==> s.file.value.id < s.writes)
    && (forall k :: 0 <= k < |s.acted| ==> s.acted[k].id < s.writes)
    && OnceAndFresh(s.acted)
    && (s.pump.Some? && s.pump.value.polling ==> s.pump.value.polled)
    && (s.pump.Some? && s.pump.value.polled ==> s.pump.value.baseline <= s.writes)
    && (s.pump.Some? && s.pump.value.polled && s.file.Some? && s.file.value.generation > s.pump.value.last
        ==> s.file.value.id >= s.pump.value.baseline && !ActedOn(s.acted, s.file.value.id))
  }

  lemma SafeStep(s: State, e: Event)
    requires Safe(s) && HonestStep(s, e)
    ensures Safe(Next(s, e))
  {
    if e.Act? && Next(s, e).acted != s.acted {
      var t := Next(s, e);
      assert t.acted[|s.acted|].id == s.file.value.id;
    }
  }

  lemma {:induction false} SafeRun(events: seq<Event>)
    requires Honest(START, events)
    ensures Safe(Run(events))
  {
    if events != [] {
      hide Next, HonestStep;
      SafeRun(events[..|events| - 1]);
      SafeStep(Run(events[..|events| - 1]), events[|events| - 1]);
    }
  }

  /** Whatever the interleaving of dashboards, polls, quits and relaunches, a
      request is acted on at most once, and only by a pump whose first poll came
      before the request was written: nothing is replayed into a later pump. */
  lemma RequestsAreNeverReplayed(events: seq<Event>)
    requires Honest(START, events)
    ensures OnceAndFresh(Run(events).acted)
  {
    SafeRun(events);
  }

  // ------------------------------------------------ when the baseline fails

  predicate Stays(events: seq<Event>) { forall k :: 0 <= k < |events| ==> !events[k].Launch? }

  /** From `s` on, until a new pump is launched, only requests written later are acted on. */
  ghost predicate OnlyLaterRequests(s: State) {
    forall later: seq<Event> | Stays(later) :: ActsOnlyFrom(RunFrom(s, later).acted, |s.acted|, s.writes)
  }

  predicate ActsOnlyFrom(acted: seq<Acted>, done: nat, writes: nat) {
    forall k :: done <= k < |acted| ==> acted[k].id >= writes
  }

  predicate Numbered(s: State) {
    && (s.file.Some? ==> s.file.value.id < s.writes && s.file.value.generation >= 1)
    && (forall d | d in s.drafts :: s.drafts[d] >= 1)
    && (s.pump.Some? && !s.pump.value.polled ==> s.pump.value.last == 0 && !s.pump.value.polling)
  }

  lemma {:induction false} RunNumbered(events: seq<Event>)
    ensures Numbered(Run(events))
  {
    if events != [] { RunNumbered(events[..|events| - 1]); }
  }

  /** The pump of `s` or none, and nothing older than `writes` that it would act on. */
  ghost predicate Guarded(s: State, writes: nat) {
    && s.writes >= writes
    && (s.pump.Some? ==> s.pump.value.polled)
    && (s.pump.Some? && s.file.Some? && s.file.value.generation > s.pump.value.last ==> s.file.value.id >= writes)
  }

  lemma GuardedStep(s: State, e: Event, done: nat, writes: nat)
    requires Guarded(s, writes) && !e.Launch? && ActsOnlyFrom(s.acted, done, writes)
    ensures Guarded(Next(s, e), writes) && ActsOnlyFrom(Next(s, e).acted, done, writes)
  {}

  lemma {:induction false} GuardedRun(s: State, later: seq<Event>)
    requires Guarded(s, s.writes) && Stays(later)
    ensures Guarded(RunFrom(s, later), s.writes) && ActsOnlyFrom(RunFrom(s, later).acted, |s.acted|, s.writes)
  {
    if later != [] {
      hide Next;
      GuardedRun(s, later[..|later| - 1]);
      GuardedStep(RunFrom(s, later[..|later| - 1]), later[|later| - 1], |s.acted|, s.writes);
    }
  }

  /** A freshly launched pump is safe from everything written before its first
      poll exactly when that poll could read the file or there was none: a read
      that fails leaves the old request looking new. */
  lemma BaselineDecides(events: seq<Event>, readable: bool)
    requires Run(events).pump.Some? && !Run(events).pump.value.polled
    ensures OnlyLaterRequests(Next(Run(events), Begin(readable))) <==> readable || Run(events).file.None?
  {
    var s := Run(events);
    var t := Next(s, Begin(readable));
    RunNumbered(events);
    if readable || s.file.None? {
      forall later: seq<Event> | Stays(later) ensures ActsOnlyFrom(RunFrom(t, later).acted, |t.acted|, t.writes) {
        GuardedRun(t, later);
      }
    } else {
      var later := [Act(true)];
      assert later[..0] == [] && RunFrom(t, []) == t;
      assert RunFrom(t, later) == Next(t, Act(true));
      assert RunFrom(t, later).acted[|t.acted|].id == s.file.value.id;
      assert !ActsOnlyFrom(RunFrom(t, later).acted, |t.acted|, t.writes);
    }
  }

  /** A relaunch request, acted on by the pump it quits; the next pump's first
      read fails and its second succeeds. */
  const REPLAY: seq<Event> := [
    Launch, Begin(true), Act(true),
    Draft(0, true), Commit(0, Relaunch, true),
    Begin(true), Act(true), Quit,
    Launch, Begin(false), Act(true)]

  lemma {:induction false} RunAppend(s: State, a: seq<Event>, b: seq<Event>)
    ensures RunFrom(s, a + b) == RunFrom(RunFrom(s, a), b)
  {
    if b == [] {
      assert a + b == a;
    } else {
      hide Next;
      RunAppend(s, a, b[..|b| - 1]);
      assert (a + b)[..|a + b| - 1] == a + b[..|b| - 1];
    }
  }

  lemma RunTwo(s: State, a: Event, b: Event)
    ensures RunFrom(s, [a, b]) == Next(Next(s, a), b)
  {
    assert [a, b][..1] == [a] && [a][..0] == [];
    assert RunFrom(s, [a]) == Next(RunFrom(s, []), a);
  }

  lemma RunThree(s: State, a: Event, b: Event, c: Event)
    ensures RunFrom(s, [a, b, c]) == Next(Next(Next(s, a), b), c)
  {
    assert [a, b, c][..2] == [a, b];
    RunTwo(s, a, b);
  }

  lemma ReplayParts()
    ensures Run(REPLAY) == RunFrom(RunFrom(RunFrom(Run([Launch, Begin(true), Act(true)]),
      [Draft(0, true), Commit(0, Relaunch, true)]), [Begin(true), Act(true), Quit]), [Launch, Begin(false), Act(true)])
  {
    var a, b, c, d := [Launch, Begin(true), Act(true)], [Draft(0, true), Commit(0, Relaunch, true)],
                      [Begin(true), Act(true), Quit], [Launch, Begin(false), Act(true)];
    assert REPLAY == a + b + c + d;
    RunAppend(START, a + b + c, d);
    RunAppend(START, a + b, c);
    RunAppend(START, a, b);
  }

  /** With a baseline read that fails, a relaunch is replayed. */
  lemma FailedBaselineReplays()
    ensures Run(REPLAY).acted == [Acted(0, 0, Relaunch), Acted(0, 1, Relaunch)]
  {
    hide RunFrom;
    ReplayParts();
    RunThree(START, Launch, Begin(true), Act(true));
    var s := Run([Launch, Begin(true), Act(true)]);
    assert s == State(None, 0, map[], Some(Pump(0, true, false, 0)), []);
    RunTwo(s, Draft(0, true), Commit(0, Relaunch, true));
    var t := RunFrom(s, [Draft(0, true), Commit(0, Relaunch, true)]);
    assert t.file == Some(Request(0, 1, Relaunch)) && t.writes == 1 && t.pump == s.pump && t.acted == [];
    RunThree(t, Begin(true), Act(true), Quit);
    var u := RunFrom(t, [Begin(true), Act(true), Quit]);
    assert u.file == t.file && u.writes == 1 && u.pump == None && u.acted == [Acted(0, 0, Relaunch)];
    RunThree(u, Launch, Begin(false), Act(true));
  }

  // -------------------------------------------------------- never overlooked

  /** Dashboards take turns: each write follows its own successful read at once. */
  predicate Serial(events: seq<Event>) {
    forall k :: 0 <= k < |events| && events[k].Commit? ==> k > 0 && events[k - 1] == Draft(events[k].dash, true)
  }

  /** The file's number is never behind the pump's. */
  predicate Ahead(s: State) {
    && (s.pump.Some? && s.file.None? ==> s.pump.value.last == 0)
    && (s.pump.Some? && s.file.Some? ==> s.file.value.generation >= s.pump.value.last)
  }

  lemma AheadStep(s: State, e: Event)
    requires Ahead(s) && !e.Commit?
    ensures Ahead(Next(s, e))
  {}

  lemma AheadPair(s: State, dash: nat, action: Action, written: bool)
    requires Ahead(s)
    ensures Ahead(Next(Next(s, Draft(dash, true)), Commit(dash, action, written)))
  {}

  lemma {:induction false} SerialRunAhead(events: seq<Event>)
    requires Serial(events)
    ensures Ahead(Run(events))
  {
    hide Next, Ahead;
    if events == [] {
      StartAhead();
    } else {
      var n := |events| - 1;
      SerialRunAhead(events[..n]);
      if events[n].Commit? {
        SerialRunAhead(events[..n - 1]);
        assert events[..n][..n - 1] == events[..n - 1];
        AheadPair(Run(events[..n - 1]), events[n].dash, events[n].action, events[n].written);
      } else {
        AheadStep(Run(events[..n]), events[n]);
      }
    }
  }

  lemma StartAhead()
    ensures Ahead(Run([]))
  {}

  /** When dashboards take turns no request is overlooked: the running pump's
      next poll acts on whatever was written last. */
  lemma SerialRequestIsActedOn(events: seq<Event>, dash: nat, action: Action, readable: bool)
    requires Serial(events) && Run(events).pump.Some? && Run(events).pump.value.polled && !Run(events).pump.value.polling
    ensures var s := Run(events);
      Run(events + [Draft(dash, true), Commit(dash, action, true)] + [Begin(readable), Act(true)]).acted
      == s.acted + [Acted(s.writes, s.pump.value.baseline, action)]
  {
    hide RunFrom;
    SerialRunAhead(events);
    var s, write, poll := Run(events), [Draft(dash, true), Commit(dash, action, true)], [Begin(readable), Act(true)];
    RunAppend(START, events + write, poll);
    RunAppend(START, events, write);
    RunTwo(s, write[0], write[1]);
    RunTwo(RunFrom(s, write), poll[0], poll[1]);
  }

  /** Request `id` has been acted on since the first `n` acts. */
  predicate ActedSince(acted: seq<Acted>, n: nat, id: nat) { exists k :: n <= k < |acted| && acted[k].id == id }

  /** As long as request `id` is in the file the pump is past it. */
  predicate Passed(s: State, id: nat) {
    && id < s.writes
    && (s.pump.Some? && s.pump.value.polling ==> s.pump.value.polled)
    && (s.file.Some? && s.file.value.id == id && s.pump.Some? && s.pump.value.polled ==> s.file.value.generation <= s.pump.value.last)
  }

  lemma PassedStep(s: State, e: Event, id: nat, n: nat)
    requires Passed(s, id) && HonestStep(s, e) && !ActedSince(s.acted, n, id)
    ensures Passed(Next(s, e), id) && !ActedSince(Next(s, e).acted, n, id)
  {}

  lemma {:induction false} PassedForGood(s: State, events: seq<Event>, id: nat)
    requires Passed(s, id) && Honest(s, events)
    ensures Passed(RunFrom(s, events), id) && !ActedSince(RunFrom(s, events).acted, |s.acted|, id)
  {
    hide Next, Passed, HonestStep;
    if events != [] {
      PassedForGood(s, events[..|events| - 1], id);
      PassedStep(RunFrom(s, events[..|events| - 1]), events[|events| - 1], id, |s.acted|);
    }
  }

  lemma NextPollActs(s: State)
    requires s.pump.Some? && s.pump.value.polled && !s.pump.value.polling && s.file.Some?
    requires s.file.value.generation > s.pump.value.last
    ensures Honest(s, [Begin(true), Act(true)])
    ensures ActedSince(RunFrom(s, [Begin(true), Act(true)]).acted, |s.acted|, s.file.value.id)
  {
    var t := Next(Next(s, Begin(true)), Act(true));
    RunTwo(s, Begin(true), Act(true));
    assert [Begin(true), Act(true)][..1] == [Begin(true)] && [Begin(true)][..0] == [];
    assert t.acted[|s.acted|].id == s.file.value.id;
  }

  /** Whatever comes, later writes, failed reads, restarts and polls, the request in
      the file is never acted on. (Restarted pumps see the file on their first poll.) */
  ghost predicate Overlooked(s: State)
    requires s.file.Some?
  {
    forall more: seq<Event> :: Honest(s, more) ==> !ActedSince(RunFrom(s, more).acted, |s.acted|, s.file.value.id)
  }

  /** A request is overlooked for good exactly when its number is not past the last one
      the running pump acted on or adopted. */
  lemma OverlookedIffNotPast(s: State)
    requires s.pump.Some? && s.pump.value.polled && !s.pump.value.polling && s.file.Some? && s.file.value.id < s.writes
    ensures Overlooked(s) <==> s.file.value.generation <= s.pump.value.last
  {
    if s.file.value.generation <= s.pump.value.last {
      forall more: seq<Event> ensures Honest(s, more) ==> !ActedSince(RunFrom(s, more).acted, |s.acted|, s.file.value.id) {
        if Honest(s, more) { PassedForGood(s, more, s.file.value.id); }
      }
    } else {
      NextPollActs(s);
    }
  }

  /** Two dashboards read the same file, and the pump acts on the first write:
      the second write's request is overlooked for good. */
  lemma TwinRequestIsOverlooked(s: State, a: Action, b: Action)
    requires s.pump.Some? && s.pump.value.polled && !s.pump.value.polling && Ahead(s)
    ensures var drafted := Next(Next(s, Draft(0, true)), Draft(1, true));
      var acted := Next(Next(Next(drafted, Commit(0, a, true)), Begin(true)), Act(true));
      var t := Next(acted, Commit(1, b, true));
      && acted.acted == s.acted + [Acted(s.writes, s.pump.value.baseline, a)]
      && t.file == Some(Request(s.writes + 1, NextGeneration(s.file), b))
      && t.file.value.generation <= t.pump.value.last && Overlooked(t)
  {
    var drafted := Next(Next(s, Draft(0, true)), Draft(1, true));
    var acted := Next(Next(Next(drafted, Commit(0, a, true)), Begin(true)), Act(true));
    OverlookedIffNotPast(Next(acted, Commit(1, b, true)));
  }
}
