/** The Record Routine lifecycle in the tray of `main.rs`: the pump's handler, the
    stop lane, the pause lane, the cap prompt and the start flow. */
module RecordLanes {

  import opened Wrappers

  /** Who reports a failure. */
  datatype Lane = StartLane | StopLane | SimpleLane | CapLane

  datatype Event =
    | Started(session: int, baselineSuspended: bool)
    | StopForSafetyCap(session: int)
    | Stopped(session: int)
    | Paused(session: int)
    | Resumed(session: int)
    | Failed(stamp: Option<int>, lane: Lane)

  /** The tray's own fields, and the pause flag and gate it shares. */
  datatype Tray = Tray(active: Option<int>, stopPending: Option<int>, paused: bool, baselineOwned: bool,
                       suspended: bool, userPaused: bool)

  /** A tray after some handling, and the sessions whose stop it spawned. */
  datatype Handled = Handled(tray: Tray, stops: seq<int>)

  function Quiet(t: Tray): Handled { Handled(t, []) }

  /** `stop_recording_with_reason`: at most one stop for the active session. */
  function StopWithReason(t: Tray, session: int): Handled {
    if t.active != Some(session) || t.stopPending == Some(session) then Quiet(t)
    else Handled(t.(stopPending := Some(session)), [session])
  }

  /** A user pause keeps the gate closed; otherwise the recording gives back what it took. */
  function ResumeBaseline(t: Tray): Tray {
    t.(baselineOwned := false, suspended := if !t.userPaused && t.baselineOwned then false else t.suspended)
  }

  function Cleared(t: Tray): Tray { ResumeBaseline(t.(active := None, stopPending := None, paused := false)) }

  /** One event in the pump; `workerStarts` is whether a capture worker can be started. */
  function Handle(t: Tray, e: Event, workerStarts: bool): Handled {
    match e
    case Started(session, suspended) =>
      var fresh_ := t.(active := Some(session), stopPending := None, paused := false, baselineOwned := suspended);
      if t.userPaused || !workerStarts then StopWithReason(fresh_, session) else Quiet(fresh_)
    case StopForSafetyCap(session) => StopWithReason(t, session)
    case Stopped(session) => if t.active != Some(session) then Quiet(t) else Quiet(Cleared(t))
    case Paused(session) =>
      if t.active != Some(session) || t.stopPending == Some(session) then Quiet(t) else Quiet(t.(paused := true))
    case Resumed(session) =>
      if t.active != Some(session) || t.stopPending == Some(session) then Quiet(t) else Quiet(t.(paused := false))
    case Failed(stamp, _) =>
      if stamp.Some? && t.active != stamp then Quiet(t)
      else Handled(Cleared(t), if stamp.Some? && t.stopPending != stamp then [stamp.value] else [])
  }

  // ------------------------------------------------------------ the object

  class RecordTray {
    var active: Option<int>
    var stopPending: Option<int>
    var recordingPaused: bool
    var baselineOwned: bool
    var suspended: bool
    var userPaused: bool

    function Value(): Tray reads this { Tray(active, stopPending, recordingPaused, baselineOwned, suspended, userPaused) }

    constructor ()
      ensures Value() == Tray(None, None, false, false, false, false)
    {
      active, stopPending, recordingPaused := None, None, false;
      baselineOwned, suspended, userPaused := false, false, false;
    }

    method StopRecordingWithReason(session: int) returns (stops: seq<int>)
      modifies this`stopPending
      ensures Handled(Value(), stops) == StopWithReason(old(Value()), session)
    {
      stops := [];
      if active != Some(session) { return; }
      if stopPending == Some(session) { return; }
      stopPending := Some(session);
      stops := [session];
    }

    method ResumeBaselineCaptureAfterRecording()
      modifies this`baselineOwned, this`suspended
      ensures Value() == ResumeBaseline(old(Value()))
      ensures !baselineOwned && (suspended <==> old(suspended) && (userPaused || !old(baselineOwned)))
    {
      if userPaused {
        baselineOwned := false;
        return;
      }
      if baselineOwned { suspended := false; }
      baselineOwned := false;
    }

    /** One turn of the event loop. */
    method HandleRecordUiEvent(e: Event, workerStarts: bool) returns (stops: seq<int>)
      modifies this
      ensures Handled(Value(), stops) == Handle(old(Value()), e, workerStarts)
    {
      stops := [];
      match e {
        case Started(session, baselineSuspended) =>
          active := Some(session);
          stopPending := None;
          recordingPaused := false;
          baselineOwned := baselineSuspended;
          if userPaused || !workerStarts { stops := StopRecordingWithReason(session); }
        case StopForSafetyCap(session) =>
          stops := StopRecordingWithReason(session);
        case Stopped(session) =>
          if active != Some(session) { return; }
          active, stopPending, recordingPaused := None, None, false;
          ResumeBaselineCaptureAfterRecording();
        case Paused(session) =>
          if active != Some(session) || stopPending == Some(session) { return; }
          recordingPaused := true;
        case Resumed(session) =>
          if active != Some(session) || stopPending == Some(session) { return; }
          recordingPaused := false;
        case Failed(stamp, _) =>
          if stamp.Some? {
            if active != stamp { return; }
            if stopPending != stamp { stops := [stamp.value]; }
          }
          active, stopPending, recordingPaused := None, None, false;
          ResumeBaselineCaptureAfterRecording();
      }
    }

    /** The whole loop: drain the queue. */
    method HandleRecordUiEvents(queue: seq<Event>, workerStarts: bool) returns (stops: seq<int>)
      modifies this
      ensures Handled(Value(), stops) == HandleAll(old(Value()), queue, workerStarts)
    {
      stops := [];
      ghost var start := Value();
      for i := 0 to |queue|
        invariant Handled(Value(), stops) == HandleAll(start, queue[..i], workerStarts)
      {
        assert queue[..i + 1][..i] == queue[..i];
        var more := HandleRecordUiEvent(queue[i], workerStarts);
        stops := stops + more;
      }
      assert queue[..|queue|] == queue;
    }
  }

  function HandleAll(t: Tray, queue: seq<Event>, workerStarts: bool): Handled {
    if queue == [] then Quiet(t) else
      var before := HandleAll(t, queue[..|queue| - 1], workerStarts);
      var last := Handle(before.tray, queue[|queue| - 1], workerStarts);
      Handled(last.tray, before.stops + last.stops)
  }

  // ------------------------------------------------------------- the system

  datatype Progress = Sending | Awaiting

  datatype StopThread = StopThread(session: int, at: Progress)

  datatype SimpleThread = SimpleThread(session: int, pause: bool, at: Progress)

  /** The tray with everything in flight around it. `sent` counts the stops
      spawned for each session, `left` the sessions that have left the active slot;
      session ids come from the writer, which never repeats one. */
  datatype System = System(tray: Tray, events: multiset<Event>, stops: multiset<StopThread>, simples: multiset<SimpleThread>,
                           caps: multiset<int>, starts: nat, nextId: int, sent: multiset<int>, left: multiset<int>)

  const START := System(Tray(None, None, false, false, false, false), multiset{}, multiset{}, multiset{}, multiset{}, 0, 0,
                        multiset{}, multiset{})

  /** One step of one thread. `ok` is whether a send, a reply or a start succeeds. */
  datatype Action =
    | Pump(e: Event, workerStarts: bool)
    | AskStop
    | AskPause
    | AskResume
    | SetUserPaused(on: bool)
    | StopSend(session: int, ok: bool)
    | StopReply(session: int, ok: bool)
    | SimpleSend(session: int, pause: bool, ok: bool)
    | SimpleReply(session: int, pause: bool, ok: bool)
    | CapAsked(session: int)
    | CapAnswered(session: int, extend: bool, ok: bool)
    | StartAsked
    | StartReply(ok: bool, baselineSuspended: bool)

  /** The tray moves to `h.tray`; stops it spawns get a thread each, and a session
      that is no longer active has left. */
  function After(sys: System, h: Handled): System {
    sys.(tray := h.tray,
         stops := if h.stops == [] then sys.stops else sys.stops + multiset{StopThread(h.stops[0], Sending)},
         sent := sys.sent + multiset(h.stops),
         left := if sys.tray.active.Some? && h.tray.active != sys.tray.active then sys.left + multiset{sys.tray.active.value} else sys.left)
  }

  function Emit(sys: System, e: Event): System { sys.(events := sys.events + multiset{e}) }

  /** A step whose thread is not there changes nothing. */
  function Next(sys: System, a: Action): System {
    match a
    case Pump(e, workerStarts) =>
      if e !in sys.events then sys else After(sys.(events := sys.events - multiset{e}), Handle(sys.tray, e, workerStarts))
    case AskStop => if sys.tray.active.None? then sys else After(sys, StopWithReason(sys.tray, sys.tray.active.value))
    case AskPause =>
      if sys.tray.paused || sys.tray.active.None? || sys.tray.stopPending == sys.tray.active || sys.simples != multiset{} then sys
      else sys.(simples := sys.simples + multiset{SimpleThread(sys.tray.active.value, true, Sending)})
    case AskResume =>
      if !sys.tray.paused || sys.tray.active.None? || sys.tray.stopPending == sys.tray.active || sys.simples != multiset{} then sys
      else sys.(simples := sys.simples + multiset{SimpleThread(sys.tray.active.value, false, Sending)})
    case SetUserPaused(on) => sys.(tray := sys.tray.(userPaused := on))
    case StopSend(s, ok) =>
      var thread := StopThread(s, Sending);
      if thread !in sys.stops then sys
      else if ok then sys.(stops := sys.stops - multiset{thread} + multiset{StopThread(s, Awaiting)})
      else Emit(sys.(stops := sys.stops - multiset{thread}), Failed(Some(s), StopLane))
    case StopReply(s, ok) =>
      var thread := StopThread(s, Awaiting);
      if thread !in sys.stops then sys
      else Emit(sys.(stops := sys.stops - multiset{thread}), if ok then Stopped(s) else Failed(Some(s), StopLane))
    case SimpleSend(s, pause, ok) =>
      var thread := SimpleThread(s, pause, Sending);
      if thread !in sys.simples then sys
      else if ok then sys.(simples := sys.simples - multiset{thread} + multiset{SimpleThread(s, pause, Awaiting)})
      else Emit(sys.(simples := sys.simples - multiset{thread}), Failed(Some(s), SimpleLane))
    case SimpleReply(s, pause, ok) =>
      var thread := SimpleThread(s, pause, Awaiting);
      if thread !in sys.simples then sys
      else Emit(sys.(simples := sys.simples - multiset{thread}),
                if !ok then Failed(Some(s), SimpleLane) else if pause then Paused(s) else Resumed(s))
    case CapAsked(s) => if s >= sys.nextId then sys else sys.(caps := sys.caps + multiset{s})
    case CapAnswered(s, extend, ok) =>
      if s !in sys.caps then sys
      else if !extend then Emit(sys.(caps := sys.caps - multiset{s}), StopForSafetyCap(s))
      else if !ok then Emit(sys.(caps := sys.caps - multiset{s}), Failed(Some(s), CapLane))
      else sys.(caps := sys.caps - multiset{s})
    case StartAsked => sys.(starts := sys.starts + 1)
    case StartReply(ok, suspended) =>
      if sys.starts == 0 then sys
      else if ok then Emit(sys.(starts := sys.starts - 1, nextId := sys.nextId + 1), Started(sys.nextId, suspended))
      else Emit(sys.(starts := sys.starts - 1), Failed(None, StartLane))
  }

  function Run(actions: seq<Action>): System {
    if actions == [] then START else Next(Run(actions[..|actions| - 1]), actions[|actions| - 1])
  }

  // -------------------------------------------------------------- invariants

  /** The stop for a session that is being sent, awaiting its reply, or queued. */
  function StopTokens(sys: System, s: int): nat {
    StopThreads(sys.stops, s) + sys.events[Stopped(s)] + sys.events[Failed(Some(s), StopLane)]
  }

  function StopThreads(stops: multiset<StopThread>, s: int): nat {
    stops[StopThread(s, Sending)] + stops[StopThread(s, Awaiting)]
  }

  /** A session that has been created and not yet taken up by the pump. */
  function Announced(sys: System, s: int): nat { sys.events[Started(s, true)] + sys.events[Started(s, false)] }

  /** Session `s` exists in at most one place: announced, active, or left. */
  function Places(sys: System, s: int): nat {
    Announced(sys, s) + sys.left[s] + if sys.tray.active == Some(s) then 1 else 0
  }

  /** What holds of session `s`. */
  predicate SessionOk(sys: System, s: int) {
    && Places(sys, s) <= 1 && (s >= sys.nextId ==> Places(sys, s) == 0)
    && (Announced(sys, s) == 1 || s >= sys.nextId ==> sys.sent[s] == 0)
    && StopTokens(sys, s) <= sys.sent[s] <= 1
    && (sys.tray.active == Some(s) ==>
          sys.sent[s] == (if sys.tray.stopPending == Some(s) then 1 else 0) && StopTokens(sys, s) == sys.sent[s])
  }

  ghost predicate Sound(sys: System) {
    Tidy(sys.tray) && forall s: int :: SessionOk(sys, s)
  }

  predicate IsStopToken(e: Event, s: int) { e == Stopped(s) || e == Failed(Some(s), StopLane) }

  predicate Announces(e: Event, s: int) { e.Started? && e.session == s }

  function One(b: bool): nat { if b then 1 else 0 }

  function Take(sys: System, e: Event): System
    requires e in sys.events
  {
    sys.(events := sys.events - multiset{e})
  }

  lemma TakeAccounts(sys: System, e: Event, s: int)
    requires e in sys.events
    ensures StopTokens(Take(sys, e), s) + One(IsStopToken(e, s)) == StopTokens(sys, s)
    ensures Announced(Take(sys, e), s) + One(Announces(e, s)) == Announced(sys, s)
  {
    assert e.Started? ==> e == Started(e.session, true) || e == Started(e.session, false);
  }

  lemma AfterAccounts(sys: System, h: Handled, s: int)
    requires |h.stops| <= 1
    ensures StopTokens(After(sys, h), s) == StopTokens(sys, s) + One(h.stops == [s])
    ensures After(sys, h).sent[s] == sys.sent[s] + One(h.stops == [s])
    ensures After(sys, h).left[s] == sys.left[s] + One(sys.tray.active == Some(s) && h.tray.active != Some(s))
    ensures Announced(After(sys, h), s) == Announced(sys, s)
    ensures After(sys, h).tray == h.tray && After(sys, h).nextId == sys.nextId
  {
    if h.stops != [] { assert h.stops == [h.stops[0]]; }
  }

  /** Stops are spawned for the active session only, and only when none is pending. */
  lemma HandleStops(t: Tray, e: Event, workerStarts: bool)
    ensures var h := Handle(t, e, workerStarts);
      && |h.stops| <= 1 && h.tray.userPaused == t.userPaused
      && (e.Started? ==> (
            && h.tray.active == Some(e.session)
            && h.stops == (if h.tray.stopPending == Some(e.session) then [e.session] else [])
            && (h.tray.stopPending.Some? ==> h.tray.stopPending == Some(e.session))))
      && (!e.Started? && h.tray.active.Some? ==> h.tray.active == t.active)
      && (!e.Started? && h.tray.active == t.active && h.stops == [] ==> h.tray.stopPending == t.stopPending || t.active.None?)
      && (!e.Started? && h.stops != [] ==> t.active == Some(h.stops[0]) && t.stopPending != t.active)
      && (!e.Started? && h.stops != [] && h.tray.active.Some? ==> h.tray.stopPending == t.active)
      && (h.tray.active.None? ==> h.tray.stopPending == None || (h.tray == t))
  {}

  lemma TokensMoved(sys: System, next: System, s: int)
    requires SessionOk(sys, s) && next.tray == sys.tray && next.sent == sys.sent && next.left == sys.left
    requires next.nextId == sys.nextId && StopTokens(next, s) == StopTokens(sys, s) && Announced(next, s) == Announced(sys, s)
    ensures SessionOk(next, s)
  {
    hide StopTokens, Announced;
  }

  /** An event or a stop leaves the pump's queue for the tray. */
  lemma HandledSound(sys: System, taken: System, h: Handled, s: int)
    requires SessionOk(sys, s) && |h.stops| <= 1 && taken.tray == sys.tray && taken.nextId == sys.nextId
    requires taken.sent == sys.sent && taken.left == sys.left
    requires Announced(taken, s) + One(h.tray.active == Some(s) && sys.tray.active != Some(s)) == Announced(sys, s)
    requires StopTokens(taken, s) <= StopTokens(sys, s)
    requires h.tray.active == sys.tray.active == Some(s) ==> StopTokens(taken, s) == StopTokens(sys, s)
    requires h.stops == [s] ==> sys.sent[s] == 0 && (h.tray.active == Some(s) ==> h.tray.stopPending == Some(s))
    requires h.stops == [s] ==> sys.tray.active == Some(s) || h.tray.active == Some(s)
    requires h.tray.active == Some(s) && h.stops != [s] ==>
      if sys.tray.active == Some(s) then h.tray.stopPending == sys.tray.stopPending else h.tray.stopPending != Some(s)
    ensures SessionOk(After(taken, h), s)
  {
    AfterAccounts(taken, h, s);
    hide StopTokens, Announced, After;
  }

  lemma PumpSound(sys: System, e: Event, workerStarts: bool, s: int)
    requires Sound(sys) && e in sys.events
    ensures SessionOk(Next(sys, Pump(e, workerStarts)), s)
  {
    var h := Handle(sys.tray, e, workerStarts);
    assert SessionOk(sys, s);
    if e.Started? {
      assert SessionOk(sys, e.session);
      AnnouncedTaken(sys, e);
    }
    TakeAccounts(sys, e, s);
    HandleStops(sys.tray, e, workerStarts);
    TokenClears(sys.tray, e, workerStarts, s);
    if h.stops != [] { assert h.stops == [h.stops[0]]; }
    hide StopTokens, Announced, Handle, After, Sound;
    var taken := Take(sys, e);
    HandledSound(sys, taken, h, s);
  }

  lemma AnnouncedTaken(sys: System, e: Event)
    requires e in sys.events && e.Started?
    ensures Announced(sys, e.session) >= 1
  {}

  /** The active session's own stop, confirmed or failed, clears the active slot. */
  lemma TokenClears(t: Tray, e: Event, workerStarts: bool, s: int)
    ensures t.active == Some(s) && IsStopToken(e, s) ==> Handle(t, e, workerStarts).tray.active == None
  {}

  lemma AskStopSound(sys: System, s: int)
    requires Sound(sys)
    ensures SessionOk(Next(sys, AskStop), s)
  {
    assert SessionOk(sys, s);
    if sys.tray.active.Some? {
      var h := StopWithReason(sys.tray, sys.tray.active.value);
      hide StopTokens, Announced, After;
      HandledSound(sys, sys, h, s);
    }
  }

  lemma ThreadGone(stops: multiset<StopThread>, thread: StopThread, s: int)
    requires thread in stops
    ensures StopThreads(stops - multiset{thread}, s) + One(thread.session == s) == StopThreads(stops, s)
  {
    if thread.at.Sending? {
      assert thread == StopThread(thread.session, Sending);
    } else {
      assert thread == StopThread(thread.session, Awaiting);
    }
  }

  lemma ThreadCame(stops: multiset<StopThread>, thread: StopThread, s: int)
    ensures StopThreads(stops + multiset{thread}, s) == StopThreads(stops, s) + One(thread.session == s)
  {
    if thread.at.Sending? {
      assert thread == StopThread(thread.session, Sending);
    } else {
      assert thread == StopThread(thread.session, Awaiting);
    }
  }

  /** What a thread's step puts in the queue. */
  function Emitted(a: Action): Option<Event> {
    match a
    case StopSend(s, ok) => if ok then None else Some(Failed(Some(s), StopLane))
    case StopReply(s, ok) => Some(if ok then Stopped(s) else Failed(Some(s), StopLane))
    case SimpleSend(s, _, ok) => if ok then None else Some(Failed(Some(s), SimpleLane))
    case SimpleReply(s, pause, ok) =>
      Some(if !ok then Failed(Some(s), SimpleLane) else if pause then Paused(s) else Resumed(s))
    case CapAnswered(s, extend, ok) =>
      if !extend then Some(StopForSafetyCap(s)) else if !ok then Some(Failed(Some(s), CapLane)) else None
    case _ => None
  }

  predicate ThreadStep(a: Action) { a.StopSend? || a.StopReply? || a.SimpleSend? || a.SimpleReply? || a.CapAnswered? }

  /** The stop lane's threads after one of its steps. */
  function StopsAfter(stops: multiset<StopThread>, a: Action): multiset<StopThread> {
    match a
    case StopSend(s, ok) =>
      if ok then stops - multiset{StopThread(s, Sending)} + multiset{StopThread(s, Awaiting)}
      else stops - multiset{StopThread(s, Sending)}
    case StopReply(s, _) => stops - multiset{StopThread(s, Awaiting)}
    case _ => stops
  }

  lemma StopStepIs(sys: System, a: Action)
    requires (a.StopSend? || a.StopReply?) && Next(sys, a) != sys
    ensures var next := Next(sys, a);
      && next.tray == sys.tray && next.sent == sys.sent && next.left == sys.left && next.nextId == sys.nextId
      && next.stops == StopsAfter(sys.stops, a)
      && next.events == (if Emitted(a).Some? then sys.events + multiset{Emitted(a).value} else sys.events)
      && (a.StopSend? ==> StopThread(a.session, Sending) in sys.stops)
      && (a.StopReply? ==> StopThread(a.session, Awaiting) in sys.stops)
  {
    hide Handle, StopWithReason, After;
  }

  lemma SimpleStepIs(sys: System, a: Action)
    requires (a.SimpleSend? || a.SimpleReply? || a.CapAnswered?) && Next(sys, a) != sys
    ensures var next := Next(sys, a);
      && next.tray == sys.tray && next.sent == sys.sent && next.left == sys.left && next.nextId == sys.nextId
      && next.stops == StopsAfter(sys.stops, a)
      && next.events == (if Emitted(a).Some? then sys.events + multiset{Emitted(a).value} else sys.events)
      && (a.StopSend? ==> StopThread(a.session, Sending) in sys.stops)
      && (a.StopReply? ==> StopThread(a.session, Awaiting) in sys.stops)
  {
    hide Handle, StopWithReason, After;
  }

  lemma ThreadStepIs(sys: System, a: Action)
    requires ThreadStep(a) && Next(sys, a) != sys
    ensures var next := Next(sys, a);
      && next.tray == sys.tray && next.sent == sys.sent && next.left == sys.left && next.nextId == sys.nextId
      && next.stops == StopsAfter(sys.stops, a)
      && next.events == (if Emitted(a).Some? then sys.events + multiset{Emitted(a).value} else sys.events)
      && (a.StopSend? ==> StopThread(a.session, Sending) in sys.stops)
      && (a.StopReply? ==> StopThread(a.session, Awaiting) in sys.stops)
  {
    hide Next, StopsAfter, Emitted;
    if a.StopSend? || a.StopReply? { StopStepIs(sys, a); } else { SimpleStepIs(sys, a); }
  }

  lemma StopsAfterCount(stops: multiset<StopThread>, a: Action, s: int)
    requires a.StopSend? ==> StopThread(a.session, Sending) in stops
    requires a.StopReply? ==> StopThread(a.session, Awaiting) in stops
    ensures StopThreads(StopsAfter(stops, a), s) + One(Emitted(a).Some? && IsStopToken(Emitted(a).value, s))
      == StopThreads(stops, s)
  {
    hide StopThreads;
    if a.StopSend? || a.StopReply? {
      var thread := StopThread(a.session, if a.StopSend? then Sending else Awaiting);
      ThreadGone(stops, thread, s);
      ThreadCame(stops - multiset{thread}, StopThread(a.session, Awaiting), s);
    }
  }

  lemma EventCounts(events: multiset<Event>, e: Event, s: int)
    ensures (events + multiset{e})[Stopped(s)] + (events + multiset{e})[Failed(Some(s), StopLane)]
      == events[Stopped(s)] + events[Failed(Some(s), StopLane)] + One(IsStopToken(e, s))
    ensures !e.Started? ==> forall b: bool :: (events + multiset{e})[Started(s, b)] == events[Started(s, b)]
  {}

  lemma ThreadStepSound(sys: System, a: Action, s: int)
    requires SessionOk(sys, s) && ThreadStep(a)
    ensures SessionOk(Next(sys, a), s)
  {
    hide SessionOk, StopThreads, Next, StopsAfter, ThreadStep, IsStopToken;
    var next := Next(sys, a);
    if next != sys {
      ThreadStepIs(sys, a);
      StopsAfterCount(sys.stops, a, s);
      if Emitted(a).Some? { EventCounts(sys.events, Emitted(a).value, s); }
      NotStarted(a);
      TokensMoved(sys, next, s);
    }
  }

  lemma NotStarted(a: Action)
    ensures Emitted(a).Some? ==> !Emitted(a).value.Started?
  {}

  lemma StartReplySound(sys: System, a: Action, s: int)
    requires SessionOk(sys, s) && a.StartReply?
    ensures SessionOk(Next(sys, a), s)
  {}

  /** Every step of every thread keeps the accounts. */
  lemma StepSound(sys: System, a: Action)
    requires Sound(sys)
    ensures Sound(Next(sys, a))
  {
    forall s: int ensures SessionOk(Next(sys, a), s) {
      assert SessionOk(sys, s);
      match a {
        case Pump(e, workerStarts) => if e in sys.events { PumpSound(sys, e, workerStarts, s); }
        case AskStop => AskStopSound(sys, s);
        case StopSend(_, _) => ThreadStepSound(sys, a, s);
        case StopReply(_, _) => ThreadStepSound(sys, a, s);
        case SimpleSend(_, _, _) => ThreadStepSound(sys, a, s);
        case SimpleReply(_, _, _) => ThreadStepSound(sys, a, s);
        case CapAnswered(_, _, _) => ThreadStepSound(sys, a, s);
        case StartReply(_, _) => StartReplySound(sys, a, s);
        case AskPause => AskSound(sys, a, s);
        case AskResume => AskSound(sys, a, s);
        case SetUserPaused(_) => AskSound(sys, a, s);
        case CapAsked(_) => AskSound(sys, a, s);
        case StartAsked => AskSound(sys, a, s);
      }
    }
    PendingIsActive(sys, a);
  }

  lemma AskSound(sys: System, a: Action, s: int)
    requires SessionOk(sys, s)
    requires a.AskPause? || a.AskResume? || a.SetUserPaused? || a.CapAsked? || a.StartAsked?
    ensures SessionOk(Next(sys, a), s)
  {}

  predicate Tidy(t: Tray) { t.stopPending.Some? ==> t.stopPending == t.active }

  lemma HandleTidy(t: Tray, e: Event, workerStarts: bool)
    requires Tidy(t)
    ensures Tidy(Handle(t, e, workerStarts).tray)
  {}

  lemma PendingIsActive(sys: System, a: Action)
    requires Tidy(sys.tray)
    ensures Tidy(Next(sys, a).tray)
  {
    hide StopThreads, Handle, Tidy;
    match a {
      case Pump(e, workerStarts) => HandleTidy(sys.tray, e, workerStarts);
      case AskStop => if sys.tray.active.Some? { StopTidy(sys.tray, sys.tray.active.value); }
      case SetUserPaused(on) => PauseTidy(sys.tray, on);
      case _ =>
    }
  }

  lemma StopTidy(t: Tray, s: int)
    requires Tidy(t)
    ensures Tidy(StopWithReason(t, s).tray)
  {}

  lemma PauseTidy(t: Tray, on: bool)
    requires Tidy(t)
    ensures Tidy(t.(userPaused := on))
  {}

  lemma {:induction false} RunSound(actions: seq<Action>)
    ensures Sound(Run(actions))
  {
    hide Next, Sound;
    if actions == [] {
      StartSound();
    } else {
      RunSound(actions[..|actions| - 1]);
      StepSound(Run(actions[..|actions| - 1]), actions[|actions| - 1]);
    }
  }

  lemma StartSound()
    ensures Sound(Run([]))
  {}

  // ------------------------------------------------------------ main results

  /** While a stop is pending for the active session, exactly one stop for it is
      being sent, awaiting its reply, or queued as its resolution; while none is
      pending, none has been spawned. No session is ever stopped twice. */
  lemma OneStopInFlight(actions: seq<Action>, s: int)
    ensures var sys := Run(actions);
      && (sys.tray.active == sys.tray.stopPending == Some(s) ==> StopTokens(sys, s) == 1 == sys.sent[s])
      && (sys.tray.active == Some(s) && sys.tray.stopPending.None? ==> StopTokens(sys, s) == 0 == sys.sent[s])
      && (sys.tray.stopPending.Some? ==> sys.tray.stopPending == sys.tray.active)
      && sys.sent[s] <= 1
  {
    hide Run, StopTokens, Places, Announced;
    RunSound(actions);
    assert SessionOk(Run(actions), s);
  }

  /** The two events that come out of a start flow and do not look at the active slot. */
  predicate FromStart(e: Event) { e.Started? || (e.Failed? && e.stamp.None?) }

  /** When a session leaves the active slot it has had its one stop, exactly unless
      a start flow's outcome arrives while it is active and not yet being stopped. */
  lemma LeavesStoppedIff(actions: seq<Action>, a: Action, s: int)
    requires Run(actions).tray.active == Some(s) && Next(Run(actions), a).tray.active != Some(s)
    ensures Next(Run(actions), a).sent[s] == 1
      <==> !(a.Pump? && FromStart(a.e) && Run(actions).tray.stopPending.None?)
  {
    RunSound(actions);
    hide Run;
    assert SessionOk(Run(actions), s);
    LeavingStop(Run(actions), a, s);
  }

  /** The active slot is emptied or refilled by the pump alone, on four kinds of event. */
  lemma OnlyPumpLeaves(sys: System, a: Action, s: int)
    requires sys.tray.active == Some(s) && Next(sys, a).tray.active != Some(s)
    ensures a.Pump? && a.e in sys.events
    ensures Next(sys, a) == After(Take(sys, a.e), Handle(sys.tray, a.e, a.workerStarts))
    ensures FromStart(a.e) || a.e == Stopped(s) || (a.e.Failed? && a.e.stamp == Some(s))
  {
    hide After, Handle;
    if a.Pump? && a.e in sys.events {
      LeavingEvents(sys, a.e, a.workerStarts, s);
    } else {
      OthersStayActive(sys, a);
    }
  }

  lemma LeavingEvents(sys: System, e: Event, workerStarts: bool, s: int)
    requires sys.tray.active == Some(s) && e in sys.events
    ensures After(Take(sys, e), Handle(sys.tray, e, workerStarts)).tray == Handle(sys.tray, e, workerStarts).tray
    ensures Handle(sys.tray, e, workerStarts).tray.active != Some(s) ==>
      FromStart(e) || e == Stopped(s) || (e.Failed? && e.stamp == Some(s))
  {}

  lemma OthersStayActive(sys: System, a: Action)
    requires !a.Pump? || a.e !in sys.events
    ensures Next(sys, a).tray.active == sys.tray.active
  {}

  lemma LeavingStops(t: Tray, e: Event, workerStarts: bool, s: int)
    requires t.active == Some(s) && Tidy(t)
    ensures FromStart(e) && !(e.Started? && e.session == s) ==> Handle(t, e, workerStarts).stops != [s]
    ensures e == Stopped(s) ==> Handle(t, e, workerStarts).stops == []
    ensures e.Failed? && e.stamp == Some(s) ==> Handle(t, e, workerStarts).stops == if t.stopPending.None? then [s] else []
  {}

  lemma LeavingStop(sys: System, a: Action, s: int)
    requires Sound(sys) && SessionOk(sys, s) && sys.tray.active == Some(s) && Next(sys, a).tray.active != Some(s)
    ensures a.Pump?
    ensures Next(sys, a).sent[s] == if FromStart(a.e) && sys.tray.stopPending.None? then 0 else 1
  {
    hide Next, Handle, After, StopTokens, Sound, Places;
    OnlyPumpLeaves(sys, a, s);
    var h := Handle(sys.tray, a.e, a.workerStarts);
    HandleStops(sys.tray, a.e, a.workerStarts);
    AfterAccounts(Take(sys, a.e), h, s);
    SoundTidy(sys);
    LeavingStops(sys.tray, a.e, a.workerStarts, s);
    StoppedHasToken(sys, a.e, s);
  }

  lemma SoundTidy(sys: System)
    requires Sound(sys)
    ensures Tidy(sys.tray)
  {}

  lemma StoppedHasToken(sys: System, e: Event, s: int)
    ensures e in sys.events && e == Stopped(s) ==> StopTokens(sys, s) >= 1
  {}

  /** The pump takes up a start flow's outcome while a session is active and not yet
      being stopped. */
  predicate Strands(sys: System, a: Action) {
    a.Pump? && FromStart(a.e) && a.e in sys.events && sys.tray.active.Some? && sys.tray.stopPending.None?
  }

  predicate Disciplined(actions: seq<Action>) {
    actions == [] || (Disciplined(actions[..|actions| - 1]) && !Strands(Run(actions[..|actions| - 1]), actions[|actions| - 1]))
  }

  lemma LeftGrows(sys: System, a: Action, s: int)
    ensures Next(sys, a).left[s] == sys.left[s] + One(sys.tray.active == Some(s) && Next(sys, a).tray.active != Some(s))
    ensures Next(sys, a).sent[s] >= sys.sent[s]
  {
    hide Handle, StopTokens;
    if a.Pump? && a.e in sys.events {
      var h := Handle(sys.tray, a.e, a.workerStarts);
      HandleStops(sys.tray, a.e, a.workerStarts);
      AfterAccounts(Take(sys, a.e), h, s);
    } else if a.AskStop? && sys.tray.active.Some? {
      AfterAccounts(sys, StopWithReason(sys.tray, sys.tray.active.value), s);
    } else {
      StaysPut(sys, a);
    }
  }

  lemma StaysPut(sys: System, a: Action)
    requires !(a.Pump? && a.e in sys.events) && !(a.AskStop? && sys.tray.active.Some?)
    ensures Next(sys, a).left == sys.left && Next(sys, a).sent == sys.sent && Next(sys, a).tray.active == sys.tray.active
  {}

  /** In a disciplined run every session that has left the active slot left it
      once and had exactly one stop spawned for it. */
  lemma {:induction false} EverySessionIsStoppedOnce(actions: seq<Action>, s: int)
    requires Disciplined(actions)
    ensures Run(actions).left[s] > 0 ==> Run(actions).left[s] == 1 == Run(actions).sent[s]
  {
    hide Next, StopTokens, Places;
    if actions != [] {
      var before, a := actions[..|actions| - 1], actions[|actions| - 1];
      EverySessionIsStoppedOnce(before, s);
      var sys := Run(before);
      LeftGrows(sys, a, s);
      OneStopInFlight(actions, s);
      RunSound(actions);
      AtMostOnce(Run(actions), s);
      if sys.tray.active == Some(s) && Next(sys, a).tray.active != Some(s) {
        RunSound(before);
        OnlyPumpLeaves(sys, a, s);
        LeavesStoppedIff(before, a, s);
      }
    }
  }

  lemma AtMostOnce(sys: System, s: int)
    requires Sound(sys)
    ensures sys.left[s] <= 1
  {
    assert SessionOk(sys, s);
  }

  /** A step that strands takes the active session out of its slot. */
  lemma StrandsLeaves(sys: System, a: Action)
    requires Sound(sys) && Strands(sys, a)
    ensures Next(sys, a).tray.active != sys.tray.active
  {
    hide After, StopTokens;
    var s := sys.tray.active.value;
    assert SessionOk(sys, s);
    if a.e.Started? { assert a.e == Started(a.e.session, true) || a.e == Started(a.e.session, false); }
    HandledTray(sys, a);
  }

  lemma HandledTray(sys: System, a: Action)
    requires a.Pump? && a.e in sys.events
    ensures Next(sys, a).tray == Handle(sys.tray, a.e, a.workerStarts).tray
  {}

  /** A session that has left is never stopped afterwards. */
  lemma LeftIsLeft(sys: System, a: Action, s: int)
    requires Sound(sys) && sys.left[s] > 0
    ensures Next(sys, a).sent[s] == sys.sent[s]
  {
    NowhereElse(sys, s);
    if a.Pump? && a.e in sys.events {
      LeftIsNotStopped(sys, a.e, a.workerStarts, s);
    } else if a.AskStop? && sys.tray.active.Some? {
      AskStopsActive(sys, s);
    } else {
      StaysPut(sys, a);
    }
    hide *;
  }

  /** A session that has left is neither active nor announced. */
  lemma NowhereElse(sys: System, s: int)
    requires Sound(sys) && sys.left[s] > 0
    ensures sys.tray.active != Some(s) && Started(s, true) !in sys.events && Started(s, false) !in sys.events
  {
    hide StopTokens;
    assert SessionOk(sys, s);
  }

  lemma LeftIsNotStopped(sys: System, e: Event, workerStarts: bool, s: int)
    requires e in sys.events && sys.tray.active != Some(s) && Started(s, true) !in sys.events && Started(s, false) !in sys.events
    ensures Next(sys, Pump(e, workerStarts)).sent[s] == sys.sent[s]
  {
    var h := Handle(sys.tray, e, workerStarts);
    HandleStops(sys.tray, e, workerStarts);
    AfterAccounts(Take(sys, e), h, s);
    StartedIs(e);
    hide Handle, After, StopTokens, Announced;
  }

  lemma StartedIs(e: Event)
    ensures e.Started? ==> e == Started(e.session, true) || e == Started(e.session, false)
  {}

  lemma AskStopsActive(sys: System, s: int)
    requires sys.tray.active.Some? && sys.tray.active != Some(s)
    ensures Next(sys, AskStop).sent[s] == sys.sent[s]
  {
    AfterAccounts(sys, StopWithReason(sys.tray, sys.tray.active.value), s);
    hide After, StopTokens, Announced;
  }

  /** Once a run has stranded a session, that session stays without a stop. */
  lemma {:induction false} SomeSessionIsStranded(actions: seq<Action>) returns (s: int)
    requires !Disciplined(actions)
    ensures Run(actions).left[s] > 0 && Run(actions).sent[s] == 0
  {
    hide Next, StopTokens, Places, Strands;
    var before, a := actions[..|actions| - 1], actions[|actions| - 1];
    var sys := Run(before);
    RunSound(before);
    if Strands(sys, a) {
      s := ActiveOf(sys, a);
      StrandsLeaves(sys, a);
      LeftGrows(sys, a, s);
      assert SessionOk(sys, s);
      LeavingStop(sys, a, s);
      StrandsFromStart(sys, a);
    } else {
      s := SomeSessionIsStranded(before);
      LeftGrows(sys, a, s);
      LeftIsLeft(sys, a, s);
    }
  }

  lemma ActiveOf(sys: System, a: Action) returns (s: int)
    requires Strands(sys, a)
    ensures sys.tray.active == Some(s)
  {
    s := sys.tray.active.value;
  }

  lemma StrandsFromStart(sys: System, a: Action)
    requires Strands(sys, a)
    ensures a.Pump? && FromStart(a.e) && sys.tray.stopPending.None?
  {}

  /** In a run every session that has left the active slot had exactly one stop
      spawned for it, and left once, exactly when the run is disciplined. */
  lemma StoppedOnceIffDisciplined(actions: seq<Action>)
    ensures Disciplined(actions) <==> forall s: int :: Run(actions).left[s] > 0 ==> Run(actions).left[s] == 1 == Run(actions).sent[s]
  {
    hide Run, Disciplined;
    if Disciplined(actions) {
      forall s: int ensures Run(actions).left[s] > 0 ==> Run(actions).left[s] == 1 == Run(actions).sent[s] {
        EverySessionIsStoppedOnce(actions, s);
      }
    } else {
      var s := SomeSessionIsStranded(actions);
    }
  }

  /** Events stamped with sessions that are not the active one. */
  predicate Stale(t: Tray, e: Event) {
    match e
    case Started(_, _) => false
    case StopForSafetyCap(s) => t.active != Some(s)
    case Stopped(s) => t.active != Some(s)
    case Paused(s) => t.active != Some(s)
    case Resumed(s) => t.active != Some(s)
    case Failed(stamp, _) => stamp.Some? && t.active != stamp
  }

  /** A confirmation of a pause or resume that comes while its session is being stopped. */
  predicate Overtaken(t: Tray, e: Event) { t.stopPending.Some? && t.stopPending == t.active && (e.Paused? || e.Resumed?) }

  function Fresh(t: Tray, queue: seq<Event>, workerStarts: bool): seq<Event> {
    if queue == [] then [] else
      var before, e := queue[..|queue| - 1], queue[|queue| - 1];
      var now := HandleAll(t, before, workerStarts).tray;
      Fresh(t, before, workerStarts) + if Stale(now, e) || Overtaken(now, e) then [] else [e]
  }

  lemma HandleAllStep(t: Tray, queue: seq<Event>, e: Event, workerStarts: bool)
    ensures var h := HandleAll(t, queue, workerStarts);
      HandleAll(t, queue + [e], workerStarts) == Handled(Handle(h.tray, e, workerStarts).tray, h.stops + Handle(h.tray, e, workerStarts).stops)
  {
    assert (queue + [e])[..|queue|] == queue;
  }

  lemma Unmoved(t: Tray, e: Event, workerStarts: bool)
    requires Stale(t, e) || Overtaken(t, e)
    ensures Handle(t, e, workerStarts) == Quiet(t)
  {}

  /** Handling a queue is handling what is left of it when every stale or overtaken
      event is struck out: such events change nothing and stop nothing. */
  lemma {:induction false} StaleEventsChangeNothing(t: Tray, queue: seq<Event>, workerStarts: bool)
    ensures HandleAll(t, queue, workerStarts) == HandleAll(t, Fresh(t, queue, workerStarts), workerStarts)
  {
    if queue != [] {
      var before, e := queue[..|queue| - 1], queue[|queue| - 1];
      StaleEventsChangeNothing(t, before, workerStarts);
      var h := HandleAll(t, before, workerStarts);
      HandleAllStep(t, Fresh(t, before, workerStarts), e, workerStarts);
      HandleAllStep(t, before, e, workerStarts);
      assert before + [e] == queue;
      if Stale(h.tray, e) || Overtaken(h.tray, e) {
        Unmoved(h.tray, e, workerStarts);
        assert Fresh(t, queue, workerStarts) == Fresh(t, before, workerStarts) && h.stops + [] == h.stops;
      }
    }
  }

  /** While the user has paused, no run of record events opens the gate. */
  lemma {:induction false} UserPauseHoldsGate(t: Tray, queue: seq<Event>, workerStarts: bool)
    requires t.userPaused && t.suspended
    ensures HandleAll(t, queue, workerStarts).tray.suspended && HandleAll(t, queue, workerStarts).tray.userPaused
  {
    if queue != [] { UserPauseHoldsGate(t, queue[..|queue| - 1], workerStarts); }
  }

  // ------------------------------------------------- an undisciplined run

  lemma RunStep(actions: seq<Action>, a: Action)
    ensures Run(actions + [a]) == Next(Run(actions), a)
  {
    assert (actions + [a])[..|actions|] == actions;
  }

  /** A second start flow begins before the pump has taken up the first one's
      session; the writer refuses it once that session is running. */
  const LATE_START: seq<Action> := [
    StartAsked, StartReply(true, true), StartAsked, Pump(Started(0, true), true),
    StartReply(false, false), Pump(Failed(None, StartLane), true)]

  lemma SixSteps(o: seq<Action>)
    requires |o| == 6
    ensures Run(o) == Next(Next(Next(Next(Next(Next(START, o[0]), o[1]), o[2]), o[3]), o[4]), o[5])
  {
    hide Next;
    assert [] + [o[0]] == o[..1] && o[..1] + [o[1]] == o[..2] && o[..2] + [o[2]] == o[..3];
    assert o[..3] + [o[3]] == o[..4] && o[..4] + [o[4]] == o[..5] && o[..5] + [o[5]] == o;
    RunStep([], o[0]);
    RunStep(o[..1], o[1]);
    RunStep(o[..2], o[2]);
    RunStep(o[..3], o[3]);
    RunStep(o[..4], o[4]);
    RunStep(o[..5], o[5]);
  }

  const IDLE := Tray(None, None, false, false, false, false)
  const RECORDING := Tray(Some(0), None, false, true, false, false)

  function InFlight(t: Tray, events: multiset<Event>, starts: nat, nextId: int): System {
    System(t, events, multiset{}, multiset{}, multiset{}, starts, nextId, multiset{}, multiset{})
  }

  lemma LateStartAnnounced()
    ensures Next(Next(Next(START, StartAsked), StartReply(true, true)), StartAsked)
      == InFlight(IDLE, multiset{Started(0, true)}, 1, 1)
  {
    var s1 := Next(START, StartAsked);
    assert s1 == InFlight(IDLE, multiset{}, 1, 0);
    assert Next(s1, StartReply(true, true)).events == multiset{Started(0, true)};
  }

  lemma LateStartRuns(sys: System)
    requires sys == InFlight(IDLE, multiset{Started(0, true)}, 1, 1)
    ensures Next(sys, Pump(Started(0, true), true)) == InFlight(RECORDING, multiset{}, 1, 1)
  {
    var h := Handle(IDLE, Started(0, true), true);
    assert h == Quiet(RECORDING);
    assert sys.events - multiset{Started(0, true)} == multiset{};
    assert multiset{} + multiset(h.stops) == multiset{};
  }

  lemma LateStartRefused(sys: System)
    requires sys == InFlight(RECORDING, multiset{}, 1, 1)
    ensures Next(sys, StartReply(false, false)) == InFlight(RECORDING, multiset{Failed(None, StartLane)}, 0, 1)
  {
    assert multiset{} + multiset{Failed(None, StartLane)} == multiset{Failed(None, StartLane)};
  }

  lemma LateStartClears(sys: System)
    requires sys == InFlight(RECORDING, multiset{Failed(None, StartLane)}, 0, 1)
    ensures var end := Next(sys, Pump(Failed(None, StartLane), true));
      end.left[0] == 1 && end.sent[0] == 0 && end.tray.active == None
  {
    var h := Handle(RECORDING, Failed(None, StartLane), true);
    assert h.stops == [] && h.tray.active == None;
  }

  /** The refused start clears the running session and nobody stops it. */
  lemma LateStartStrandsSession()
    ensures Run(LATE_START).left[0] == 1 && Run(LATE_START).sent[0] == 0 && Run(LATE_START).tray.active == None
  {
    hide Run, Next, InFlight;
    SixSteps(LATE_START);
    LateStartAnnounced();
    LateStartRuns(InFlight(IDLE, multiset{Started(0, true)}, 1, 1));
    LateStartRefused(InFlight(RECORDING, multiset{}, 1, 1));
    LateStartClears(InFlight(RECORDING, multiset{Failed(None, StartLane)}, 0, 1));
  }
}
