/** Each thread of the record lanes taken to its end: what it leaves behind when it
    succeeds, what it reports when it fails, and when it may not begin. */
module RecordThreads {

  import opened RecordLanes
  import opened Wrappers

  // ------------------------------------------------------- the pause lane

  /** A pause or resume may be asked of an active session that is not being stopped and
      is not already so, while no other is under way. */
  predicate MayAsk(sys: System, pause: bool) {
    && sys.tray.active.Some? && sys.tray.stopPending != sys.tray.active && sys.tray.paused == !pause
    && sys.simples == multiset{}
  }

  function Ask(pause: bool): Action { if pause then AskPause else AskResume }

  function Confirmation(s: int, pause: bool): Event { if pause then Paused(s) else Resumed(s) }

  lemma Asked(sys: System, pause: bool)
    ensures Next(sys, Ask(pause)) ==
      if MayAsk(sys, pause) then sys.(simples := multiset{SimpleThread(sys.tray.active.value, pause, Sending)}) else sys
  {
    assert multiset{} + multiset{SimpleThread(if sys.tray.active.Some? then sys.tray.active.value else 0, pause, Sending)}
        == multiset{SimpleThread(if sys.tray.active.Some? then sys.tray.active.value else 0, pause, Sending)};
  }

  lemma Sent(sys: System, s: int, pause: bool, ok: bool)
    requires sys.simples == multiset{SimpleThread(s, pause, Sending)}
    ensures Next(sys, SimpleSend(s, pause, ok)) ==
      if ok then sys.(simples := multiset{SimpleThread(s, pause, Awaiting)})
      else sys.(simples := multiset{}, events := sys.events + multiset{Failed(Some(s), SimpleLane)})
  {
    assert sys.simples - multiset{SimpleThread(s, pause, Sending)} == multiset{};
    assert multiset{} + multiset{SimpleThread(s, pause, Awaiting)} == multiset{SimpleThread(s, pause, Awaiting)};
  }

  lemma Replied(sys: System, s: int, pause: bool, ok: bool)
    requires sys.simples == multiset{SimpleThread(s, pause, Awaiting)}
    ensures Next(sys, SimpleReply(s, pause, ok)) ==
      sys.(simples := multiset{},
           events := sys.events + multiset{if ok then Confirmation(s, pause) else Failed(Some(s), SimpleLane)})
  {
    assert sys.simples - multiset{SimpleThread(s, pause, Awaiting)} == multiset{};
  }

  lemma Settled(sys: System, s: int, pause: bool, workerStarts: bool)
    requires sys.tray.active == Some(s) && sys.tray.stopPending != Some(s)
    ensures Next(sys.(events := sys.events + multiset{Confirmation(s, pause)}), Pump(Confirmation(s, pause), workerStarts))
      == sys.(tray := sys.tray.(paused := pause))
  {
    var e, t := Confirmation(s, pause), sys.tray.(paused := pause);
    InAndOut(sys.events, e);
    assert Handle(sys.tray, e, workerStarts) == Handled(t, []);
    hide Handle, Confirmation;
    QuietAfter(sys, t);
  }

  lemma InAndOut<T>(m: multiset<T>, x: T)
    ensures x in m + multiset{x} && m + multiset{x} - multiset{x} == m
  {}

  lemma QuietAfter(sys: System, t: Tray)
    requires t.active == sys.tray.active
    ensures After(sys, Handled(t, [])) == sys.(tray := t)
  {
    assert sys.sent + multiset([]) == sys.sent;
  }

  /** Asked when it may be, sent, confirmed and handled, a pause or resume sets the flag
      and leaves everything else as it was; one that cannot be sent, or is refused, is
      reported as a failure of its session instead. Asked at any other time it does nothing. */
  lemma PauseRunsThrough(sys: System, pause: bool, sent: bool, ok: bool, workerStarts: bool)
    ensures MayAsk(sys, pause) ==>
      var s := sys.tray.active.value;
      var trying := Next(Next(sys, Ask(pause)), SimpleSend(s, pause, sent));
      var done := if sent then Next(trying, SimpleReply(s, pause, ok)) else trying;
      && (sent && ok ==> Next(done, Pump(Confirmation(s, pause), workerStarts)) == sys.(tray := sys.tray.(paused := pause)))
      && (!sent || !ok ==> done == sys.(events := sys.events + multiset{Failed(Some(s), SimpleLane)}))
    ensures !MayAsk(sys, pause) ==> Next(sys, Ask(pause)) == sys
  {
    Asked(sys, pause);
    hide Next, Confirmation;
    if MayAsk(sys, pause) {
      var s := sys.tray.active.value;
      Sent(sys.(simples := multiset{SimpleThread(s, pause, Sending)}), s, pause, sent);
      Replied(sys.(simples := multiset{SimpleThread(s, pause, Awaiting)}), s, pause, ok);
      Settled(sys, s, pause, workerStarts);
    }
  }

  // -------------------------------------------------------- the stop lane

  lemma StopAsked(sys: System)
    ensures var t := sys.tray;
      Next(sys, AskStop) ==
        if t.active.None? || t.stopPending == t.active then sys
        else sys.(tray := t.(stopPending := t.active), stops := sys.stops + multiset{StopThread(t.active.value, Sending)},
                  sent := sys.sent + multiset{t.active.value})
  {
    assert sys.sent + multiset([]) == sys.sent;
    if sys.tray.active.Some? { assert multiset([sys.tray.active.value]) == multiset{sys.tray.active.value}; }
  }

  lemma StopSpawned(sys: System, s: int, sent: bool, ok: bool)
    requires sys.stops[StopThread(s, Sending)] == 0 && sys.stops[StopThread(s, Awaiting)] == 0
    ensures var spawned := sys.(stops := sys.stops + multiset{StopThread(s, Sending)});
      var trying := Next(spawned, StopSend(s, sent));
      (if sent then Next(trying, StopReply(s, ok)) else trying)
      == sys.(events := sys.events + multiset{if sent && ok then Stopped(s) else Failed(Some(s), StopLane)})
  {
    var sending, awaiting := StopThread(s, Sending), StopThread(s, Awaiting);
    InAndOut(sys.stops, sending);
    InAndOut(sys.stops, awaiting);
  }

  /** A stop asked for an active session not already being stopped is noted, spawned once,
      and reports the session stopped, or its failure; with no such session asking does
      nothing. */
  lemma StopRunsThrough(sys: System, sent: bool, ok: bool)
    ensures var t := sys.tray;
      t.active.Some? && t.stopPending != t.active && StopThreads(sys.stops, t.active.value) == 0 ==>
        var s := t.active.value;
        var trying := Next(Next(sys, AskStop), StopSend(s, sent));
        (if sent then Next(trying, StopReply(s, ok)) else trying)
        == sys.(tray := t.(stopPending := Some(s)), sent := sys.sent + multiset{s},
                events := sys.events + multiset{if sent && ok then Stopped(s) else Failed(Some(s), StopLane)})
    ensures sys.tray.active.None? || sys.tray.stopPending == sys.tray.active ==> Next(sys, AskStop) == sys
  {
    StopAsked(sys);
    hide Next;
    var t := sys.tray;
    if t.active.Some? && t.stopPending != t.active && StopThreads(sys.stops, t.active.value) == 0 {
      var s := t.active.value;
      StopSpawned(sys.(tray := t.(stopPending := Some(s)), sent := sys.sent + multiset{s}), s, sent, ok);
    }
  }

  // -------------------------------------------- the cap prompt and the start

  /** A prompt for a session that exists is answered once: an extension that reaches the
      writer changes nothing, one that does not is a failure, and anything else a stop. */
  lemma CapRunsThrough(sys: System, s: int, extend: bool, ok: bool)
    ensures s < sys.nextId ==>
      Next(Next(sys, CapAsked(s)), CapAnswered(s, extend, ok)) ==
        if extend && ok then sys
        else sys.(events := sys.events + multiset{if extend then Failed(Some(s), CapLane) else StopForSafetyCap(s)})
    ensures s >= sys.nextId ==> Next(sys, CapAsked(s)) == sys
    ensures s !in sys.caps ==> Next(sys, CapAnswered(s, extend, ok)) == sys
  {
    CapAnswers(sys, s, extend, ok);
    hide Emit;
  }

  lemma CapAnswers(sys: System, s: int, extend: bool, ok: bool)
    ensures Next(sys.(caps := sys.caps + multiset{s}), CapAnswered(s, extend, ok)) ==
      if extend && ok then sys
      else sys.(events := sys.events + multiset{if extend then Failed(Some(s), CapLane) else StopForSafetyCap(s)})
  {
    InAndOut(sys.caps, s);
  }

  /** A start that is asked for announces the next session, or fails without one; there
      is no answer to a start nobody asked for. */
  lemma StartRunsThrough(sys: System, ok: bool, suspended: bool)
    ensures Next(Next(sys, StartAsked), StartReply(ok, suspended)) ==
      if ok then sys.(nextId := sys.nextId + 1, events := sys.events + multiset{Started(sys.nextId, suspended)})
      else sys.(events := sys.events + multiset{Failed(None, StartLane)})
    ensures sys.starts == 0 ==> Next(sys, StartReply(ok, suspended)) == sys
  {}

  // ------------------------------------------------------ steps of nobody

  /** A thread that is not there takes no step, and an event that is not queued is not
      handled. */
  lemma NobodySteps(sys: System, s: int, pause: bool, ok: bool, e: Event)
    ensures StopThread(s, Sending) !in sys.stops ==> Next(sys, StopSend(s, ok)) == sys
    ensures StopThread(s, Awaiting) !in sys.stops ==> Next(sys, StopReply(s, ok)) == sys
    ensures SimpleThread(s, pause, Sending) !in sys.simples ==> Next(sys, SimpleSend(s, pause, ok)) == sys
    ensures SimpleThread(s, pause, Awaiting) !in sys.simples ==> Next(sys, SimpleReply(s, pause, ok)) == sys
    ensures e !in sys.events ==> Next(sys, Pump(e, ok)) == sys
  {}

  /** The user's pause sets its flag, and lifting it again leaves everything as it was. */
  lemma UserPauseOnlyFlips(sys: System, on: bool)
    ensures Next(sys, SetUserPaused(on)).tray.userPaused == on
    ensures Next(Next(sys, SetUserPaused(on)), SetUserPaused(sys.tray.userPaused)) == sys
  {}

  /** Over every run at most one pause or resume is under way. */
  lemma {:induction false} OnePauseAtATime(actions: seq<Action>)
    ensures |Run(actions).simples| <= 1
  {
    if actions != [] {
      OnePauseAtATime(actions[..|actions| - 1]);
      PausesStep(Run(actions[..|actions| - 1]), actions[|actions| - 1]);
    }
  }

  lemma PausesStep(sys: System, a: Action)
    requires |sys.simples| <= 1
    ensures |Next(sys, a).simples| <= 1
  {
    hide Handle;
    if a.SimpleSend? && SimpleThread(a.session, a.pause, Sending) in sys.simples {
      assert |sys.simples - multiset{SimpleThread(a.session, a.pause, Sending)}| == |sys.simples| - 1;
    }
  }
}
