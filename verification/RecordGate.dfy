/** What each record event does to the tray, field by field, and how a whole recording
    gives the capture gate back. */
module RecordGate {

  import opened RecordLanes
  import opened Wrappers

  /** The event ends the active recording, or is a start flow's failure, which ends
      whatever there is. */
  predicate Ends(t: Tray, e: Event) {
    || (e.Stopped? && t.active == Some(e.session))
    || (e.Failed? && (e.stamp.None? || e.stamp == t.active))
  }

  /** The event confirms a pause or a resume of the active recording in time. */
  predicate Confirms(t: Tray, e: Event) {
    (e.Paused? || e.Resumed?) && t.active == Some(e.session) && t.stopPending != Some(e.session)
  }

  /** The event asks for a stop of a session that is active once it is handled and not
      already being stopped. */
  predicate AsksStop(t: Tray, e: Event, workerStarts: bool, session: int) {
    || (e.Started? && e.session == session && (t.userPaused || !workerStarts))
    || ((e == StopForSafetyCap(session) || (e.Failed? && e.stamp == Some(session)))
        && t.active == Some(session) && t.stopPending != Some(session))
  }

  /** When a recording ends the gate is as it was without the recording's own hold, or
      closed if it was and the user has paused; the hold is given back. Nothing else
      moves the gate. */
  lemma GateAfter(t: Tray, e: Event, workerStarts: bool)
    ensures var r := Handle(t, e, workerStarts).tray;
      && (t.active.Some? && r.active.None? <==> t.active.Some? && Ends(t, e))
      && (Ends(t, e) ==> !r.baselineOwned && (r.suspended <==> t.suspended && (t.userPaused || !t.baselineOwned)))
      && (!Ends(t, e) ==> r.suspended == t.suspended)
      && r.userPaused == t.userPaused
  {}

  /** What becomes of every other field. */
  lemma FieldsAfter(t: Tray, e: Event, workerStarts: bool)
    ensures var h := Handle(t, e, workerStarts); var r := h.tray;
      && (Ends(t, e) ==> r.active.None? && r.stopPending.None? && !r.paused)
      && (e.Started? ==> r.active == Some(e.session) && !r.paused && r.baselineOwned == e.baselineSuspended)
      && (!Ends(t, e) && !e.Started? ==>
            r.active == t.active && r.baselineOwned == t.baselineOwned && r.paused == if Confirms(t, e) then e.Paused? else t.paused)
      && (!Ends(t, e) ==>
            r.stopPending == if h.stops != [] then Some(h.stops[0]) else if e.Started? then None else t.stopPending)
  {}

  /** A stop is spawned exactly for the session an event asks to stop. */
  lemma StopsSpawned(t: Tray, e: Event, workerStarts: bool, session: int)
    ensures Handle(t, e, workerStarts).stops == [session] <==> AsksStop(t, e, workerStarts, session)
    ensures |Handle(t, e, workerStarts).stops| <= 1
  {}

  predicate NoStarts(queue: seq<Event>) { forall k :: 0 <= k < |queue| ==> !queue[k].Started? }

  /** What is closed for another reason than the recording. */
  predicate ClosedAnyway(t: Tray) { t.suspended && !t.baselineOwned }

  /** With no user pause, a queue without a start keeps whatever else closes the gate;
      while the recording stays nothing moves, and once it has ended its hold is gone. */
  lemma {:induction false} QueueGivesGateBack(t: Tray, queue: seq<Event>, workerStarts: bool)
    requires !t.userPaused && NoStarts(queue) && (t.baselineOwned ==> t.suspended)
    ensures var r := HandleAll(t, queue, workerStarts).tray;
      && !r.userPaused && (r.baselineOwned ==> r.suspended)
      && ClosedAnyway(r) == ClosedAnyway(t)
      && (t.active.Some? && r.active.Some? ==> r.suspended == t.suspended && r.active == t.active && r.baselineOwned == t.baselineOwned)
      && (t.active.Some? && r.active.None? ==> !r.baselineOwned && (r.suspended <==> t.suspended && !t.baselineOwned))
      && (t.active.None? ==> r.active.None?)
  {
    hide Handle;
    if queue != [] {
      var before, e := queue[..|queue| - 1], queue[|queue| - 1];
      QueueGivesGateBack(t, before, workerStarts);
      GateAfter(HandleAll(t, before, workerStarts).tray, e, workerStarts);
      FieldsAfter(HandleAll(t, before, workerStarts).tray, e, workerStarts);
    }
  }

  /** `suspend_baseline_capture_for_recording`: close the gate, and say whether it was
      this that closed it. */
  method SuspendBaseline(suspended: bool) returns (after: bool, owned: bool)
    ensures after && owned == !suspended
  {
    if suspended { return true, false; }
    return true, true;
  }

  /** From the start flow's closing of the gate to the end of the recording, whatever
      events come between, an unpaused user gets the gate back as the recording found it. */
  lemma RecordingLeavesGateAsFound(t: Tray, session: int, queue: seq<Event>, workerStarts: bool)
    requires t.active.None? && !t.userPaused && NoStarts(queue)
    ensures var started := t.(suspended := true);
      var r := HandleAll(started, [Started(session, !t.suspended)] + queue, workerStarts).tray;
      && (r.active.None? ==> r.suspended == t.suspended && !r.baselineOwned)
      && (r.active.Some? ==> r.active == Some(session) && r.suspended)
  {
    var started, e := t.(suspended := true), Started(session, !t.suspended);
    var on := Handle(started, e, workerStarts).tray;
    FieldsAfter(started, e, workerStarts);
    GateAfter(started, e, workerStarts);
    HandleJoin(started, [e], queue, workerStarts);
    HandleOne(started, e, workerStarts);
    hide Handle, HandleAll;
    QueueGivesGateBack(on, queue, workerStarts);
  }

  lemma HandleOne(t: Tray, e: Event, workerStarts: bool)
    ensures HandleAll(t, [e], workerStarts).tray == Handle(t, e, workerStarts).tray
  {
    assert [e][..0] == [];
  }

  lemma {:induction false} HandleJoin(t: Tray, a: seq<Event>, b: seq<Event>, workerStarts: bool)
    ensures HandleAll(t, a + b, workerStarts).tray == HandleAll(HandleAll(t, a, workerStarts).tray, b, workerStarts).tray
  {
    hide Handle;
    if b == [] {
      assert a + b == a;
    } else {
      HandleJoin(t, a, b[..|b| - 1], workerStarts);
      assert (a + b)[..|a + b| - 1] == a + b[..|b| - 1];
    }
  }
}
