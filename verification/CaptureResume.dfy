/** The resume handshake and the forwarder loops of `main.rs`, and the packed
    transition word of `gilbreth-core` that the handshake checks. */
module CaptureResume {

  import opened Wrappers

  // -------------------------------------------------- the transition word

  const STEP := 0x1_0000_0000

  datatype Transition = Begin | End

  /** The word after these transitions have begun and ended, as the counters do it. */
  function Word(events: seq<Transition>): int {
    if events == [] then 0 else
      Word(events[..|events| - 1]) + if events[|events| - 1].Begin? then STEP + 1 else -1
  }

  function Begun(events: seq<Transition>): nat {
    if events == [] then 0 else Begun(events[..|events| - 1]) + if events[|events| - 1].Begin? then 1 else 0
  }

  function Ended(events: seq<Transition>): nat {
    if events == [] then 0 else Ended(events[..|events| - 1]) + if events[|events| - 1].End? then 1 else 0
  }

  function Generation(word: int): int { word / STEP }

  predicate Active(word: int) { word % STEP != 0 }

  /** Transitions end only after they begin, and the counters never overflow. */
  predicate Proper(events: seq<Transition>) {
    && (forall k :: 0 <= k <= |events| ==> Ended(events[..k]) <= Begun(events[..k]))
    && Begun(events) < STEP
  }

  lemma {:induction false} WordCounts(events: seq<Transition>)
    ensures Word(events) == Begun(events) * STEP + (Begun(events) - Ended(events))
  {
    if events != [] { WordCounts(events[..|events| - 1]); }
  }

  /** The upper half counts the transitions begun, the lower half those still open. */
  lemma WordReads(events: seq<Transition>)
    requires Proper(events)
    ensures Generation(Word(events)) == Begun(events)
    ensures Active(Word(events)) <==> Ended(events) < Begun(events)
  {
    WordCounts(events);
    assert events[..|events|] == events;
    Unpack(Begun(events), Begun(events) - Ended(events));
  }

  lemma Unpack(high: nat, low: nat)
    requires low < STEP
    ensures (high * STEP + low) / STEP == high && (high * STEP + low) % STEP == low
  {}

  lemma {:induction false} BegunAppend(a: seq<Transition>, b: seq<Transition>)
    ensures Begun(a + b) == Begun(a) + Begun(b) && Ended(a + b) == Ended(a) + Ended(b)
  {
    hide Begun, Ended;
    if b == [] {
      assert a + b == a;
      NothingBegun();
    } else {
      var n := |b| - 1;
      BegunAppend(a, b[..n]);
      BegunStep(b[..n], b[n]);
      BegunStep(a + b[..n], b[n]);
      assert b[..n] + [b[n]] == b && a + b[..n] + [b[n]] == a + b;
    }
  }

  lemma NothingBegun()
    ensures Begun([]) == 0 && Ended([]) == 0
  {}

  lemma BegunStep(a: seq<Transition>, e: Transition)
    ensures Begun(a + [e]) == Begun(a) + (if e.Begin? then 1 else 0)
    ensures Ended(a + [e]) == Ended(a) + (if e.End? then 1 else 0)
  {
    assert (a + [e])[..|a|] == a;
  }

  /** The handshake's check, which loads the word twice: nothing is open at the first
      load and the generation acknowledged before the drain still stands at the second,
      exactly when no transition has begun from the acknowledgement to the second load
      and every earlier one had ended by the first. */
  lemma CheckMeansQuiet(before: seq<Transition>, drain: seq<Transition>, check: seq<Transition>)
    requires Proper(before + drain + check)
    ensures !Active(Word(before + drain)) && Generation(Word(before + drain + check)) == Generation(Word(before))
      <==> Begun(drain) + Begun(check) == 0 && Ended(before + drain) == Begun(before)
  {
    hide Word, Begun, Ended;
    BegunAppend(before + drain, check);
    BegunAppend(before, drain);
    ProperPrefix(before + drain, check);
    ProperPrefix(before, drain);
    WordReads(before + drain + check);
    WordReads(before + drain);
    WordReads(before);
    assert (before + drain)[..|before + drain|] == before + drain;
  }

  lemma ProperPrefix(before: seq<Transition>, since: seq<Transition>)
    requires Proper(before + since)
    ensures Proper(before)
  {
    hide Begun, Ended;
    BegunAppend(before, since);
    forall k | 0 <= k <= |before| ensures Ended(before[..k]) <= Begun(before[..k]) {
      assert (before + since)[..k] == before[..k];
    }
  }

  // -------------------------------------------------------- the handshake

  datatype Row = CapturePaused | CaptureResumed

  /** What one attempt meets: the transitions up to the generation its preparation
      acknowledges, if it goes through; those during the drain, up to the check's first
      load of the word; those between the two loads; and whether the boundary row could
      be written. */
  datatype Attempt = Attempt(prepared: bool, before: seq<Transition>, drain: seq<Transition>, check: seq<Transition>, written: bool)

  predicate Possible(a: Attempt) { Proper(a.before + a.drain + a.check) }

  /** The preparation went through, every transition before it has ended, and none has
      begun since. */
  predicate Quiet(a: Attempt) {
    a.prepared && Begun(a.drain) + Begun(a.check) == 0 && Ended(a.before + a.drain) == Begun(a.before)
  }

  /** The first quiet attempt, if any. */
  function FirstQuiet(attempts: seq<Attempt>): (k: nat)
    ensures k <= |attempts| && (forall j :: 0 <= j < k ==> !Quiet(attempts[j])) && (k < |attempts| ==> Quiet(attempts[k]))
  {
    if attempts == [] then 0 else if Quiet(attempts[0]) then 0 else 1 + FirstQuiet(attempts[1..])
  }

  class Controls {
    var suspended: bool
    var barrier: bool
    /** The writer's input, and how long it was when the gate last opened. */
    var input: seq<Row>
    ghost var openedAt: Option<nat>
    var reseeds: nat
    var redactTitles: bool

    constructor ()
      ensures suspended && !barrier && input == [] && openedAt == None && reseeds == 0 && !redactTitles
    {
      suspended, barrier, input, openedAt, reseeds, redactTitles := true, false, [], None, 0, false;
    }

    /** `resume_capture_after_quiet`: it checks the packed word, and so reopens capture
        only where no transition has begun since that attempt's preparation. */
    method ResumeCaptureAfterQuiet(attempts: seq<Attempt>, boundary: Option<Row>, redact: bool) returns (ok: bool)
      requires |attempts| == 3 && (forall k :: 0 <= k < 3 ==> Possible(attempts[k]))
      modifies this
      ensures ok <==> FirstQuiet(attempts) < 3 && (boundary.Some? ==> attempts[FirstQuiet(attempts)].written)
      ensures !barrier
      ensures ok ==> !suspended && input == old(input) + (if boundary.Some? then [boundary.value] else [])
      ensures ok ==> openedAt == Some(|input|) && reseeds == old(reseeds) + 1 && redactTitles == (old(redactTitles) || redact)
      ensures !ok ==> suspended == old(suspended) && input == old(input) && openedAt == old(openedAt)
      ensures !ok ==> reseeds == old(reseeds) && redactTitles == old(redactTitles)
    {
      hide Word, Begun, Ended, Generation, Active;
      barrier := true;
      for k := 0 to 3
        invariant barrier && suspended == old(suspended) && input == old(input) && openedAt == old(openedAt)
        invariant reseeds == old(reseeds) && redactTitles == old(redactTitles)
        invariant forall j :: 0 <= j < k ==> !Quiet(attempts[j])
      {
        var a := attempts[k];
        if !a.prepared { continue; }
        var generation := Generation(Word(a.before));
        CheckMeansQuiet(a.before, a.drain, a.check);
        if Active(Word(a.before + a.drain)) || Generation(Word(a.before + a.drain + a.check)) != generation { continue; }
        FirstIs(attempts, k);
        if boundary.Some? {
          if !a.written {
            barrier := false;
            return false;
          }
          input := input + [boundary.value];
        }
        suspended := false;
        openedAt := Some(|input|);
        barrier := false;
        if redact { redactTitles := true; }
        reseeds := reseeds + 1;
        return true;
      }
      barrier := false;
      ok := false;
    }
  }

  lemma {:induction false} FirstIs(attempts: seq<Attempt>, k: nat)
    requires k < |attempts| && Quiet(attempts[k]) && forall j :: 0 <= j < k ==> !Quiet(attempts[j])
    ensures FirstQuiet(attempts) == k
  {
    if k > 0 {
      assert !Quiet(attempts[0]);
      FirstIs(attempts[1..], k - 1);
    }
  }

  // -------------------------------------------------------- the forwarder

  /** What a wait on the capture channel comes to. */
  datatype Arrival = Captured(n: nat) | QuietPeriod | Disconnected

  /** What the forwarder's select comes to; a flush request carries what its drain
      will meet. */
  datatype Input = FromCapture(n: nat) | CaptureClosed | Flush(arrivals: seq<Arrival>) | FlushClosed

  /** The captured rows among these arrivals up to the first quiet period. */
  function Drained(arrivals: seq<Arrival>): seq<nat> {
    if arrivals == [] || !arrivals[0].Captured? then [] else [arrivals[0].n] + Drained(arrivals[1..])
  }

  /** Every row received, in the order it was received. */
  function Received(inputs: seq<Input>): seq<nat> {
    if inputs == [] then [] else
      Received(inputs[..|inputs| - 1]) + match inputs[|inputs| - 1]
        case FromCapture(n) => [n]
        case Flush(arrivals) => Drained(arrivals)
        case CaptureClosed => []
        case FlushClosed => []
  }

  /** How many rows had been received at the end of each flush. */
  function FlushMarks(inputs: seq<Input>): seq<nat> {
    if inputs == [] then [] else
      FlushMarks(inputs[..|inputs| - 1])
      + if inputs[|inputs| - 1].Flush? then [|Received(inputs)|] else []
  }


  class Forwarder {
    var written: seq<nat>
    /** How many more rows the writer takes before it is gone. */
    var room: nat
    /** The length of `written` at each flush reply. */
    var replies: seq<nat>

    constructor (room: nat)
      ensures this.room == room && written == [] && replies == []
    {
      this.room, written, replies := room, [], [];
    }

    method Send(n: nat) returns (ok: bool)
      modifies this`written, this`room
      ensures ok <==> old(room) > 0
      ensures ok ==> written == old(written) + [n] && room == old(room) - 1
      ensures !ok ==> written == old(written) && room == old(room)
    {
      ok := room > 0;
      if ok { written, room := written + [n], room - 1; }
    }

    /** `drain_capture_forwarder_until_quiet`: whatever is there, in order, until
        nothing comes for a quiet period. */
    method DrainUntilQuiet(arrivals: seq<Arrival>) returns (open: bool)
      modifies this`written, this`room
      ensures open <==> |Drained(arrivals)| <= old(room)
      ensures open ==> written == old(written) + Drained(arrivals) && room == old(room) - |Drained(arrivals)|
      ensures !open ==> room == 0 && written == old(written) + Drained(arrivals)[..old(room)]
    {
      hide Drained;
      var k := 0;
      ghost var all := Drained(arrivals);
      assert arrivals[0..] == arrivals;
      while k < |arrivals|
        invariant k <= |arrivals| && k <= |all| && all == all[..k] + Drained(arrivals[k..])
        invariant k <= old(room) && room == old(room) - k && written == old(written) + all[..k]
      {
        var arrival := arrivals[k];
        DrainedStops(arrivals, k);
        if !arrival.Captured? { return true; }
        DrainedStep(arrivals, all, k);
        var ok := Send(arrival.n);
        if !ok { return false; }
        k := k + 1;
      }
      DrainedStops(arrivals, k);
      open := true;
    }

    /** `run_capture_forwarder`: until a channel or the writer goes. The writer gets
        what was received, in order, as far as it takes rows, and every flush is
        answered, even one whose drain meets the writer gone. */
    method Run(inputs: seq<Input>) returns (done: nat)
      requires written == [] && replies == []
      modifies this
      ensures done <= |inputs|
      ensures written == Firsts(Received(inputs[..done]), old(room))
      ensures replies == Capped(FlushMarks(inputs[..done]), old(room))
      ensures done < |inputs| ==> inputs[done].CaptureClosed? || old(room) <= |Received(inputs[..done])|
    {
      hide *;
      done := 0;
      NothingReceived(inputs, room);
      FirstsAll(written, old(room));
      while done < |inputs|
        invariant done <= |inputs| && written == Received(inputs[..done]) == Firsts(written, old(room))
        invariant replies == Capped(FlushMarks(inputs[..done]), old(room))
        invariant room == old(room) - |written|
      {
        ReceivedStep(inputs, done);
        CappedStep(FlushMarks(inputs[..done]), |Received(inputs[..done + 1])|, old(room));
        match inputs[done] {
          case FromCapture(n) =>
            var ok := Send(n);
            if !ok { return; }
          case CaptureClosed => return;
          case Flush(arrivals) =>
            if |Drained(arrivals)| > room { FirstsCut(written, Drained(arrivals), room); }
            var open := DrainUntilQuiet(arrivals);
            replies := replies + [|written|];
            if !open {
              done := done + 1;
              return;
            }
          case FlushClosed =>
        }
        done := done + 1;
        FirstsAll(written, old(room));
      }
    }
  }

  function Firsts(rows: seq<nat>, room: nat): seq<nat> { rows[..if |rows| <= room then |rows| else room] }

  lemma FirstsAll(rows: seq<nat>, room: nat)
    requires |rows| <= room
    ensures Firsts(rows, room) == rows
  {}

  lemma FirstsCut(rows: seq<nat>, more: seq<nat>, room: nat)
    requires |more| > room
    ensures Firsts(rows + more, |rows| + room) == rows + more[..room]
  {}

  function Capped(marks: seq<nat>, room: nat): seq<nat> { seq(|marks|, i requires 0 <= i < |marks| => if marks[i] <= room then marks[i] else room) }

  lemma CappedStep(marks: seq<nat>, mark: nat, room: nat)
    ensures Capped(marks + [mark], room) == Capped(marks, room) + [if mark <= room then mark else room]
  {}

  lemma NothingReceived(inputs: seq<Input>, room: nat)
    ensures Received(inputs[..0]) == [] && Capped(FlushMarks(inputs[..0]), room) == []
  {}

  lemma {:induction false} MarkAt(inputs: seq<Input>, k: nat) returns (i: nat)
    requires k < |inputs| && inputs[k].Flush?
    ensures i < |FlushMarks(inputs)| && FlushMarks(inputs)[i] == |Received(inputs[..k + 1])|
  {
    var last := |inputs| - 1;
    ReceivedStep(inputs, last);
    assert inputs[..last + 1] == inputs;
    hide Received, FlushMarks, Drained;
    if k == last {
      i := |FlushMarks(inputs[..last])|;
    } else {
      i := MarkAt(inputs[..last], k);
      assert inputs[..last][..k + 1] == inputs[..k + 1];
    }
  }

  lemma {:induction false} MarkOf(inputs: seq<Input>, i: nat) returns (k: nat)
    requires i < |FlushMarks(inputs)|
    ensures k < |inputs| && inputs[k].Flush? && FlushMarks(inputs)[i] == |Received(inputs[..k + 1])|
  {
    var last := |inputs| - 1;
    ReceivedStep(inputs, last);
    assert inputs[..last + 1] == inputs;
    hide Received, FlushMarks, Drained;
    if i == |FlushMarks(inputs[..last])| {
      k := last;
    } else {
      k := MarkOf(inputs[..last], i);
      assert inputs[..last][..k + 1] == inputs[..k + 1];
    }
  }

  /** The answers are true, each given only once everything received before it has been
      forwarded, exactly when at every flush the writer still had room for all of it. */
  lemma AnswersAreTrueIff(inputs: seq<Input>, room: nat)
    ensures Capped(FlushMarks(inputs), room) == FlushMarks(inputs)
      <==> forall k :: 0 <= k < |inputs| && inputs[k].Flush? ==> |Received(inputs[..k + 1])| <= room
  {
    hide FlushMarks, Received;
    if forall k :: 0 <= k < |inputs| && inputs[k].Flush? ==> |Received(inputs[..k + 1])| <= room {
      forall i | 0 <= i < |FlushMarks(inputs)| ensures FlushMarks(inputs)[i] <= room {
        var k := MarkOf(inputs, i);
      }
    } else {
      var k :| 0 <= k < |inputs| && inputs[k].Flush? && |Received(inputs[..k + 1])| > room;
      var i := MarkAt(inputs, k);
      assert Capped(FlushMarks(inputs), room)[i] == room;
    }
  }

  lemma DrainedStops(arrivals: seq<Arrival>, k: nat)
    requires k <= |arrivals|
    ensures k == |arrivals| || !arrivals[k].Captured? ==> Drained(arrivals[k..]) == []
  {}

  lemma DrainedStep(arrivals: seq<Arrival>, all: seq<nat>, k: nat)
    requires k < |arrivals| && arrivals[k].Captured? && k <= |all| && all == all[..k] + Drained(arrivals[k..])
    ensures k < |all| && all[k] == arrivals[k].n && all == all[..k + 1] + Drained(arrivals[k + 1..])
    ensures all[..k + 1] == all[..k] + [arrivals[k].n]
  {
    assert arrivals[k..][1..] == arrivals[k + 1..];
    assert Drained(arrivals[k..]) == [arrivals[k].n] + Drained(arrivals[k + 1..]);
  }

  lemma ReceivedStep(inputs: seq<Input>, k: nat)
    requires k < |inputs|
    ensures Received(inputs[..k + 1]) == Received(inputs[..k]) + match inputs[k]
      case FromCapture(n) => [n]
      case Flush(arrivals) => Drained(arrivals)
      case CaptureClosed => []
      case FlushClosed => []
    ensures FlushMarks(inputs[..k + 1]) == FlushMarks(inputs[..k]) + if inputs[k].Flush? then [|Received(inputs[..k + 1])|] else []
    ensures !inputs[k].FromCapture? && !inputs[k].Flush? ==> Received(inputs[..k + 1]) == Received(inputs[..k])
    ensures !inputs[k].Flush? ==> FlushMarks(inputs[..k + 1]) == FlushMarks(inputs[..k])
  {
    assert inputs[..k + 1][..k] == inputs[..k];
  }
}
