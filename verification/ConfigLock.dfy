/** Writers of the configuration file in many processes, serialized by its lock. */
module ConfigLock {

  import opened Config
  import opened ConfigWriters
  import opened Wrappers

  /** Where a process is in its own operation: it takes the lock, reads the file,
      writes what it computed from what it read, and lets the lock go. */
  datatype Phase = Outside | Locked | Read(seen: File) | Spent

  datatype Writers = Writers(file: File, holder: Option<nat>, phases: map<nat, Phase>, log: seq<Write>)

  /** `written` is whether the atomic replace succeeds; a release is also what
      happens when the process dies. */
  datatype Event =
    | Acquire(p: nat)
    | Look(p: nat)
    | Commit(p: nat, w: Write, written: bool)
    | Release(p: nat)

  function PhaseOf(sys: Writers, p: nat): Phase { if p in sys.phases then sys.phases[p] else Outside }

  /** One step of one process; it looks only at its own phase, and at the lock
      when it wants to take it. */
  function Next(sys: Writers, e: Event, windows: bool): Writers {
    match e
    case Acquire(p) =>
      if sys.holder.Some? || PhaseOf(sys, p) != Outside then sys
      else sys.(holder := Some(p), phases := sys.phases[p := Locked])
    case Look(p) => if PhaseOf(sys, p) != Locked then sys else sys.(phases := sys.phases[p := Read(sys.file)])
    case Commit(p, w, written) =>
      if !PhaseOf(sys, p).Read? then sys
      else if !written then sys.(phases := sys.phases[p := Spent])
      else Writers(Apply(w, PhaseOf(sys, p).seen, windows), sys.holder, sys.phases[p := Spent], sys.log + [w])
    case Release(p) =>
      if PhaseOf(sys, p) == Outside then sys else sys.(holder := None, phases := sys.phases[p := Outside])
  }

  function Run(start: File, events: seq<Event>, windows: bool): Writers {
    if events == [] then Writers(start, None, map[], []) else
      Next(Run(start, events[..|events| - 1], windows), events[|events| - 1], windows)
  }

  /** The operations of the log, one after another. */
  function Replay(start: File, log: seq<Write>, windows: bool): File {
    if log == [] then start else Apply(log[|log| - 1], Replay(start, log[..|log| - 1], windows), windows)
  }

  lemma ReplayStep(start: File, log: seq<Write>, w: Write, windows: bool)
    ensures Replay(start, log + [w], windows) == Apply(w, Replay(start, log, windows), windows)
  {
    assert (log + [w])[..|log|] == log;
  }

  /** Only the lock's holder is inside its operation, and what it has read is
      still what is there. */
  ghost predicate Serialized(start: File, sys: Writers, windows: bool) {
    && (forall p: nat :: PhaseOf(sys, p) != Outside <==> sys.holder == Some(p))
    && (forall p: nat :: PhaseOf(sys, p).Read? ==> PhaseOf(sys, p).seen == sys.file)
    && sys.file == Replay(start, sys.log, windows)
  }

  lemma StepSerialized(start: File, sys: Writers, e: Event, windows: bool)
    requires Serialized(start, sys, windows)
    ensures Serialized(start, Next(sys, e, windows), windows)
  {
    hide Apply, Replay;
    if e.Commit? { ReplayStep(start, sys.log, e.w, windows); }
    var next := Next(sys, e, windows);
    forall p: nat ensures PhaseOf(next, p) != Outside <==> next.holder == Some(p) {
      assert PhaseOf(sys, p) != Outside <==> sys.holder == Some(p);
      assert PhaseOf(sys, e.p) != Outside <==> sys.holder == Some(e.p);
    }
    forall p: nat ensures PhaseOf(next, p).Read? ==> PhaseOf(next, p).seen == next.file {
      assert PhaseOf(sys, p) != Outside <==> sys.holder == Some(p);
      assert PhaseOf(sys, e.p) != Outside <==> sys.holder == Some(e.p);
    }
  }

  /** Under any interleaving the file is what the committed operations make of it
      when run one at a time in the order they committed. */
  lemma {:induction false} WritersSerialize(start: File, events: seq<Event>, windows: bool)
    ensures Serialized(start, Run(start, events, windows), windows)
  {
    hide Next, Apply;
    if events != [] {
      WritersSerialize(start, events[..|events| - 1], windows);
      StepSerialized(start, Run(start, events[..|events| - 1], windows), events[|events| - 1], windows);
    }
  }

  /** A process that finds the lock free takes it, reads, writes and lets go: the file is
      what its operation makes of it, or as it was when the write fails, and the lock is
      free again. One that finds it taken cannot begin, none can skip a step, and none
      writes twice from one reading. */
  lemma OperationRunsThrough(sys: Writers, p: nat, w: Write, written: bool, windows: bool)
    ensures sys.holder.None? && PhaseOf(sys, p) == Outside ==>
      var read := Next(Next(sys, Acquire(p), windows), Look(p), windows);
      var done := Next(Next(read, Commit(p, w, written), windows), Release(p), windows);
      && done.file == (if written then Apply(w, sys.file, windows) else sys.file)
      && done.log == (if written then sys.log + [w] else sys.log)
      && done.holder.None? && forall q: nat :: PhaseOf(done, q) == PhaseOf(sys, q)
    ensures PhaseOf(sys, p).Read? ==> !PhaseOf(Next(sys, Commit(p, w, written), windows), p).Read?
    ensures sys.holder.Some? || PhaseOf(sys, p) != Outside ==> Next(sys, Acquire(p), windows) == sys
    ensures PhaseOf(sys, p) != Locked ==> Next(sys, Look(p), windows) == sys
    ensures !PhaseOf(sys, p).Read? ==> Next(sys, Commit(p, w, written), windows) == sys
    ensures PhaseOf(sys, p) == Outside ==> Next(sys, Release(p), windows) == sys
  {
    hide Apply;
  }

  predicate NoneTouches(log: seq<Write>, s: Section, k: Key) { forall j :: 0 <= j < |log| ==> !Touches(log[j], s, k) }

  lemma {:induction false} UntouchedStays(start: File, a: seq<Write>, b: seq<Write>, windows: bool, s: Section, k: Key)
    requires Stored(Replay(start, a, windows), s, k).Some? && NoneTouches(b, s, k)
    ensures Stored(Replay(start, a + b, windows), s, k) == Stored(Replay(start, a, windows), s, k)
  {
    hide Apply, Replay, Touches;
    if b == [] {
      assert a + b == a;
    } else {
      var n := |b| - 1;
      UntouchedStays(start, a, b[..n], windows, s, k);
      ReplayStep(start, a + b[..n], b[n], windows);
      assert a + b[..n] + [b[n]] == a + b;
      StaysStored(b[n], Replay(start, a + b[..n], windows), windows, s, k);
    }
  }

  /** No update is lost: what an operation left stored under a key is still there
      at the end of the run, unless a later committed operation set that key. */
  lemma NoUpdateLost(start: File, events: seq<Event>, windows: bool, a: seq<Write>, w: Write, b: seq<Write>, s: Section, k: Key)
    requires Run(start, events, windows).log == a + [w] + b && NoneTouches(b, s, k)
    requires Stored(Replay(start, a + [w], windows), s, k).Some?
    ensures Stored(Run(start, events, windows).file, s, k) == Stored(Replay(start, a + [w], windows), s, k)
  {
    hide Run, Replay, Touches, Stored;
    WritersSerialize(start, events, windows);
    UntouchedStays(start, a + [w], b, windows, s, k);
  }

  /** From a readable file, or none, every later file reads as a configuration,
      and a flag once raised stays raised. */
  lemma {:induction false} FlagsNeverRevert(start: File, a: seq<Write>, b: seq<Write>, windows: bool)
    requires start.Absent? || (start.Document? && Parses(start.doc))
    requires !Replay(start, a, windows).Absent?
    ensures Readable(Replay(start, a + b, windows)) && !Replay(start, a + b, windows).Absent?
    ensures WelcomeGone(Replay(start, a, windows)) ==> WelcomeGone(Replay(start, a + b, windows))
    ensures PostureSet(Replay(start, a, windows)) ==> PostureSet(Replay(start, a + b, windows))
  {
    hide Apply, Replay, Parses, WelcomeGone, PostureSet;
    if b == [] {
      assert a + b == a;
      ReplayReadable(start, a, windows);
    } else {
      var n := |b| - 1;
      FlagsNeverRevert(start, a, b[..n], windows);
      var before := Replay(start, a + b[..n], windows);
      ReplayStep(start, a + b[..n], b[n], windows);
      assert a + b[..n] + [b[n]] == a + b;
      WritesParse(b[n], before, windows);
      if WelcomeGone(before) { WelcomeStaysGone(b[n], before, windows); }
      if PostureSet(before) { PostureUndoneIff(b[n], before, windows); }
    }
  }

  predicate Readable(file: File) { file.Absent? || (file.Document? && Parses(file.doc)) }

  lemma {:induction false} ReplayReadable(start: File, log: seq<Write>, windows: bool)
    requires Readable(start)
    ensures Readable(Replay(start, log, windows))
  {
    hide Apply, Parses;
    if log != [] {
      ReplayReadable(start, log[..|log| - 1], windows);
      WritesParse(log[|log| - 1], Replay(start, log[..|log| - 1], windows), windows);
    }
  }
}
