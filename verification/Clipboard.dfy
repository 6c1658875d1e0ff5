/** The clipboard owner-change and TARGETS machine of `clipboard.rs`. */
module Clipboard {

  import opened Clock
  import opened Wrappers

  /** Clock readings are milliseconds. */
  const SAMPLE_INTERVAL := 1000
  const REPLY_TIMEOUT := 2000

  datatype TargetClass = Text | Files | Image | Audio | Concealed | Meta | Other

  datatype FormatKind = TextKind | FilesKind | ImageKind | AudioKind | ConcealedKind | CustomKind | EmptyKind | UnavailableKind

  /** `answer` is what reading the reply's property returns, if it is read. */
  datatype Signal =
    | OwnerChanged(timestamp: nat)
    | OwnerGone(timestamp: nat)
    | TargetsReply(present: bool, answer: Option<seq<TargetClass>>)

  datatype Row = Row(at: nat, sequence: nat, kind: FormatKind, count: nat)

  datatype Pending = Pending(timestamp: nat, requestedAt: Option<nat>)

  datatype State = State(pending: Option<Pending>, lastRequest: Option<nat>)

  const START := State(None, None)

  // ---------------------------------------------------------- classification

  function Formats(classes: seq<TargetClass>): nat {
    if classes == [] then 0 else
      Formats(classes[..|classes| - 1]) + if classes[|classes| - 1].Meta? then 0 else 1
  }

  function ClassifyTargets(classes: seq<TargetClass>): (FormatKind, nat) {
    var count := if Formats(classes) > 0xFFFF_FFFF then 0xFFFF_FFFF else Formats(classes);
    var kind :=
      if Concealed in classes then ConcealedKind
      else if count == 0 then EmptyKind
      else if Text in classes then TextKind
      else if Files in classes then FilesKind
      else if Image in classes then ImageKind
      else if Audio in classes then AudioKind
      else CustomKind;
    (kind, count)
  }

  lemma {:induction false} FormatsCount(classes: seq<TargetClass>)
    ensures Formats(classes) == |classes| - multiset(classes)[Meta]
  {
    if classes != [] {
      FormatsCount(classes[..|classes| - 1]);
      assert classes == classes[..|classes| - 1] + [classes[|classes| - 1]];
    }
  }

  /** The verdict does not depend on the order the owner declares its targets in. */
  lemma ClassifyIgnoresOrder(a: seq<TargetClass>, b: seq<TargetClass>)
    requires multiset(a) == multiset(b)
    ensures ClassifyTargets(a) == ClassifyTargets(b)
  {
    FormatsCount(a);
    FormatsCount(b);
    assert |a| == |multiset(a)| && |b| == |multiset(b)|;
    forall c: TargetClass ensures c in a <==> c in b { assert c in multiset(a) <==> c in multiset(b); }
  }

  /** Each verdict against the targets declared: a concealed one outranks everything,
      a list of nothing but protocol targets is empty, and text, files, images and audio
      come in that order. The count leaves the protocol targets out. */
  lemma KindDecides(classes: seq<TargetClass>)
    ensures var kind := ClassifyTargets(classes).0;
      && (kind == ConcealedKind <==> Concealed in classes)
      && (kind == EmptyKind <==> (forall c | c in classes :: c == Meta))
      && (kind == TextKind <==> Concealed !in classes && Text in classes)
      && (kind == FilesKind <==> Concealed !in classes && Text !in classes && Files in classes)
      && (kind == ImageKind <==> Concealed !in classes && Text !in classes && Files !in classes && Image in classes)
      && (kind == AudioKind <==>
            Concealed !in classes && Text !in classes && Files !in classes && Image !in classes && Audio in classes)
      && (kind == CustomKind <==> Other in classes && (forall c | c in classes :: c == Other || c == Meta))
    ensures var formats := |classes| - multiset(classes)[Meta];
      ClassifyTargets(classes).1 == if formats < 0x1_0000_0000 then formats else 0xFFFF_FFFF
  {
    FormatsCount(classes);
    NoFormats(classes);
  }

  lemma {:induction false} NoFormats(classes: seq<TargetClass>)
    ensures Formats(classes) == 0 <==> (forall c | c in classes :: c == Meta)
  {
    if classes != [] {
      var before, last := classes[..|classes| - 1], classes[|classes| - 1];
      NoFormats(before);
      assert classes == before + [last];
      assert last in classes;
      forall c | c in before ensures c in classes {}
    }
  }

  // ---------------------------------------------------------- single steps

  /** One step of a pass: a translated signal, the request-or-expire tail of the
      pass (`sent` is whether a request could leave the connection), or a reseed. */
  datatype Op =
    | Signalled(now: nat, enabled: bool, signal: Signal)
    | Service(now: nat, enabled: bool, sent: bool)
    | Reseed

  datatype Outcome = Outcome(state: State, rows: seq<Row>, asked: seq<nat>)

  function Quiet(state: State): Outcome { Outcome(state, [], []) }

  predicate InFlight(s: State) { s.pending.Some? && s.pending.value.requestedAt.Some? }

  predicate Waiting(s: State) { s.pending.Some? && s.pending.value.requestedAt.None? }

  function Answer(now: nat, timestamp: nat, present: bool, answer: Option<seq<TargetClass>>): Row {
    if present && answer.Some? then Row(now, timestamp, ClassifyTargets(answer.value).0, ClassifyTargets(answer.value).1)
    else Row(now, timestamp, UnavailableKind, 0)
  }

  function OnSignal(s: State, now: nat, enabled: bool, signal: Signal): Outcome {
    match signal
    case OwnerChanged(timestamp) => if enabled then Quiet(s.(pending := Some(Pending(timestamp, None)))) else Quiet(s)
    case OwnerGone(timestamp) =>
      Outcome(s.(pending := None), if enabled then [Row(now, timestamp, EmptyKind, 0)] else [], [])
    case TargetsReply(present, answer) =>
      if !InFlight(s) then Quiet(s)
      else Outcome(s.(pending := None), if enabled then [Answer(now, s.pending.value.timestamp, present, answer)] else [], [])
  }

  predicate RequestDue(s: State, now: nat) {
    Waiting(s) && (s.lastRequest.None? || Since(now, s.lastRequest.value) >= SAMPLE_INTERVAL)
  }

  predicate Expired(s: State, now: nat) { InFlight(s) && Since(now, s.pending.value.requestedAt.value) >= REPLY_TIMEOUT }

  function OnService(s: State, now: nat, enabled: bool, sent: bool): Outcome {
    if !enabled then Quiet(s.(pending := None))
    else if RequestDue(s, now) then
      Outcome(State(if sent then Some(s.pending.value.(requestedAt := Some(now))) else None, Some(now)), [],
              [s.pending.value.timestamp])
    else if Expired(s, now) then
      Outcome(s.(pending := None), [Row(now, s.pending.value.timestamp, UnavailableKind, 0)], [])
    else Quiet(s)
  }

  function Step(s: State, op: Op): Outcome {
    match op
    case Signalled(now, enabled, signal) => OnSignal(s, now, enabled, signal)
    case Service(now, enabled, sent) => OnService(s, now, enabled, sent)
    case Reseed => Quiet(s.(pending := None))
  }

  /** A run of steps, with everything emitted and every request made. */
  function RunFrom(s: State, ops: seq<Op>): Outcome {
    if ops == [] then Quiet(s) else
      var before := RunFrom(s, ops[..|ops| - 1]);
      var last := Step(before.state, ops[|ops| - 1]);
      Outcome(last.state, before.rows + last.rows, before.asked + last.asked)
  }

  function Run(ops: seq<Op>): Outcome { RunFrom(START, ops) }

  /** The steps of one pass. */
  function PollOps(now: nat, enabled: bool, signals: seq<Signal>, sent: bool): seq<Op> {
    SignalOps(now, enabled, signals) + [Service(now, enabled, sent)]
  }

  function SignalOps(now: nat, enabled: bool, signals: seq<Signal>): (r: seq<Op>)
    ensures |r| == |signals|
  {
    if signals == [] then [] else
      SignalOps(now, enabled, signals[..|signals| - 1]) + [Signalled(now, enabled, signals[|signals| - 1])]
  }

  lemma RunNothing(s: State, now: nat, enabled: bool)
    ensures RunFrom(s, SignalOps(now, enabled, [])) == Quiet(s)
  {}

  /** Successive runs are one run. */
  lemma {:induction false} RunAppend(s: State, a: seq<Op>, b: seq<Op>)
    ensures var first := RunFrom(s, a); var second := RunFrom(first.state, b);
      RunFrom(s, a + b) == Outcome(second.state, first.rows + second.rows, first.asked + second.asked)
  {
    hide RunFrom, Step;
    if b == [] {
      assert a + b == a;
      RunEmpty(RunFrom(s, a).state);
    } else {
      var n := |b| - 1;
      RunAppend(s, a, b[..n]);
      RunStep(RunFrom(s, a).state, b[..n], b[n]);
      RunStep(s, a + b[..n], b[n]);
      assert b[..n] + [b[n]] == b && a + b[..n] + [b[n]] == a + b;
    }
  }

  lemma RunEmpty(s: State)
    ensures RunFrom(s, []) == Quiet(s)
  {}

  lemma RunStep(s: State, ops: seq<Op>, op: Op)
    ensures var before := RunFrom(s, ops); var last := Step(before.state, op);
      RunFrom(s, ops + [op]) == Outcome(last.state, before.rows + last.rows, before.asked + last.asked)
  {
    assert (ops + [op])[..|ops|] == ops;
  }

  lemma SignalStep(now: nat, enabled: bool, signals: seq<Signal>, signal: Signal)
    ensures SignalOps(now, enabled, signals + [signal]) == SignalOps(now, enabled, signals) + [Signalled(now, enabled, signal)]
  {
    assert (signals + [signal])[..|signals|] == signals;
  }

  // ------------------------------------------------------------- the object

  class ClipboardMonitor {
    var pending: Option<Pending>
    var lastRequestAt: Option<nat>

    function Value(): State reads this { State(pending, lastRequestAt) }

    constructor ()
      ensures Value() == START
    {
      pending, lastRequestAt := None, None;
    }

    method ReseedMonitor()
      modifies this`pending
      ensures Quiet(Value()) == Step(old(Value()), Reseed)
    {
      pending := None;
    }

    /** One pass: fold in the signals, then issue or expire the request. */
    method Poll(now: nat, enabled: bool, signals: seq<Signal>, sent: bool) returns (events: seq<Row>, asked: seq<nat>)
      modifies this
      ensures Outcome(Value(), events, asked) == RunFrom(old(Value()), PollOps(now, enabled, signals, sent))
    {
      hide OnSignal, OnService, RunFrom, SignalOps;
      events, asked := [], [];
      ghost var start := Value();
      RunNothing(start, now, enabled);
      assert signals[..0] == [];
      for i := 0 to |signals|
        invariant Outcome(Value(), events, asked) == RunFrom(start, SignalOps(now, enabled, signals[..i]))
      {
        SignalStep(now, enabled, signals[..i], signals[i]);
        RunStep(start, SignalOps(now, enabled, signals[..i]), Signalled(now, enabled, signals[i]));
        assert signals[..i] + [signals[i]] == signals[..i + 1];
        var rows := Fold(now, enabled, signals[i]);
        events := events + rows;
      }
      assert signals[..|signals|] == signals;
      RunStep(start, SignalOps(now, enabled, signals), Service(now, enabled, sent));
      var rows, requests := IssueOrExpire(now, enabled, sent);
      events, asked := events + rows, asked + requests;
    }

    /** The body of the signal loop. */
    method Fold(now: nat, enabled: bool, signal: Signal) returns (rows: seq<Row>)
      modifies this`pending
      ensures Outcome(Value(), rows, []) == OnSignal(old(Value()), now, enabled, signal)
    {
      rows := [];
      match signal {
        case OwnerChanged(timestamp) =>
          if enabled { pending := Some(Pending(timestamp, None)); }
        case OwnerGone(timestamp) =>
          pending := None;
          if enabled { rows := [Row(now, timestamp, EmptyKind, 0)]; }
        case TargetsReply(present, answer) =>
          var answered := pending.Some? && pending.value.requestedAt.Some?;
          if !answered { return; }
          var taken := pending.value;
          pending := None;
          if !enabled { return; }
          var read := if present then answer else None;
          match read {
            case Some(classes) =>
              var (kind, count) := ClassifyTargets(classes);
              rows := [Row(now, taken.timestamp, kind, count)];
            case None => rows := [Row(now, taken.timestamp, UnavailableKind, 0)];
          }
      }
    }

    /** The tail of a pass. */
    method IssueOrExpire(now: nat, enabled: bool, sent: bool) returns (rows: seq<Row>, asked: seq<nat>)
      modifies this
      ensures Outcome(Value(), rows, asked) == OnService(old(Value()), now, enabled, sent)
    {
      rows, asked := [], [];
      if !enabled {
        pending := None;
        return;
      }
      if pending.Some? && pending.value.requestedAt.None? {
        var due := lastRequestAt.None? || Since(now, lastRequestAt.value) >= SAMPLE_INTERVAL;
        if due {
          lastRequestAt := Some(now);
          asked := [pending.value.timestamp];
          if sent { pending := Some(pending.value.(requestedAt := Some(now))); } else { pending := None; }
        }
      } else if pending.Some? && Since(now, pending.value.requestedAt.value) >= REPLY_TIMEOUT {
        rows := [Row(now, pending.value.timestamp, UnavailableKind, 0)];
        pending := None;
      }
    }
  }
}
