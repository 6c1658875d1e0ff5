/** The rows and requests of the clipboard machine against the raw history of its steps:
    which copy is pending, what was asked of its owner and when, and what must come out. */
module ClipboardRows {

  import opened Clipboard
  import opened Wrappers

  // ------------------------------------------------- reading the history

  predicate Copies(op: Op) { op.Signalled? && op.enabled && op.signal.OwnerChanged? }

  predicate Replies(op: Op) { op.Signalled? && op.signal.TargetsReply? }

  /** The copy a step leaves pending: the last one taken with the stream on, unless its
      owner went away, it was answered, asked in vain or timed out, the stream was found
      off at the end of a pass, or a reseed came. */
  function Copy(ops: seq<Op>): (c: Option<nat>)
    ensures c.Some? ==> c.value < |ops| && Copies(ops[c.value])
    decreases |ops|, 0
  {
    if ops == [] then None else
      var before, op := ops[..|ops| - 1], ops[|ops| - 1];
      if Copies(op) then Some(|before|)
      else if op.Reseed? || (op.Signalled? && op.signal.OwnerGone?) then None
      else if Replies(op) then (if Asked(before).Some? then None else Copy(before))
      else if op.Service? && (!op.enabled || TimesOut(before, op) || (Asks(before, op) && !op.sent)) then None
      else Copy(before)
  }

  /** The step that asked the pending copy's owner. */
  function Asked(ops: seq<Op>): (r: Option<nat>)
    ensures r.Some? ==> r.value < |ops| && ops[r.value].Service? && Copy(ops).Some?
    decreases |ops|, 1
  {
    if ops == [] || Copy(ops).None? || Copies(ops[|ops| - 1]) then None
    else if Asks(ops[..|ops| - 1], ops[|ops| - 1]) then Some(|ops| - 1)
    else Asked(ops[..|ops| - 1])
  }

  /** When an owner was last asked, whether or not the request could be sent. */
  function LastAsk(ops: seq<Op>): Option<nat>
    decreases |ops|, 1
  {
    if ops == [] then None
    else if Asks(ops[..|ops| - 1], ops[|ops| - 1]) then Some(ops[|ops| - 1].now)
    else LastAsk(ops[..|ops| - 1])
  }

  /** The end of a pass asks for a copy not asked about yet, a second or more after the
      last request. */
  predicate Asks(ops: seq<Op>, op: Op)
    decreases |ops|, 2
  {
    && op.Service? && op.enabled && Copy(ops).Some? && Asked(ops).None?
    && (LastAsk(ops).None? || op.now >= LastAsk(ops).value + 1000)
  }

  /** The end of a pass gives up an answer that is two seconds late. */
  predicate TimesOut(ops: seq<Op>, op: Op)
    decreases |ops|, 2
  {
    op.Service? && op.enabled && Asked(ops).Some? && op.now >= ops[Asked(ops).value].now + 2000
  }

  /** The number the owner change carried. */
  function Sequence(ops: seq<Op>): nat
    requires Copy(ops).Some?
  {
    ops[Copy(ops).value].signal.timestamp
  }

  /** Everything one step puts out. */
  function RowsOf(ops: seq<Op>, op: Op): seq<Row> {
    if op.Signalled? && op.enabled && op.signal.OwnerGone? then [Row(op.now, op.signal.timestamp, EmptyKind, 0)]
    else if Replies(op) && op.enabled && Asked(ops).Some? then
      if op.signal.present && op.signal.answer.Some? then
        var (kind, count) := ClassifyTargets(op.signal.answer.value);
        [Row(op.now, Sequence(ops), kind, count)]
      else [Row(op.now, Sequence(ops), UnavailableKind, 0)]
    else if TimesOut(ops, op) then [Row(op.now, Sequence(ops), UnavailableKind, 0)]
    else []
  }

  /** The requests one step makes. */
  function RequestsOf(ops: seq<Op>, op: Op): seq<nat> { if Asks(ops, op) then [Sequence(ops)] else [] }

  // ------------------------------------------------ the state is the history

  ghost predicate Told(ops: seq<Op>, s: State) {
    && s.lastRequest == LastAsk(ops)
    && match Copy(ops)
       case None => s.pending == None
       case Some(c) =>
         s.pending == Some(Pending(ops[c].signal.timestamp, if Asked(ops).None? then None else Some(ops[Asked(ops).value].now)))
  }

  lemma HistoryStep(ops: seq<Op>, op: Op)
    ensures Copy(ops + [op]) ==
      if Copies(op) then Some(|ops|)
      else if op.Reseed? || (op.Signalled? && op.signal.OwnerGone?) then None
      else if Replies(op) then (if Asked(ops).Some? then None else Copy(ops))
      else if op.Service? && (!op.enabled || TimesOut(ops, op) || (Asks(ops, op) && !op.sent)) then None
      else Copy(ops)
    ensures LastAsk(ops + [op]) == if Asks(ops, op) then Some(op.now) else LastAsk(ops)
    ensures Asked(ops + [op]) ==
      if Copy(ops + [op]).None? || Copies(op) then None else if Asks(ops, op) then Some(|ops|) else Asked(ops)
  {
    assert (ops + [op])[..|ops|] == ops;
    hide Asks, TimesOut;
  }

  lemma GuardsAgree(ops: seq<Op>, s: State, op: Op)
    requires Told(ops, s)
    ensures InFlight(s) <==> Asked(ops).Some?
    ensures op.Service? && op.enabled ==> (RequestDue(s, op.now) <==> Asks(ops, op))
    ensures op.Service? && op.enabled ==> (Expired(s, op.now) <==> TimesOut(ops, op))
  {
    hide Copy, LastAsk, Asked;
  }

  lemma ToldStep(ops: seq<Op>, s: State, op: Op)
    requires Told(ops, s)
    ensures Told(ops + [op], Step(s, op).state)
    ensures Step(s, op).rows == RowsOf(ops, op) && Step(s, op).asked == RequestsOf(ops, op)
  {
    HistoryStep(ops, op);
    GuardsAgree(ops, s, op);
    assert forall k | 0 <= k < |ops| :: (ops + [op])[k] == ops[k];
    hide Copy, LastAsk, Asked, ClassifyTargets, InFlight, RequestDue, Expired, Asks, TimesOut;
  }

  lemma {:induction false} RunTold(ops: seq<Op>)
    ensures Told(ops, Run(ops).state)
  {
    if ops == [] {
    } else {
      var before, op := ops[..|ops| - 1], ops[|ops| - 1];
      assert ops == before + [op];
      RunTold(before);
      hide *;
      RunStep(START, before, op);
      ToldStep(before, Run(before).state, op);
      RunIs(before, op);
    }
  }

  lemma RunIs(ops: seq<Op>, op: Op)
    ensures Run(ops + [op]).state == Step(Run(ops).state, op).state
  {
    hide Step;
    RunStep(START, ops, op);
  }

  /** Whatever came before, a step puts out exactly the rows, and makes exactly the
      requests, that the raw history asks for. */
  lemma RowsFollowHistory(ops: seq<Op>, op: Op)
    ensures Step(Run(ops).state, op).rows == RowsOf(ops, op)
    ensures Step(Run(ops).state, op).asked == RequestsOf(ops, op)
  {
    RunTold(ops);
    hide Run, Step, RowsOf, RequestsOf;
    ToldStep(ops, Run(ops).state, op);
  }
}
