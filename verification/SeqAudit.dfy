/** The sequence-continuity audit of `scripts/review_run.py`: audited deletion
    spans are merged, the surviving sequence numbers of a session are scanned
    for gaps, and a gap is excused only when recorded deletions explain it. */
module SeqAudit {

  import opened Sequences

  // ---------------------------------------------------------------- data

  /** One deletion-audit row of a session. */
  datatype Span = Span(lo: int, hi: int, performedAt: int, rowsDeleted: int)

  type Block = (int, int)

  predicate Covers(b: Block, x: int) { b.0 <= x <= b.1 }

  predicate InBlocks(bs: seq<Block>, x: int) { exists b :: b in bs && Covers(b, x) }

  predicate Audited(spans: seq<Span>, x: int) {
    exists sp :: sp in spans && sp.lo <= x <= sp.hi
  }

  function AuditedTotal(spans: seq<Span>): int {
    if spans == [] then 0 else spans[0].rowsDeleted + AuditedTotal(spans[1..])
  }

  predicate NoDuplicates(s: seq<int>) { forall i, j :: 0 <= i < j < |s| ==> s[i] != s[j] }

  ghost function Values(s: seq<int>): set<int> { set x | x in s }

  function Least(s: seq<int>): (m: int)
    requires s != []
    ensures m in s && forall x :: x in s ==> m <= x
  {
    if |s| == 1 then s[0] else
      assert s == [s[0]] + s[1..];
      var rest := Least(s[1..]);
      if s[0] <= rest then s[0] else rest
  }

  function Greatest(s: seq<int>): (m: int)
    requires s != []
    ensures m in s && forall x :: x in s ==> x <= m
  {
    if |s| == 1 then s[0] else
      assert s == [s[0]] + s[1..];
      var rest := Greatest(s[1..]);
      if rest <= s[0] then s[0] else rest
  }

  /** The integers absent between the least and the greatest observed number. */
  ghost function MissingSet(s: seq<int>): set<int> {
    if s == [] then {} else set x | Least(s) <= x <= Greatest(s) && x !in s
  }

  /** The intended meaning of "explained" (schema/README.md, migration 008). */
  ghost predicate Explained(seqs: seq<int>, spans: seq<Span>) {
    && spans != []
    && NoDuplicates(seqs)
    && (forall x :: x in MissingSet(seqs) ==> Audited(spans, x))
    && |MissingSet(seqs)| <= AuditedTotal(spans)
  }

  // ------------------------------------------------------------- sorting

  // Python's `sorted`, as an insertion sort over a total preorder.
  function Insert<T>(x: T, s: seq<T>, le: (T, T) -> bool): seq<T> {
    if s == [] || le(x, s[0]) then [x] + s else [s[0]] + Insert(x, s[1..], le)
  }

  function Sorted<T>(s: seq<T>, le: (T, T) -> bool): seq<T> {
    if s == [] then [] else Insert(s[0], Sorted(s[1..], le), le)
  }

  ghost predicate TotalPreorder<T(!new)>(le: (T, T) -> bool) {
    && (forall a, b :: le(a, b) || le(b, a))
    && (forall a, b, c :: le(a, b) && le(b, c) ==> le(a, c))
  }

  ghost predicate Ascending<T>(s: seq<T>, le: (T, T) -> bool) {
    forall i, j :: 0 <= i < j < |s| ==> le(s[i], s[j])
  }

  lemma FrontKeepsOrder<T(!new)>(x: T, s: seq<T>, le: (T, T) -> bool)
    requires Ascending(s, le) && forall j :: 0 <= j < |s| ==> le(x, s[j])
    ensures Ascending([x] + s, le)
  {
    var t := [x] + s;
    forall i, j | 0 <= i < j < |t| ensures le(t[i], t[j]) {
      assert t[j] == s[j - 1];
      if i > 0 { assert t[i] == s[i - 1]; }
    }
  }

  lemma FrontIsLeast<T(!new)>(x: T, s: seq<T>, le: (T, T) -> bool)
    requires TotalPreorder(le) && Ascending(s, le) && s != [] && le(x, s[0])
    ensures forall j :: 0 <= j < |s| ==> le(x, s[j])
  {
    forall j | 0 <= j < |s| ensures le(x, s[j]) {
      if j > 0 { assert le(s[0], s[j]); }
    }
  }

  lemma BackKeepsOrder<T(!new)>(s: seq<T>, le: (T, T) -> bool)
    requires Ascending(s, le) && s != []
    ensures Ascending(s[1..], le) && forall j :: 0 <= j < |s[1..]| ==> le(s[0], s[1..][j])
  {}

  lemma {:induction false} InsertKeepsOrder<T(!new)>(x: T, s: seq<T>, le: (T, T) -> bool)
    requires TotalPreorder(le) && Ascending(s, le)
    ensures Ascending(Insert(x, s, le), le)
    ensures multiset(Insert(x, s, le)) == multiset{x} + multiset(s)
  {
    hide Ascending;
    if s == [] {
      NothingAscends(le);
      FrontKeepsOrder(x, s, le);
      assert [x] + s == [x];
    } else if le(x, s[0]) {
      FrontIsLeast(x, s, le);
      FrontKeepsOrder(x, s, le);
    } else {
      BackKeepsOrder(s, le);
      InsertKeepsOrder(x, s[1..], le);
      var t := Insert(x, s[1..], le);
      assert s == [s[0]] + s[1..];
      forall j | 0 <= j < |t| ensures le(s[0], t[j]) {
        assert t[j] in multiset(t);
        if t[j] != x { assert t[j] in multiset(s[1..]); }
      }
      FrontKeepsOrder(s[0], t, le);
    }
  }

  lemma NothingAscends<T(!new)>(le: (T, T) -> bool)
    ensures Ascending([], le)
  {}

  lemma {:induction false} SortedIsSorted<T(!new)>(s: seq<T>, le: (T, T) -> bool)
    requires TotalPreorder(le)
    ensures Ascending(Sorted(s, le), le)
    ensures multiset(Sorted(s, le)) == multiset(s)
  {
    if s != [] {
      SortedIsSorted(s[1..], le);
      InsertKeepsOrder(s[0], Sorted(s[1..], le), le);
      assert s == [s[0]] + s[1..];
      hide Ascending;
    }
  }

  function BlockOrder(a: Block, b: Block): bool { a.0 < b.0 || (a.0 == b.0 && a.1 <= b.1) }

  function NumberOrder(a: int, b: int): bool { a <= b }

  // ------------------------------------------------------------- merging

  /** Merged blocks leave at least one integer uncovered between neighbours. */
  ghost predicate Separated(bs: seq<Block>) {
    forall i, j :: 0 <= i < j < |bs| ==> bs[i].1 + 1 < bs[j].0 && bs[i].0 <= bs[j].0
  }

  lemma BlocksAfterMerge(front: seq<Block>, last: Block, add: Block, x: int)
    requires last.0 <= add.0 <= last.1 + 1
    ensures InBlocks(front + [(last.0, if last.1 < add.1 then add.1 else last.1)], x)
       <==> InBlocks(front + [last], x) || Covers(add, x)
  {
    var merged := (last.0, if last.1 < add.1 then add.1 else last.1);
    assert Covers(merged, x) <==> Covers(last, x) || Covers(add, x);
    BlocksSplit(front, merged, x);
    BlocksSplit(front, last, x);
  }

  lemma BlocksSplit(front: seq<Block>, last: Block, x: int)
    ensures InBlocks(front + [last], x) <==> InBlocks(front, x) || Covers(last, x)
  {
    var all := front + [last];
    if InBlocks(front, x) {
      var b :| b in front && Covers(b, x);
      assert b in all;
    }
    if Covers(last, x) { assert all[|front|] == last; }
    if InBlocks(all, x) {
      var b :| b in all && Covers(b, x);
      assert b in front || b == last;
    }
  }

  /** What the merge loop keeps about the blocks built from a sorted prefix. */
  ghost predicate Merged(merged: seq<Block>, done: seq<Block>) {
    && Separated(merged)
    && (merged == [] <==> done == [])
    && (done != [] ==> merged[|merged| - 1].0 <= done[|done| - 1].0)
    && (forall x :: InBlocks(merged, x) <==> InBlocks(done, x))
  }

  lemma MergeIntoLast(before: seq<Block>, done: seq<Block>, add: Block)
    requires Merged(before, done) && before != []
    requires done[|done| - 1].0 <= add.0 <= before[|before| - 1].1 + 1
    ensures var last := before[|before| - 1];
            Merged(before[|before| - 1 := (last.0, if last.1 < add.1 then add.1 else last.1)], done + [add])
  {
    var n := |before| - 1;
    var last := before[n];
    var grown := (last.0, if last.1 < add.1 then add.1 else last.1);
    assert before == before[..n] + [last];
    assert before[n := grown] == before[..n] + [grown];
    forall x ensures InBlocks(before[n := grown], x) <==> InBlocks(done + [add], x) {
      BlocksAfterMerge(before[..n], last, add, x);
      BlocksSplit(done, add, x);
    }
  }

  lemma AppendBlock(before: seq<Block>, done: seq<Block>, add: Block)
    requires Merged(before, done)
    requires before != [] ==> done[|done| - 1].0 <= add.0 && before[|before| - 1].1 + 1 < add.0
    ensures Merged(before + [add], done + [add])
  {
    forall i, j | 0 <= i < j < |before| + 1
      ensures (before + [add])[i].1 + 1 < (before + [add])[j].0 && (before + [add])[i].0 <= (before + [add])[j].0
    {
      if j == |before| && i < |before| - 1 {
        assert before[i].1 + 1 < before[|before| - 1].0 && before[i].0 <= before[|before| - 1].0;
      }
    }
    forall x ensures InBlocks(before + [add], x) <==> InBlocks(done + [add], x) {
      BlocksSplit(before, add, x);
      BlocksSplit(done, add, x);
    }
  }

  method MergedAuditSpans(spans: seq<Block>) returns (merged: seq<Block>)
    ensures Separated(merged)
    ensures forall x :: InBlocks(merged, x) <==> InBlocks(spans, x)
  {
    hide *;
    var sorted := Sorted(spans, BlockOrder);
    SortedBlocks(spans);
    merged := [];
    NothingMerged();
    assert sorted[..0] == [];
    for i := 0 to |sorted|
      invariant Merged(merged, sorted[..i])
    {
      var start, end := sorted[i].0, sorted[i].1;
      LastDone(merged, sorted[..i]);
      NextBlock(sorted, i);
      if merged != [] && start <= merged[|merged| - 1].1 + 1 {
        MergeIntoLast(merged, sorted[..i], sorted[i]);
        var (lastStart, lastEnd) := merged[|merged| - 1];
        merged := merged[|merged| - 1 := (lastStart, if lastEnd < end then end else lastEnd)];
      } else {
        AppendBlock(merged, sorted[..i], sorted[i]);
        merged := merged + [(start, end)];
      }
    }
    assert sorted[..|sorted|] == sorted;
    MergedMeans(merged, sorted, spans);
  }

  lemma SortedBlocks(spans: seq<Block>)
    ensures Ascending(Sorted(spans, BlockOrder), BlockOrder)
    ensures multiset(Sorted(spans, BlockOrder)) == multiset(spans)
  {
    SortedIsSorted(spans, BlockOrder);
  }

  lemma NextBlock(sorted: seq<Block>, i: nat)
    requires i < |sorted| && Ascending(sorted, BlockOrder)
    ensures sorted[..i + 1] == sorted[..i] + [sorted[i]]
    ensures i > 0 ==> |sorted[..i]| == i && sorted[..i][i - 1].0 <= sorted[i].0
  {
    if i > 0 {
      assert BlockOrder(sorted[i - 1], sorted[i]);
      assert sorted[..i][i - 1] == sorted[i - 1];
    }
  }

  lemma NothingMerged()
    ensures Merged([], [])
  {}

  lemma LastDone(merged: seq<Block>, done: seq<Block>)
    requires Merged(merged, done)
    ensures merged == [] <==> done == []
  {}

  lemma MergedMeans(merged: seq<Block>, sorted: seq<Block>, spans: seq<Block>)
    requires Merged(merged, sorted) && multiset(sorted) == multiset(spans)
    ensures Separated(merged) && forall x :: InBlocks(merged, x) <==> InBlocks(spans, x)
  {
    SameMembers(sorted, spans);
    forall x ensures InBlocks(merged, x) <==> InBlocks(spans, x) {
      assert InBlocks(sorted, x) <==> InBlocks(spans, x);
    }
  }

  /** The lemma the adjacency test exists for: a contiguous run inside the union
      of separated blocks lies inside one block. */
  lemma RunInsideOneBlock(bs: seq<Block>, first: int, last: int)
    requires Separated(bs) && first <= last
    requires forall x :: first <= x <= last ==> InBlocks(bs, x)
    ensures exists b :: b in bs && b.0 <= first && last <= b.1
  {
    assert InBlocks(bs, first);
    var i :| 0 <= i < |bs| && Covers(bs[i], first);
    if bs[i].1 < last {
      HoleAfterBlock(bs, i);
      assert false;
    }
  }

  lemma HoleAfterBlock(bs: seq<Block>, i: nat)
    requires Separated(bs) && i < |bs| && bs[i].0 <= bs[i].1
    ensures !InBlocks(bs, bs[i].1 + 1)
  {
    forall j | 0 <= j < |bs| ensures !Covers(bs[j], bs[i].1 + 1) {
      if j < i { assert bs[j].1 + 1 < bs[i].0; }
      if i < j { assert bs[i].1 + 1 < bs[j].0; }
    }
  }

  // ---------------------------------------------------------- gap scan

  predicate Inside(a: int, x: int, b: int) { a < x < b }

  ghost function Between(a: int, b: int): set<int> { set x | a < x < b && Inside(a, x, b) }

  lemma {:induction false} BetweenSize(a: int, b: int)
    requires a < b
    ensures |Between(a, b)| == b - a - 1
    decreases b - a
  {
    if b == a + 1 {
      assert Between(a, b) == {};
    } else {
      BetweenSize(a, b - 1);
      assert Inside(a, b - 1, b);
      assert forall x :: Inside(a, x, b) <==> Inside(a, x, b - 1) || x == b - 1;
      assert Between(a, b) == Between(a, b - 1) + {b - 1};
    }
  }

  ghost predicate StrictlyAscending(s: seq<int>) { forall i, j :: 0 <= i < j < |s| ==> s[i] < s[j] }

  lemma MissingOfSorted(s: seq<int>)
    requires s != [] && StrictlyAscending(s)
    ensures MissingSet(s) == set x | s[0] <= x <= s[|s| - 1] && x !in s
  {
    assert Least(s) == s[0] by { assert s[0] in s; }
    assert Greatest(s) == s[|s| - 1] by { assert s[|s| - 1] in s; }
  }

  lemma ShorterAscends(s: seq<int>, next: int)
    requires s != [] && StrictlyAscending(s + [next])
    ensures StrictlyAscending(s) && s[|s| - 1] < next
  {
    var t := s + [next];
    assert t[|s| - 1] == s[|s| - 1] && t[|s|] == next;
    forall i, j | 0 <= i < j < |s| ensures s[i] < s[j] { assert t[i] == s[i] && t[j] == s[j]; }
  }

  lemma LastIsGreatest(s: seq<int>, x: int)
    requires s != [] && StrictlyAscending(s) && x in s
    ensures s[0] <= x <= s[|s| - 1]
  {
    var k :| 0 <= k < |s| && s[k] == x;
  }

  lemma MissingAt(s: seq<int>, x: int)
    requires s != [] && StrictlyAscending(s)
    ensures x in MissingSet(s) <==> s[0] <= x <= s[|s| - 1] && x !in s
  {
    MissingOfSorted(s);
    hide MissingSet, StrictlyAscending;
  }

  lemma MissingAppended(s: seq<int>, next: int, x: int)
    requires s != [] && StrictlyAscending(s + [next])
    ensures x in MissingSet(s + [next]) <==> x in MissingSet(s) || x in Between(s[|s| - 1], next)
    ensures x in MissingSet(s) ==> x !in Between(s[|s| - 1], next)
  {
    hide MissingSet, StrictlyAscending;
    ShorterAscends(s, next);
    MissingAt(s, x);
    MissingAt(s + [next], x);
    assert (s + [next])[0] == s[0] && (s + [next])[|s|] == next;
    if x in s { LastIsGreatest(s, x); }
    assert x in s + [next] <==> x in s || x == next;
  }

  lemma MissingExtends(s: seq<int>, next: int)
    requires s != [] && StrictlyAscending(s + [next])
    ensures MissingSet(s + [next]) == MissingSet(s) + Between(s[|s| - 1], next)
    ensures MissingSet(s) !! Between(s[|s| - 1], next)
    ensures |MissingSet(s + [next])| == |MissingSet(s)| + (next - s[|s| - 1] - 1)
  {
    hide *;
    var last := s[|s| - 1];
    ShorterAscends(s, next);
    forall x ensures x in MissingSet(s + [next]) <==> x in MissingSet(s) || x in Between(last, next)
      ensures x in MissingSet(s) ==> x !in Between(last, next)
    {
      MissingAppended(s, next, x);
    }
    assert MissingSet(s + [next]) == MissingSet(s) + Between(last, next);
    BetweenSize(last, next);
  }

  lemma MissingUnaffectedByOrder(s: seq<int>, t: seq<int>)
    requires multiset(s) == multiset(t)
    ensures MissingSet(s) == MissingSet(t)
    ensures NoDuplicates(s) ==> NoDuplicates(t)
  {
    SameMembers(s, t);
    if s != [] {
      assert Least(s) == Least(t);
      assert Greatest(s) == Greatest(t);
    }
    if NoDuplicates(s) {
      forall i, j | 0 <= i < j < |t| ensures t[i] != t[j] {
        if t[i] == t[j] {
          TwiceInMultiset(t, i, j);
          OnceInMultiset(s, t[i]);
        }
      }
    }
  }

  lemma {:induction false} OnceInMultiset(s: seq<int>, x: int)
    requires NoDuplicates(s)
    ensures multiset(s)[x] <= 1
  {
    if s != [] {
      OnceInMultiset(s[1..], x);
      assert s == [s[0]] + s[1..];
      if s[0] == x { assert x !in s[1..]; assert multiset(s[1..])[x] == 0; }
    }
  }

  function SpanBlocks(spans: seq<Span>): seq<Block> {
    seq(|spans|, i requires 0 <= i < |spans| => (spans[i].lo, spans[i].hi))
  }

  lemma AuditedMeansCovered(spans: seq<Span>, x: int)
    ensures Audited(spans, x) <==> InBlocks(SpanBlocks(spans), x)
  {
    var bs := SpanBlocks(spans);
    if Audited(spans, x) {
      var i :| 0 <= i < |spans| && spans[i].lo <= x <= spans[i].hi;
      assert bs[i] in bs && Covers(bs[i], x);
    }
    if InBlocks(bs, x) {
      var i :| 0 <= i < |bs| && Covers(bs[i], x);
      assert spans[i] in spans;
    }
  }

  method SumRows(spans: seq<Span>) returns (total: int)
    ensures total == AuditedTotal(spans)
  {
    total := 0;
    var i := |spans|;
    while i > 0
      invariant 0 <= i <= |spans| && total == AuditedTotal(spans[i..])
    {
      i := i - 1;
      assert spans[i..][1..] == spans[i + 1..];
      total := spans[i].rowsDeleted + total;
    }
    assert spans[0..] == spans;
  }

  /** The scan over the sorted numbers: it refuses at the first duplicate or
      uncovered run, and otherwise returns the size of the missing set. */
  method ScanGaps(seqs: seq<int>, merged: seq<Block>) returns (clean: bool, missingTotal: int)
    requires Ascending(seqs, NumberOrder) && Separated(merged)
    ensures clean <==> NoDuplicates(seqs) && forall x :: x in MissingSet(seqs) ==> InBlocks(merged, x)
    ensures clean ==> missingTotal == |MissingSet(seqs)|
  {
    missingTotal := 0;
    for i := 0 to |seqs|
      invariant StrictlyAscending(seqs[..i])
      invariant missingTotal == |MissingSet(seqs[..i])|
      invariant forall x :: x in MissingSet(seqs[..i]) ==> InBlocks(merged, x)
    {
      if i == 0 {
        FirstNumber(seqs);
      } else {
        if seqs[i] == seqs[i - 1] { return false, missingTotal; }
        NextNumber(seqs, i);
        if seqs[i] > seqs[i - 1] + 1 {
          var runStart, runEnd := seqs[i - 1] + 1, seqs[i] - 1;
          if !exists b :: b in merged && b.0 <= runStart && runEnd <= b.1 {
            UncoveredRun(seqs, i, merged);
            return false, missingTotal;
          }
          CoveredRun(merged, seqs[i - 1], seqs[i]);
          missingTotal := missingTotal + (runEnd - runStart + 1);
        }
      }
    }
    assert seqs[..|seqs|] == seqs;
    return true, missingTotal;
  }

  lemma FirstNumber(seqs: seq<int>)
    requires seqs != []
    ensures StrictlyAscending(seqs[..1]) && MissingSet(seqs[..1]) == {}
  {
    assert seqs[..1] == [seqs[0]];
    MissingOfSorted([seqs[0]]);
  }

  lemma StrictAppend(s: seq<int>, next: int)
    requires s != [] && StrictlyAscending(s) && s[|s| - 1] < next
    ensures StrictlyAscending(s + [next])
  {
    forall k | 0 <= k < |s| ensures s[k] < next {
      if k < |s| - 1 { assert s[k] < s[|s| - 1]; }
    }
  }

  lemma NextAscends(seqs: seq<int>, i: nat)
    requires 0 < i < |seqs| && Ascending(seqs, NumberOrder) && StrictlyAscending(seqs[..i])
    requires seqs[i - 1] != seqs[i]
    ensures seqs[i - 1] < seqs[i] && StrictlyAscending(seqs[..i] + [seqs[i]])
  {
    assert NumberOrder(seqs[i - 1], seqs[i]);
    StrictAppend(seqs[..i], seqs[i]);
  }

  lemma NothingBetween(last: int)
    ensures Between(last, last + 1) == {}
  {}

  lemma NextNumber(seqs: seq<int>, i: nat)
    requires 0 < i < |seqs| && Ascending(seqs, NumberOrder) && StrictlyAscending(seqs[..i])
    requires seqs[i - 1] != seqs[i]
    ensures seqs[i - 1] < seqs[i] && StrictlyAscending(seqs[..i + 1])
    ensures forall x :: x in MissingSet(seqs[..i + 1]) ==>
              x in MissingSet(seqs[..i]) || x in Between(seqs[i - 1], seqs[i])
    ensures |MissingSet(seqs[..i + 1])| == |MissingSet(seqs[..i])| + (seqs[i] - seqs[i - 1] - 1)
    ensures seqs[i] == seqs[i - 1] + 1 ==> MissingSet(seqs[..i + 1]) == MissingSet(seqs[..i])
  {
    hide *;
    NextAscends(seqs, i);
    NothingBetween(seqs[i - 1]);
    assert seqs[..i + 1] == seqs[..i] + [seqs[i]];
    MissingExtends(seqs[..i], seqs[i]);
  }

  /** True exactly when every missing number is audited and the audited row
      count can hold the loss; no assumption on the spans is needed. */
  method SessionGapIsExplained(rows: seq<int>, spans: seq<Span>) returns (explained: bool)
    ensures explained <==> Explained(rows, spans)
  {
    if spans == [] { return false; }
    var seqs := Sorted(rows, NumberOrder);
    SortedIsSorted(rows, NumberOrder);
    MissingUnaffectedByOrder(rows, seqs);
    MissingUnaffectedByOrder(seqs, rows);
    var merged := MergedAuditSpans(SpanBlocks(spans));
    forall x ensures Audited(spans, x) <==> InBlocks(merged, x) { AuditedMeansCovered(spans, x); }
    var auditedTotal := SumRows(spans);
    var clean, missingTotal := ScanGaps(seqs, merged);
    return clean && missingTotal <= auditedTotal;
  }

  lemma CoveredRun(merged: seq<Block>, before: int, after: int)
    requires exists b :: b in merged && b.0 <= before + 1 && after - 1 <= b.1
    ensures forall x :: x in Between(before, after) ==> InBlocks(merged, x)
  {
    var b :| b in merged && b.0 <= before + 1 && after - 1 <= b.1;
    forall x | x in Between(before, after) ensures InBlocks(merged, x) { assert Covers(b, x); }
  }

  lemma UncoveredRun(seqs: seq<int>, i: int, merged: seq<Block>)
    requires 0 < i < |seqs| && Ascending(seqs, NumberOrder) && Separated(merged)
    requires seqs[i - 1] + 1 < seqs[i]
    requires !exists b :: b in merged && b.0 <= seqs[i - 1] + 1 && seqs[i] - 1 <= b.1
    ensures exists x :: x in MissingSet(seqs) && !InBlocks(merged, x)
  {
    var runStart, runEnd := seqs[i - 1] + 1, seqs[i] - 1;
    if forall x :: runStart <= x <= runEnd ==> InBlocks(merged, x) {
      RunInsideOneBlock(merged, runStart, runEnd);
      assert false;
    }
    var x :| runStart <= x <= runEnd && !InBlocks(merged, x);
    forall k | 0 <= k < |seqs| ensures seqs[k] != x {
      if k < i - 1 { assert NumberOrder(seqs[k], seqs[i - 1]); }
      if k > i { assert NumberOrder(seqs[i], seqs[k]); }
    }
    assert seqs[i - 1] in seqs && seqs[i] in seqs;
    assert x in MissingSet(seqs);
  }

  // ------------------------------------------------- the SQL gap condition

  /** `HAVING COUNT(*) != MAX - MIN + 1 OR COUNT(*) != COUNT(DISTINCT)`; a
      session without rows forms no group. */
  ghost predicate Flagged(rows: seq<int>) {
    rows != [] && (|rows| != Greatest(rows) - Least(rows) + 1 || |rows| != |Values(rows)|)
  }

  lemma {:induction false} DistinctCount(s: seq<int>)
    ensures |Values(s)| <= |s|
    ensures |Values(s)| == |s| <==> NoDuplicates(s)
  {
    if s == [] {
      assert Values(s) == {};
    } else {
      DistinctCount(s[1..]);
      DuplicateFreeCons(s);
      assert s == [s[0]] + s[1..];
      if s[0] in s[1..] {
        assert Values(s) == Values(s[1..]);
      } else {
        assert Values(s) == {s[0]} + Values(s[1..]);
      }
    }
  }

  lemma DuplicateFreeCons(s: seq<int>)
    requires s != []
    ensures NoDuplicates(s) <==> NoDuplicates(s[1..]) && s[0] !in s[1..]
  {
    var rest := s[1..];
    if NoDuplicates(s) {
      forall k | 0 <= k < |rest| ensures rest[k] != s[0] { assert s[0] != s[k + 1]; }
      forall i, j | 0 <= i < j < |rest| ensures rest[i] != rest[j] { assert s[i + 1] != s[j + 1]; }
    }
    if NoDuplicates(rest) && s[0] !in rest {
      forall i, j | 0 <= i < j < |s| ensures s[i] != s[j] { assert s[j] == rest[j - 1]; }
    }
  }

  /** Pigeonhole: the aggregate condition flags a session exactly when its
      numbers are not each of min..max once. */
  lemma FlaggedMeansNotContiguous(rows: seq<int>)
    requires rows != []
    ensures Flagged(rows) <==> !(NoDuplicates(rows) && MissingSet(rows) == {})
  {
    DistinctCount(rows);
    var lo, hi := Least(rows), Greatest(rows);
    BetweenSize(lo - 1, hi + 1);
    var range := Between(lo - 1, hi + 1);
    assert forall x :: x in range ==> Inside(lo - 1, x, hi + 1);
    assert Values(rows) !! MissingSet(rows);
    forall x | lo <= x <= hi ensures x in range { assert Inside(lo - 1, x, hi + 1); }
    assert range == Values(rows) + MissingSet(rows);
    assert |range| == |Values(rows)| + |MissingSet(rows)|;
  }

  // -------------------------------------------------- the review verdict

  datatype Session = Session(id: int, rows: seq<int>, startedAt: int, started: bool, spans: seq<Span>)

  /** Spans stamped before the session began are residue and are discarded. */
  function LifetimeSpans(s: Session): seq<Span> {
    if s.started then Since(s.spans, s.startedAt) else s.spans
  }

  function Since(spans: seq<Span>, startedAt: int): seq<Span> {
    if spans == [] then [] else
      (if spans[0].performedAt >= startedAt then [spans[0]] else []) + Since(spans[1..], startedAt)
  }

  lemma {:induction false} SinceKeeps(spans: seq<Span>, startedAt: int)
    ensures forall sp :: sp in Since(spans, startedAt) <==> sp in spans && sp.performedAt >= startedAt
  {
    if spans != [] {
      SinceKeeps(spans[1..], startedAt);
      assert spans == [spans[0]] + spans[1..];
    }
  }

  /** The span belongs to this session and not to one an earlier erase left it from. */
  predicate OfLifetime(s: Session, sp: Span) { s.started ==> sp.performedAt >= s.startedAt }

  lemma {:induction false} SinceCounts(spans: seq<Span>, startedAt: int, sp: Span)
    ensures multiset(Since(spans, startedAt))[sp] == if sp.performedAt >= startedAt then multiset(spans)[sp] else 0
  {
    if spans != [] {
      SinceCounts(spans[1..], startedAt, sp);
      assert spans == [spans[0]] + spans[1..];
    }
  }

  /** Every span of the session's lifetime is kept, as often as it is there, and no
      other. */
  lemma LifetimeKeeps(s: Session)
    ensures forall sp :: sp in LifetimeSpans(s) <==> sp in s.spans && OfLifetime(s, sp)
    ensures forall sp :: multiset(LifetimeSpans(s))[sp] == if OfLifetime(s, sp) then multiset(s.spans)[sp] else 0
  {
    SinceKeeps(s.spans, s.startedAt);
    forall sp ensures multiset(LifetimeSpans(s))[sp] == if OfLifetime(s, sp) then multiset(s.spans)[sp] else 0 {
      SinceCounts(s.spans, s.startedAt, sp);
    }
  }

  /** The session keeps the run in REVIEW. */
  ghost predicate NeedsReview(s: Session) { Flagged(s.rows) && !Explained(s.rows, LifetimeSpans(s)) }

  /** What is said of a flagged session: its gap is explained, or it is not. */
  ghost predicate Said(s: Session, explained: bool) {
    Flagged(s.rows) && (explained <==> Explained(s.rows, LifetimeSpans(s)))
  }

  /** `ids` names, in session order, exactly the sessions at `picks`, and those are
      exactly the flagged ones whose gap is explained, or is not. */
  ghost predicate Picks(picks: seq<nat>, ids: seq<int>, sessions: seq<Session>, explained: bool) {
    && |picks| == |ids|
    && (forall m :: 0 <= m < |picks| ==> picks[m] < |sessions| && sessions[picks[m]].id == ids[m])
    && (forall m, n :: 0 <= m < n < |picks| ==> picks[m] < picks[n])
    && (forall k :: 0 <= k < |sessions| ==> (k in picks <==> Said(sessions[k], explained)))
  }

  ghost predicate Listed(ids: seq<int>, sessions: seq<Session>, explained: bool) {
    exists picks: seq<nat> :: Picks(picks, ids, sessions, explained)
  }

  lemma NothingPicked(explained: bool)
    ensures Picks([], [], [], explained)
  {}

  lemma PicksStep(picks: seq<nat>, ids: seq<int>, sessions: seq<Session>, next: Session, explained: bool)
    requires Picks(picks, ids, sessions, explained)
    ensures if Said(next, explained) then Picks(picks + [|sessions|], ids + [next.id], sessions + [next], explained)
            else Picks(picks, ids, sessions + [next], explained)
  {
    hide Said;
    var all := sessions + [next];
    forall k | 0 <= k < |sessions| ensures k in picks <==> Said(all[k], explained) { assert all[k] == sessions[k]; }
    assert |sessions| !in picks;
    forall k | 0 <= k < |all|
      ensures k in picks + [|sessions|] <==> k in picks || k == |sessions|
    {}
  }

  /** An id is listed exactly when some session of that id has the verdict. */
  lemma ListedMeans(ids: seq<int>, sessions: seq<Session>, explained: bool)
    requires Listed(ids, sessions, explained)
    ensures forall id :: id in ids <==> exists k :: 0 <= k < |sessions| && sessions[k].id == id && Said(sessions[k], explained)
  {
    hide Said;
    var picks: seq<nat> :| Picks(picks, ids, sessions, explained);
    forall id ensures id in ids <==> exists k :: 0 <= k < |sessions| && sessions[k].id == id && Said(sessions[k], explained) {
      if id in ids {
        var m :| 0 <= m < |ids| && ids[m] == id;
        assert picks[m] in picks && sessions[picks[m]].id == id;
      }
      if exists k :: 0 <= k < |sessions| && sessions[k].id == id && Said(sessions[k], explained) {
        var k :| 0 <= k < |sessions| && sessions[k].id == id && Said(sessions[k], explained);
        assert k in picks;
        var m :| 0 <= m < |picks| && picks[m] == k;
        assert ids[m] == id;
      }
    }
  }

  method ComputeFlag(rows: seq<int>) returns (flagged: bool)
    ensures flagged <==> Flagged(rows)
  {
    if rows == [] { return false; }
    var distinct: set<int> := {};
    for i := 0 to |rows|
      invariant distinct == Values(rows[..i])
    {
      assert rows[..i + 1] == rows[..i] + [rows[i]];
      distinct := distinct + {rows[i]};
    }
    assert rows[..|rows|] == rows;
    return |rows| != Greatest(rows) - Least(rows) + 1 || |rows| != |distinct|;
  }

  /** The split of flagged sessions in `review_database`, in session order. */
  method ReviewSessions(sessions: seq<Session>) returns (unexplained: seq<int>, explained: seq<int>)
    ensures Listed(unexplained, sessions, false) && Listed(explained, sessions, true)
    ensures forall id :: id in unexplained <==> exists k :: 0 <= k < |sessions| && sessions[k].id == id && Said(sessions[k], false)
    ensures forall id :: id in explained <==> exists k :: 0 <= k < |sessions| && sessions[k].id == id && Said(sessions[k], true)
  {
    hide Picks, Listed, LifetimeSpans, Flagged, Explained;
    unexplained, explained := [], [];
    ghost var open: seq<nat>, closed: seq<nat> := [], [];
    NothingPicked(false);
    NothingPicked(true);
    assert sessions[..0] == [];
    for i := 0 to |sessions|
      invariant Picks(open, unexplained, sessions[..i], false) && Picks(closed, explained, sessions[..i], true)
    {
      assert sessions[..i + 1] == sessions[..i] + [sessions[i]] && |sessions[..i]| == i;
      var session := sessions[i];
      PicksStep(open, unexplained, sessions[..i], session, false);
      PicksStep(closed, explained, sessions[..i], session, true);
      var flagged := ComputeFlag(session.rows);
      if flagged {
        var ok := SessionGapIsExplained(session.rows, LifetimeSpans(session));
        if ok {
          explained, closed := explained + [session.id], closed + [i];
        } else {
          unexplained, open := unexplained + [session.id], open + [i];
        }
      }
    }
    assert sessions[..|sessions|] == sessions;
    PicksList(open, unexplained, sessions, false);
    PicksList(closed, explained, sessions, true);
    ListedMeans(unexplained, sessions, false);
    ListedMeans(explained, sessions, true);
  }

  lemma PicksList(picks: seq<nat>, ids: seq<int>, sessions: seq<Session>, explained: bool)
    requires Picks(picks, ids, sessions, explained)
    ensures Listed(ids, sessions, explained)
  {}

  ghost predicate DistinctIds(sessions: seq<Session>) {
    forall i, j :: 0 <= i < j < |sessions| ==> sessions[i].id != sessions[j].id
  }

  /** Where ids are distinct, a session that needs review is reported as unexplained
      and never as explained, and any other is not reported as unexplained. */
  lemma ReportedIff(sessions: seq<Session>, unexplained: seq<int>, explained: seq<int>, k: nat)
    requires Listed(unexplained, sessions, false) && Listed(explained, sessions, true) && DistinctIds(sessions) && k < |sessions|
    ensures NeedsReview(sessions[k]) <==> sessions[k].id in unexplained
    ensures NeedsReview(sessions[k]) ==> sessions[k].id !in explained
    ensures sessions[k].id in explained <==> Flagged(sessions[k].rows) && !NeedsReview(sessions[k])
  {
    ListedMeans(unexplained, sessions, false);
    ListedMeans(explained, sessions, true);
    hide Listed, LifetimeSpans, Flagged, Explained;
    var id := sessions[k].id;
    if id in unexplained {
      var i :| 0 <= i < |sessions| && sessions[i].id == id && Said(sessions[i], false);
      assert i == k;
    }
    if id in explained {
      var i :| 0 <= i < |sessions| && sessions[i].id == id && Said(sessions[i], true);
      assert i == k;
    }
    if NeedsReview(sessions[k]) { assert Said(sessions[k], false); }
    if Flagged(sessions[k].rows) && !NeedsReview(sessions[k]) { assert Said(sessions[k], true); }
  }

  /** A number lost inside the observed range but outside every audited span of
      the session's lifetime always reads as REVIEW, and is reported. */
  lemma LostRowNeedsReview(sessions: seq<Session>, unexplained: seq<int>, explained: seq<int>, k: nat, x: int)
    requires Listed(unexplained, sessions, false) && Listed(explained, sessions, true) && DistinctIds(sessions) && k < |sessions|
    requires x in MissingSet(sessions[k].rows)
    requires forall sp | sp in sessions[k].spans :: OfLifetime(sessions[k], sp) ==> !(sp.lo <= x <= sp.hi)
    ensures NeedsReview(sessions[k]) && sessions[k].id in unexplained && sessions[k].id !in explained
  {
    FlaggedMeansNotContiguous(sessions[k].rows);
    LifetimeKeeps(sessions[k]);
    ReportedIff(sessions, unexplained, explained, k);
  }

  /** So does a loss larger than the audited deletions, however wide the spans. */
  lemma OversizedLossNeedsReview(sessions: seq<Session>, unexplained: seq<int>, explained: seq<int>, k: nat)
    requires Listed(unexplained, sessions, false) && Listed(explained, sessions, true) && DistinctIds(sessions) && k < |sessions|
    requires sessions[k].rows != [] && |MissingSet(sessions[k].rows)| > AuditedTotal(LifetimeSpans(sessions[k])) >= 0
    ensures NeedsReview(sessions[k]) && sessions[k].id in unexplained && sessions[k].id !in explained
  {
    FlaggedMeansNotContiguous(sessions[k].rows);
    ReportedIff(sessions, unexplained, explained, k);
  }

  // --------------------------------------------- histories of one session

  /** What Gilbreth itself does to a session's rows: append the next number, or
      delete some live rows and record the deletion. */
  datatype Op = Write | Delete(victims: seq<int>, at: int)

  datatype History = History(live: set<int>, next: int, audits: seq<Span>)

  /** A deletion removes live rows only, at least one, after the session start. */
  ghost predicate Allowed(h: History, op: Op, startedAt: int) {
    op.Delete? ==>
      && op.victims != [] && NoDuplicates(op.victims)
      && Values(op.victims) <= h.live && op.at >= startedAt
  }

  ghost function Apply(h: History, op: Op, startedAt: int): History
    requires Allowed(h, op, startedAt)
  {
    match op
    case Write => h.(live := h.live + {h.next}, next := h.next + 1)
    case Delete(victims, at) =>
      h.(live := h.live - Values(victims),
         audits := h.audits + [Span(Least(victims), Greatest(victims), at, |victims|)])
  }

  ghost predicate IsRun(states: seq<History>, ops: seq<Op>, startedAt: int) {
    && |states| == |ops| + 1
    && states[0].live == {} && states[0].audits == []
    && forall i :: 0 <= i < |ops| ==>
         Allowed(states[i], ops[i], startedAt) && states[i + 1] == Apply(states[i], ops[i], startedAt)
  }

  ghost predicate Accounted(h: History, first: int, startedAt: int) {
    && first <= h.next
    && (forall x :: x in h.live ==> first <= x < h.next)
    && (forall x :: first <= x < h.next && x !in h.live ==> Audited(h.audits, x))
    && h.next - first == |h.live| + AuditedTotal(h.audits)
    && (forall sp :: sp in h.audits ==> sp.performedAt >= startedAt)
  }

  lemma {:induction false} AuditedTotalAppend(spans: seq<Span>, sp: Span)
    ensures AuditedTotal(spans + [sp]) == AuditedTotal(spans) + sp.rowsDeleted
  {
    if spans != [] {
      assert (spans + [sp])[1..] == spans[1..] + [sp];
      AuditedTotalAppend(spans[1..], sp);
    }
  }

  lemma ApplyKeepsAccount(h: History, op: Op, first: int, startedAt: int)
    requires Accounted(h, first, startedAt) && Allowed(h, op, startedAt)
    ensures Accounted(Apply(h, op, startedAt), first, startedAt)
  {
    match op
    case Write =>
      assert h.next !in h.live;
    case Delete(victims, at) =>
      DeletionCounts(h.live, victims);
      AuditedTotalAppend(h.audits, Span(Least(victims), Greatest(victims), at, |victims|));
      forall x | first <= x < h.next && x !in Apply(h, op, startedAt).live
        ensures Audited(Apply(h, op, startedAt).audits, x)
      {
        if x in h.live { assert x in Values(victims); }
        DeletionAudited(h.audits, victims, at, x);
      }
  }

  lemma DeletionCounts(live: set<int>, victims: seq<int>)
    requires Values(victims) <= live && NoDuplicates(victims)
    ensures |live - Values(victims)| == |live| - |victims|
  {
    DistinctCount(victims);
    assert (live - Values(victims)) + Values(victims) == live;
  }

  lemma DeletionAudited(audits: seq<Span>, victims: seq<int>, at: int, x: int)
    requires victims != [] && (x in victims || Audited(audits, x))
    ensures Audited(audits + [Span(Least(victims), Greatest(victims), at, |victims|)], x)
  {
    var sp := Span(Least(victims), Greatest(victims), at, |victims|);
    assert sp in audits + [sp];
    if x !in victims {
      var earlier :| earlier in audits && earlier.lo <= x <= earlier.hi;
      assert earlier in audits + [sp];
    }
  }

  lemma {:induction false} RunAccounted(states: seq<History>, ops: seq<Op>, startedAt: int)
    requires IsRun(states, ops, startedAt)
    ensures Accounted(states[|ops|], states[0].next, startedAt)
  {
    if ops != [] {
      var n := |ops| - 1;
      RunAccounted(states[..|ops|], ops[..n], startedAt);
      ApplyKeepsAccount(states[n], ops[n], states[0].next, startedAt);
    }
  }

  lemma {:induction false} SinceAll(spans: seq<Span>, startedAt: int)
    requires forall sp :: sp in spans ==> sp.performedAt >= startedAt
    ensures Since(spans, startedAt) == spans
  {
    if spans != [] {
      assert spans == [spans[0]] + spans[1..];
      SinceAll(spans[1..], startedAt);
    }
  }

  lemma {:induction false} SinceNone(residue: seq<Span>, spans: seq<Span>, startedAt: int)
    requires forall sp :: sp in residue ==> sp.performedAt < startedAt
    ensures Since(residue + spans, startedAt) == Since(spans, startedAt)
  {
    if residue == [] {
      assert residue + spans == spans;
    } else {
      assert (residue + spans)[1..] == residue[1..] + spans;
      SinceNone(residue[1..], spans, startedAt);
    }
  }

  /** Recorded deletions never put a session in REVIEW: after any history of
      contiguous writes and audited deletions, in whatever order the surviving rows
      are read back and whatever spans an erased database has left behind. */
  lemma HonestSessionIsExplained(states: seq<History>, ops: seq<Op>, s: Session, residue: seq<Span>)
    requires IsRun(states, ops, s.startedAt)
    requires NoDuplicates(s.rows) && Values(s.rows) == states[|ops|].live
    requires s.spans == residue + states[|ops|].audits
    requires (residue != [] ==> s.started) && forall sp :: sp in residue ==> sp.performedAt < s.startedAt
    ensures !NeedsReview(s)
  {
    var h, first := states[|ops|], states[0].next;
    RunAccounted(states, ops, s.startedAt);
    ResidueGoes(s, residue, h.audits);
    hide LifetimeSpans, Flagged, Explained, IsRun, Accounted;
    AccountedExplains(h, first, s.startedAt, s.rows);
  }

  lemma ResidueGoes(s: Session, residue: seq<Span>, audits: seq<Span>)
    requires s.spans == residue + audits && (forall sp :: sp in audits ==> sp.performedAt >= s.startedAt)
    requires (residue != [] ==> s.started) && forall sp :: sp in residue ==> sp.performedAt < s.startedAt
    ensures LifetimeSpans(s) == audits
  {
    if s.started {
      SinceNone(residue, audits, s.startedAt);
      SinceAll(audits, s.startedAt);
    } else {
      assert residue + audits == audits;
    }
  }

  lemma AccountedExplains(h: History, first: int, startedAt: int, rows: seq<int>)
    requires Accounted(h, first, startedAt) && NoDuplicates(rows) && Values(rows) == h.live
    ensures Flagged(rows) ==> Explained(rows, h.audits)
  {
    if Flagged(rows) {
      FlaggedMeansNotContiguous(rows);
      var missing := MissingSet(rows);
      assert Least(rows) in h.live && Greatest(rows) in h.live;
      assert forall x :: x in missing ==> first <= x < h.next && x !in h.live by {
        assert forall x :: x in missing ==> x !in Values(rows);
      }
      assert |missing| <= AuditedTotal(h.audits) by { GoneFits(missing, h.live, first, h.next); }
      var x :| x in missing;
      assert Audited(h.audits, x);
    }
  }

  /** So among sessions of distinct ids such a session is never reported as unexplained. */
  lemma HonestHistoryIsNeverReviewed(sessions: seq<Session>, unexplained: seq<int>, explained: seq<int>, k: nat,
                                     states: seq<History>, ops: seq<Op>, residue: seq<Span>)
    requires Listed(unexplained, sessions, false) && Listed(explained, sessions, true) && DistinctIds(sessions) && k < |sessions|
    requires var s := sessions[k];
      && IsRun(states, ops, s.startedAt) && NoDuplicates(s.rows) && Values(s.rows) == states[|ops|].live
      && s.spans == residue + states[|ops|].audits
      && (residue != [] ==> s.started) && forall sp :: sp in residue ==> sp.performedAt < s.startedAt
    ensures sessions[k].id !in unexplained
  {
    HonestSessionIsExplained(states, ops, sessions[k], residue);
    ReportedIff(sessions, unexplained, explained, k);
  }

  lemma GoneFits(missing: set<int>, live: set<int>, first: int, next: int)
    requires forall x :: x in missing ==> first <= x < next && x !in live
    requires forall x :: x in live ==> first <= x < next
    requires first <= next
    ensures |missing| <= next - first - |live|
  {
    var range := Between(first - 1, next);
    BetweenSize(first - 1, next);
    assert forall x :: x in missing ==> Inside(first - 1, x, next);
    assert forall x :: x in live ==> Inside(first - 1, x, next);
    SubsetSize(missing + live, range);
    assert |missing + live| == |missing| + |live|;
  }

  lemma {:induction false} SubsetSize(a: set<int>, b: set<int>)
    requires a <= b
    ensures |a| <= |b|
  {
    assert a + (b - a) == b;
  }
}
