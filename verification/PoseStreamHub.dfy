/**
 The pose stream hub: one producer appends samples, gap markers and session boundaries to a
 bounded ring; any number of consumers read it through private cursors.

 Every stretch of code that runs under the producer mutex is one atomic step. What the producer
 publishes while a drain has released the mutex is a parameter of the drain (`traffic`), one
 batch of publications per release, so every contract here holds for every interleaving.
 */
module PoseStreamHub {

  datatype PoseSample = PoseSample(deviceId: nat, sampleTimeQpc: int)

  const NO_SAMPLE := PoseSample(0, 0)
  const PASS_LIMIT := 64

  datatype HistoryEntry = HistoryEntry(
    sample: PoseSample, sourceDropCountBefore: nat, sampleCountBefore: nat, hasSample: bool)

  datatype ConsumerCursor = ConsumerCursor(
    historyPosition: nat, samplePosition: nat, sourceDropPosition: nat,
    holeSize: nat, holeHasBoundary: bool)

  datatype Hole = Hole(size: nat, sessionBoundary: bool)

  datatype DrainSummary = DrainSummary(loss: nat, largestGap: nat, gaps: nat)

  // ---------------------------------------------------------------------------
  // The unbounded log the ring is a window of
  // ---------------------------------------------------------------------------

  datatype Publication = Sample(sample: PoseSample) | Gap(count: nat) | Boundary {
    /** What the producer may publish: gaps have a count. */
    predicate Publishable() {
      Gap? ==> count > 0
    }

    /** What the publication adds to the cumulative source-drop count. */
    function Drop(): nat {
      match this
      case Sample(_) => 0
      case Gap(n) => n
      case Boundary => 1
    }
  }

  /** Samples among the first `n` publications. */
  ghost function SamplesIn(log: seq<Publication>, n: nat): nat
    requires n <= |log|
  {
    if n == 0 then 0 else SamplesIn(log, n - 1) + (if log[n - 1].Sample? then 1 else 0)
  }

  /** Poses the source reported lost in the first `n` publications. */
  ghost function DropsIn(log: seq<Publication>, n: nat): nat
    requires n <= |log|
  {
    if n == 0 then 0 else DropsIn(log, n - 1) + log[n - 1].Drop()
  }

  /** The ring entry that records publication `i`. */
  ghost function EntryAt(log: seq<Publication>, i: nat): HistoryEntry
    requires i < |log|
  {
    HistoryEntry(if log[i].Sample? then log[i].sample else NO_SAMPLE,
                 DropsIn(log, i + 1), SamplesIn(log, i), log[i].Sample?)
  }

  ghost function Oldest(capacity: nat, head: nat): nat {
    if head > capacity then head - capacity else 0
  }

  ghost predicate RingHolds(ring: seq<HistoryEntry>, log: seq<Publication>) {
    && |ring| > 0
    && forall i :: Oldest(|ring|, |log|) <= i < |log| ==> ring[i % |ring|] == EntryAt(log, i)
  }

  ghost predicate BoundaryBetween(log: seq<Publication>, from: nat, to: nat)
    requires to <= |log|
  {
    exists i :: from <= i < to && log[i].Boundary?
  }

  ghost predicate AllPublishable(log: seq<Publication>) {
    forall i :: 0 <= i < |log| ==> log[i].Publishable()
  }

  ghost function Run(first: nat, n: nat): (r: seq<nat>)
    ensures |r| == n
  {
    if n == 0 then [] else Run(first, n - 1) + [first + n - 1]
  }

  // ---------------------------------------------------------------------------
  // What a consumer has been told, kept beside its cursor
  // ---------------------------------------------------------------------------

  /**
   `delivered` are the log positions of every sample handed to the consumer; `lost` every loss
   returned to it; `discarded` what a boundary or the consumer itself threw away uncounted.
   `anchor` is the position after the last delivered sample (or of the last discard),
   `openLoss` the loss returned since, and `openDiscard` what a boundary threw away since.
   */
  datatype Ledger = Ledger(
    start: nat, delivered: seq<nat>, lost: nat, discarded: nat,
    anchor: nat, openLoss: nat, openDiscard: nat)

  /** Increasing positions of real samples: a duplicate-free, ordered subsequence of the log. */
  ghost predicate InOrder(log: seq<Publication>, delivered: seq<nat>, from: nat, to: nat) {
    |delivered| == 0 ||
    var last := delivered[|delivered| - 1];
    && from <= last < to && last < |log| && log[last].Sample?
    && InOrder(log, delivered[..|delivered| - 1], from, last)
  }

  ghost predicate CursorOk(log: seq<Publication>, c: ConsumerCursor, l: Ledger) {
    && l.start <= l.anchor <= c.historyPosition <= |log|
    && c.samplePosition == SamplesIn(log, c.historyPosition)
    && DropsIn(log, l.anchor) <= c.sourceDropPosition
    && (c.historyPosition < |log| ==>
         c.sourceDropPosition <= DropsIn(log, c.historyPosition + 1))
    && (c.historyPosition == |log| ==> c.sourceDropPosition == DropsIn(log, |log|))
    && InOrder(log, l.delivered, l.start, l.anchor)
       // Conservation: everything between the consumer's creation and its cursor is delivered,
       // returned as loss, or was discarded.
    && |l.delivered| + l.lost + l.discarded + SamplesIn(log, l.start) + DropsIn(log, l.start)
       == c.samplePosition + c.sourceDropPosition
       // The open hole.
    && c.holeSize == l.openLoss
    && l.openLoss + l.openDiscard + SamplesIn(log, l.anchor) + DropsIn(log, l.anchor)
       == c.samplePosition + c.sourceDropPosition
    && (c.holeHasBoundary <==> BoundaryBetween(log, l.anchor, |log|))
    && (!c.holeHasBoundary ==> l.openDiscard == 0)
    && (forall i :: c.historyPosition < i < |log| ==> !log[i].Boundary?)
  }

  /** A loss returned to the consumer. */
  ghost function Lose(l: Ledger, loss: nat): Ledger {
    l.(lost := l.lost + loss, openLoss := l.openLoss + loss)
  }

  /** The sample at `at` handed to the consumer, which closes the open hole. */
  ghost function Deliver(l: Ledger, at: nat): Ledger {
    l.(delivered := l.delivered + [at], anchor := at + 1, openLoss := 0, openDiscard := 0)
  }

  /** What a step of the producer may do to a consumer: nothing, or a boundary moves it on. */
  ghost predicate LeftAlone(c0: ConsumerCursor, l0: Ledger, c: ConsumerCursor, l: Ledger,
                            headBefore: nat)
  {
    || (c == c0 && l == l0)
    || (&& c.historyPosition >= headBefore
        && l == l0.(discarded := l.discarded, openDiscard := l.openDiscard))
  }

  // ---------------------------------------------------------------------------
  // Prefix counts
  // ---------------------------------------------------------------------------

  lemma {:induction false} CountsOfPrefix(log: seq<Publication>, more: seq<Publication>, n: nat)
    requires n <= |log|
    ensures SamplesIn(log + more, n) == SamplesIn(log, n)
    ensures DropsIn(log + more, n) == DropsIn(log, n)
  {
    if n > 0 {
      CountsOfPrefix(log, more, n - 1);
      assert (log + more)[n - 1] == log[n - 1];
    }
  }

  lemma {:induction false} CountsGrow(log: seq<Publication>, m: nat, n: nat)
    requires m <= n <= |log|
    ensures SamplesIn(log, m) <= SamplesIn(log, n)
    ensures DropsIn(log, m) <= DropsIn(log, n)
    decreases n
  {
    if m < n {
      CountsGrow(log, m, n - 1);
    }
  }

  lemma SlotsDiffer(i: nat, j: nat, n: nat)
    requires n > 0 && 0 < j - i < n
    ensures i % n != j % n
  {
    if i % n == j % n {
      var p, q := i / n, j / n;
      assert i == n * p + i % n && j == n * q + j % n;
      assert j - i == n * (q - p);
      MultipleIsFar(n, q - p);
    }
  }

  lemma MultipleIsFar(n: nat, k: int)
    requires n > 0
    ensures n * k <= 0 || n * k >= n
  {
  }

  /** Overwriting one slot with the next entry keeps the window. */
  lemma RingAppend(ring: seq<HistoryEntry>, log: seq<Publication>, p: Publication)
    requires RingHolds(ring, log)
    ensures RingHolds(ring[|log| % |ring| := EntryAt(log + [p], |log|)], log + [p])
  {
    var log' := log + [p];
    var ring' := ring[|log| % |ring| := EntryAt(log', |log|)];
    forall i | Oldest(|ring'|, |log'|) <= i < |log'|
      ensures ring'[i % |ring'|] == EntryAt(log', i)
    {
      if i < |log| {
        SlotsDiffer(i, |log|, |ring|);
        CountsOfPrefix(log, [p], i);
        CountsOfPrefix(log, [p], i + 1);
      }
    }
  }

  lemma {:induction false} InOrderGrows(log: seq<Publication>, more: seq<Publication>,
                                        delivered: seq<nat>, from: nat, to: nat)
    requires InOrder(log, delivered, from, to)
    ensures InOrder(log + more, delivered, from, to)
    decreases |delivered|
  {
    if |delivered| > 0 {
      var last := delivered[|delivered| - 1];
      assert (log + more)[last] == log[last];
      InOrderGrows(log, more, delivered[..|delivered| - 1], from, last);
    }
  }

  /** What the recursive order means. */
  lemma {:induction false} InOrderMeans(log: seq<Publication>, delivered: seq<nat>, from: nat, to: nat)
    requires InOrder(log, delivered, from, to)
    ensures forall k :: 0 <= k < |delivered| ==>
              from <= delivered[k] < to && delivered[k] < |log| && log[delivered[k]].Sample?
    ensures forall j, k :: 0 <= j < k < |delivered| ==> delivered[j] < delivered[k]
    decreases |delivered|
  {
    if |delivered| > 0 {
      var n := |delivered| - 1;
      InOrderMeans(log, delivered[..n], from, delivered[n]);
      assert forall k :: 0 <= k < n ==> delivered[..n][k] == delivered[k];
    }
  }

  lemma RingRead(ring: seq<HistoryEntry>, log: seq<Publication>, i: nat)
    requires RingHolds(ring, log) && Oldest(|ring|, |log|) <= i < |log|
    ensures ring[i % |ring|] == EntryAt(log, i)
  {
  }

  /** A sample or a gap appended ahead leaves a cursor's books in order. */
  lemma CursorAppend(log: seq<Publication>, p: Publication, c: ConsumerCursor, l: Ledger)
    requires CursorOk(log, c, l) && !p.Boundary?
    ensures CursorOk(log + [p], c, l)
  {
    var log' := log + [p];
    CountsOfPrefix(log, [p], c.historyPosition);
    CountsOfPrefix(log, [p], l.anchor);
    CountsOfPrefix(log, [p], l.start);
    CountsOfPrefix(log, [p], |log|);
    if c.historyPosition < |log| {
      CountsOfPrefix(log, [p], c.historyPosition + 1);
    }
    InOrderGrows(log, [p], l.delivered, l.start, l.anchor);
    assert forall i :: 0 <= i < |log| ==> log'[i] == log[i];
  }

  /** A boundary throws the backlog away, uncounted. */
  ghost function DiscardAt(log: seq<Publication>, c: ConsumerCursor, l: Ledger): Ledger
    requires CursorOk(log, c, l)
  {
    CountsGrow(log, c.historyPosition, |log|);
    CountsGrow(log, if c.historyPosition < |log| then c.historyPosition + 1 else |log|, |log|);
    var thrown := SamplesIn(log, |log|) - c.samplePosition + DropsIn(log, |log|) - c.sourceDropPosition;
    l.(discarded := l.discarded + thrown, openDiscard := l.openDiscard + thrown)
  }

  lemma CursorBoundary(log: seq<Publication>, c: ConsumerCursor, l: Ledger)
    requires CursorOk(log, c, l)
    ensures var c' := ConsumerCursor(|log|, SamplesIn(log, |log|), DropsIn(log, |log|), c.holeSize, true);
            CursorOk(log + [Boundary], c', DiscardAt(log, c, l))
  {
    var log' := log + [Boundary];
    CountsOfPrefix(log, [Boundary], |log|);
    CountsOfPrefix(log, [Boundary], l.anchor);
    CountsOfPrefix(log, [Boundary], l.start);
    CountsGrow(log, l.anchor, |log|);
    InOrderGrows(log, [Boundary], l.delivered, l.start, l.anchor);
    assert log'[|log|].Boundary?;
    assert forall i :: 0 <= i < |log| ==> log'[i] == log[i];
  }

  // ---------------------------------------------------------------------------
  // What one drain delivers
  // ---------------------------------------------------------------------------

  /** What a drain has collected so far. */
  datatype Batch = Batch(samples: seq<PoseSample>, dropped: nat, hole: Hole) {
    /** Nothing delivered and nothing lost. */
    ghost predicate Idle() {
      samples == [] && dropped == 0
    }
  }

  /**
   The batch of a drain that began with the books `l0`. Its samples are one contiguous stretch of
   the log, so no gap, overflow or boundary lies between two of them, and `hole` is everything in
   front of the first: the loss already returned for that hole plus what this drain returns, and
   whether a boundary lies in it.
   */
  ghost predicate BatchOk(log: seq<Publication>, l0: Ledger, l: Ledger, b: Batch) {
    && l.start == l0.start && l.lost == l0.lost + b.dropped
    && var n := |b.samples|;
    && (n == 0 ==>
         l.delivered == l0.delivered && l.anchor == l0.anchor && l.openLoss == l0.openLoss + b.dropped)
    && (n > 0 ==>
         && l0.anchor + n <= l.anchor <= |log|
         && l.delivered == l0.delivered + Run(l.anchor - n, n) && l.openLoss == 0
         && SampleRun(log, l.anchor - n, b.samples)
         && b.hole == Hole(l0.openLoss + b.dropped, BoundaryBetween(log, l0.anchor, l.anchor - n)))
  }

  /** The publications from `first` on are exactly these samples. */
  ghost predicate SampleRun(log: seq<Publication>, first: nat, samples: seq<PoseSample>) {
    && first + |samples| <= |log|
    && forall k :: 0 <= k < |samples| ==> log[first + k] == Sample(samples[k])
  }

  /** While a batch is growing and not yet past its snapshot, the next entry alone decides it. */
  ghost predicate InRun(log: seq<Publication>, c: ConsumerCursor, l: Ledger, b: Batch, end: nat) {
    |b.samples| > 0 && c.historyPosition < end && end <= |log| ==>
      c.historyPosition == l.anchor && c.sourceDropPosition == DropsIn(log, c.historyPosition)
  }

  /** What ends a batch before the head: the next entry is overwritten, or is a gap or a boundary. */
  ghost predicate LossAt(log: seq<Publication>, oldest: nat, i: nat) {
    i < |log| && (i < oldest || !log[i].Sample?)
  }

  lemma CursorBounds(log: seq<Publication>, c: ConsumerCursor, l: Ledger)
    requires CursorOk(log, c, l)
    ensures c.historyPosition <= |log|
    ensures c.historyPosition < |log| ==> c.sourceDropPosition <= DropsIn(log, c.historyPosition + 1)
    ensures c.holeSize == l.openLoss
    ensures c.holeHasBoundary <==> BoundaryBetween(log, l.anchor, |log|)
  {
  }

  /** Copying the entry under a cursor whose gaps are accounted keeps the books. */
  lemma CursorCopies(log: seq<Publication>, c: ConsumerCursor, l: Ledger)
    requires CursorOk(log, c, l) && c.historyPosition < |log|
    requires c.sourceDropPosition == DropsIn(log, c.historyPosition + 1)
    ensures var at := c.historyPosition;
            var c' := c.(historyPosition := at + 1, samplePosition := SamplesIn(log, at + 1));
            if log[at].Sample? then
              CursorOk(log, c'.(holeSize := 0, holeHasBoundary := false),
                       Deliver(l, at))
            else CursorOk(log, c', l)
  {
  }

  /** A loss found before the batch's first sample joins what this drain returns. */
  lemma BatchLoses(log: seq<Publication>, l0: Ledger, l: Ledger, b: Batch, dropped: nat)
    requires BatchOk(log, l0, l, b) && b.samples == [] && dropped >= b.dropped
    ensures BatchOk(log, l0, Lose(l, dropped - b.dropped), b.(dropped := dropped))
  {
  }

  lemma BatchStarts(log: seq<Publication>, l0: Ledger, b: Batch)
    requires b.samples == [] && b.dropped == 0
    ensures BatchOk(log, l0, l0, b)
  {
  }

  /** An empty batch carries no hole of its own yet. */
  lemma BatchEmpty(log: seq<Publication>, l0: Ledger, l: Ledger, b: Batch, hole: Hole)
    requires BatchOk(log, l0, l, b) && b.samples == []
    ensures BatchOk(log, l0, l, b.(hole := hole))
    ensures l.anchor == l0.anchor && l.openLoss == l0.openLoss + b.dropped
  {
  }

  /** A batch begins: all that was open becomes its hole, and nothing is open any more. */
  lemma BatchBegins(log: seq<Publication>, l0: Ledger, c: ConsumerCursor, l: Ledger, b: Batch)
    requires BatchOk(log, l0, l, b) && b.samples == []
    requires CursorOk(log, c, l) && c.historyPosition < |log| && log[c.historyPosition].Sample?
    ensures var at := c.historyPosition;
            BatchOk(log, l0, Deliver(l, at), Batch([log[at].sample], b.dropped, Hole(c.holeSize, c.holeHasBoundary)))
  {
    var at := c.historyPosition;
    assert Run(at, 0) == [];
    assert Run(at, 1) == [at];
    assert BoundaryBetween(log, l0.anchor, |log|) ==> BoundaryBetween(log, l0.anchor, at);
  }

  lemma BatchContinues(log: seq<Publication>, l0: Ledger, l: Ledger, b: Batch)
    requires BatchOk(log, l0, l, b) && |b.samples| > 0
    requires l.anchor < |log| && log[l.anchor].Sample?
    ensures BatchOk(log, l0, Deliver(l, l.anchor), b.(samples := b.samples + [log[l.anchor].sample]))
  {
    var n := |b.samples|;
    assert Run(l.anchor - n, n + 1) == Run(l.anchor - n, n) + [l.anchor];
  }

  /** Publications made while the mutex is free do not disturb a batch. */
  lemma BatchSurvives(log: seq<Publication>, more: seq<Publication>, l0: Ledger, c: ConsumerCursor,
                      l: Ledger, c': ConsumerCursor, l': Ledger, b: Batch, end: nat)
    requires BatchOk(log, l0, l, b) && InRun(log, c, l, b, end) && end <= |log|
    requires CursorOk(log, c, l) && LeftAlone(c, l, c', l', |log|)
    ensures BatchOk(log + more, l0, l', b) && InRun(log + more, c', l', b, end)
  {
    CountsOfPrefix(log, more, c.historyPosition);
    assert forall i :: 0 <= i < |log| ==> (log + more)[i] == log[i];
  }

  /** `out` are the samples at the positions `after` adds to `before`. */
  ghost predicate Delivers(log: seq<Publication>, before: seq<nat>, after: seq<nat>, out: seq<PoseSample>) {
    && before <= after && |after| == |before| + |out|
    && forall j :: |before| <= j < |after| ==>
         after[j] < |log| && log[after[j]] == Sample(out[j - |before|])
  }

  lemma {:induction false} RunIs(first: nat, n: nat)
    ensures forall k :: 0 <= k < n ==> Run(first, n)[k] == first + k
  {
    if n > 0 {
      RunIs(first, n - 1);
    }
  }

  lemma DeliversMore(log: seq<Publication>, log': seq<Publication>, before: seq<nat>, l1: Ledger, l: Ledger,
                     out: seq<PoseSample>, b: Batch)
    requires log <= log' && Delivers(log, before, l1.delivered, out) && BatchOk(log', l1, l, b)
    ensures Delivers(log', before, l.delivered, out + b.samples)
    ensures l.lost == l1.lost + b.dropped
    ensures b.samples != [] ==> l.openLoss == 0
    ensures b.samples == [] ==> l.openLoss == l1.openLoss + b.dropped
  {
    var n, all := |b.samples|, out + b.samples;
    RunIs(if n > 0 then l.anchor - n else 0, n);
    forall j | |before| <= j < |l.delivered|
      ensures l.delivered[j] < |log'| && log'[l.delivered[j]] == Sample(all[j - |before|])
    {
      if j < |l1.delivered| {
        assert l.delivered[j] == l1.delivered[j];
      } else {
        var k := j - |l1.delivered|;
        assert l.delivered[j] == Run(l.anchor - n, n)[k] == l.anchor - n + k;
        assert log'[l.anchor - n + k] == Sample(b.samples[k]);
      }
    }
  }

  // --- several drains ---

  ghost function Joined(batches: seq<Batch>): seq<PoseSample> {
    if batches == [] then [] else Joined(batches[..|batches| - 1]) + batches[|batches| - 1].samples
  }

  ghost function LossOf(batches: seq<Batch>): nat {
    if batches == [] then 0 else LossOf(batches[..|batches| - 1]) + batches[|batches| - 1].dropped
  }

  ghost function LossyIn(batches: seq<Batch>): nat {
    if batches == [] then 0
    else LossyIn(batches[..|batches| - 1]) + if batches[|batches| - 1].dropped > 0 then 1 else 0
  }

  ghost function LargestHole(batches: seq<Batch>): nat {
    if batches == [] then 0
    else
      var rest, last := LargestHole(batches[..|batches| - 1]), batches[|batches| - 1].hole.size;
      if last > rest then last else rest
  }

  /** Each batch is what a drain makes of the books the one before it left, and its hole is whole. */
  ghost predicate Successive(log: seq<Publication>, batches: seq<Batch>, books: seq<Ledger>) {
    && |books| == |batches| + 1
    && forall i :: 0 <= i < |batches| ==>
         && BatchOk(log, books[i], books[i + 1], batches[i])
         && batches[i].hole.size == books[i].openLoss + batches[i].dropped
  }

  ghost predicate NoneIdle(batches: seq<Batch>) {
    forall b :: b in batches ==> !b.Idle()
  }

  lemma BatchGrows(log: seq<Publication>, longer: seq<Publication>, l0: Ledger, l: Ledger, b: Batch)
    requires BatchOk(log, l0, l, b) && log <= longer
    ensures BatchOk(longer, l0, l, b)
  {
    assert forall i :: 0 <= i < |log| ==> longer[i] == log[i];
  }

  lemma SuccessiveGrows(log: seq<Publication>, longer: seq<Publication>, batches: seq<Batch>, books: seq<Ledger>)
    requires Successive(log, batches, books) && log <= longer
    ensures Successive(longer, batches, books)
  {
    hide BatchOk;
    forall i | 0 <= i < |batches| ensures BatchOk(longer, books[i], books[i + 1], batches[i]) {
      BatchGrows(log, longer, books[i], books[i + 1], batches[i]);
    }
  }

  lemma OneMoreBatch(log: seq<Publication>, batches: seq<Batch>, books: seq<Ledger>, b: Batch, l: Ledger)
    requires Successive(log, batches, books) && BatchOk(log, books[|batches|], l, b)
    requires b.hole.size == books[|batches|].openLoss + b.dropped
    ensures Successive(log, batches + [b], books + [l])
    ensures Joined(batches + [b]) == Joined(batches) + b.samples && LossOf(batches + [b]) == LossOf(batches) + b.dropped
    ensures LossyIn(batches + [b]) == LossyIn(batches) + if b.dropped > 0 then 1 else 0
    ensures NoneIdle(batches) ==> NoneIdle((batches + [b])[..|batches|])
    ensures NoneIdle(batches) && !b.Idle() ==> NoneIdle(batches + [b])
    ensures LargestHole(batches + [b]) == if b.hole.size > LargestHole(batches) then b.hole.size else LargestHole(batches)
  {
    hide BatchOk;
    assert (batches + [b])[..|batches|] == batches;
  }

  /** Where a drain through gaps stands: what it has collected is what its batches add up to. */
  ghost predicate Tally(log: seq<Publication>, l0: Ledger, l: Ledger, out: seq<PoseSample>,
                        batches: seq<Batch>, books: seq<Ledger>, summary: DrainSummary)
  {
    && Delivers(log, l0.delivered, l.delivered, out) && Successive(log, batches, books)
    && books[0] == l0 && books[|batches|] == l && out == Joined(batches)
    && summary == DrainSummary(LossOf(batches), LargestHole(batches), LossyIn(batches))
    && l.lost == l0.lost + summary.loss
    && (batches != [] ==> l.openLoss <= summary.largestGap && NoneIdle(batches[..|batches| - 1]))
  }

  lemma TallyStarts(log: seq<Publication>, l: Ledger)
    ensures Tally(log, l, l, [], [], [l], DrainSummary(0, 0, 0)) && NoneIdle([])
  {
  }

  /** One more drain's batch. */
  lemma TallyAdds(log: seq<Publication>, longer: seq<Publication>, l0: Ledger, l1: Ledger, l: Ledger, out: seq<PoseSample>,
                  batches: seq<Batch>, books: seq<Ledger>, summary: DrainSummary, b: Batch)
    requires log <= longer && Tally(log, l0, l1, out, batches, books, summary) && NoneIdle(batches)
    requires BatchOk(longer, l1, l, b) && (b.samples == [] ==> b.hole.size == l1.openLoss + b.dropped)
    ensures var largest := if b.hole.size > summary.largestGap then b.hole.size else summary.largestGap;
            var gaps := summary.gaps + if b.dropped > 0 then 1 else 0;
            Tally(longer, l0, l, out + b.samples, batches + [b], books + [l],
                  DrainSummary(summary.loss + b.dropped, largest, gaps))
    ensures !b.Idle() ==> NoneIdle(batches + [b])
  {
    hide BatchOk, Delivers, Successive, NoneIdle;
    BatchHole(longer, l1, l, b);
    SuccessiveIs(log, batches, books);
    DeliversMore(log, longer, l0.delivered, l1, l, out, b);
    SuccessiveGrows(log, longer, batches, books);
    OneMoreBatch(longer, batches, books, b, l);
  }

  lemma TallyMeans(log: seq<Publication>, l0: Ledger, l: Ledger, out: seq<PoseSample>,
                   batches: seq<Batch>, books: seq<Ledger>, summary: DrainSummary)
    requires Tally(log, l0, l, out, batches, books, summary)
    ensures Delivers(log, l0.delivered, l.delivered, out) && Successive(log, batches, books)
    ensures |books| == |batches| + 1 && books[0] == l0 && books[|batches|] == l && out == Joined(batches)
    ensures summary == DrainSummary(LossOf(batches), LargestHole(batches), LossyIn(batches))
    ensures l.lost == l0.lost + summary.loss
    ensures batches != [] ==> l.openLoss <= summary.largestGap && NoneIdle(batches[..|batches| - 1])
  {
  }

  lemma SuccessiveIs(log: seq<Publication>, batches: seq<Batch>, books: seq<Ledger>)
    requires Successive(log, batches, books)
    ensures |books| == |batches| + 1
  {
  }

  lemma BatchHole(log: seq<Publication>, l0: Ledger, l: Ledger, b: Batch)
    requires BatchOk(log, l0, l, b)
    ensures b.samples != [] ==> b.hole.size == l0.openLoss + b.dropped
  {
  }

  /** Where a drain stops when nothing is published meanwhile: at a gap after a sample, or the head. */
  ghost function StopFrom(log: seq<Publication>, i: nat, started: bool): (stop: nat)
    requires i <= |log|
    ensures i <= stop <= |log|
    ensures !started && i < |log| ==> i < stop
    decreases |log| - i
  {
    if i == |log| || (started && !log[i].Sample?) then i
    else StopFrom(log, i + 1, started || log[i].Sample?)
  }

  lemma StopStep(log: seq<Publication>, i: nat, started: bool)
    requires i < |log| && (started ==> log[i].Sample?)
    ensures StopFrom(log, i, started) == StopFrom(log, i + 1, started || log[i].Sample?)
  {
  }

  /** Drains it takes to walk from `i` to the head when nothing is published meanwhile. */
  ghost function Passes(log: seq<Publication>, i: nat): nat
    requires i <= |log|
    decreases |log| - i
  {
    if i == |log| then 0 else 1 + Passes(log, StopFrom(log, i, false))
  }

  /** A sample with a gap or a boundary right behind it. */
  ghost predicate CutAt(log: seq<Publication>, j: nat) {
    j < |log| - 1 && log[j].Sample? && !log[j + 1].Sample?
  }

  /** Where a backlog is cut. */
  ghost function Cuts(log: seq<Publication>, i: nat): set<nat> {
    set j: nat | i <= j < |log| && CutAt(log, j)
  }

  lemma {:induction false} StopIsFirstCut(log: seq<Publication>, i: nat, started: bool)
    requires i < |log| && (started ==> i > 0 && log[i - 1].Sample?)
    ensures var stop := StopFrom(log, i, started);
            var from := if started then i - 1 else i;
            && Cuts(log, from) == Cuts(log, stop) + (if stop < |log| then {stop - 1} else {})
            && (stop < |log| ==> stop > 0 && stop - 1 in Cuts(log, from))
    decreases |log| - i
  {
    var stop := StopFrom(log, i, started);
    if started && !log[i].Sample? {
      assert Cuts(log, i - 1) == Cuts(log, i) + {i - 1};
    } else {
      StopStep(log, i, started);
      var next := started || log[i].Sample?;
      var from := if started then i - 1 else i;
      assert Cuts(log, from) == Cuts(log, if next then i else i + 1);
      if i + 1 < |log| {
        StopIsFirstCut(log, i + 1, next);
      } else {
        assert Cuts(log, i) == {} == Cuts(log, i + 1);
      }
    }
  }

  /** One drain for every cut of the backlog, and one for what is behind the last. */
  lemma {:induction false} OneDrainPerCut(log: seq<Publication>, i: nat)
    requires i <= |log|
    ensures Passes(log, i) == if i == |log| then 0 else |Cuts(log, i)| + 1
    decreases |log| - i
  {
    if i < |log| {
      var stop := StopFrom(log, i, false);
      StopIsFirstCut(log, i, false);
      OneDrainPerCut(log, stop);
      if stop < |log| {
        assert stop - 1 !in Cuts(log, stop);
      } else {
        assert Cuts(log, stop) == {};
      }
    }
  }

  ghost function WindowStart(capacity: nat, head: nat, position: nat): nat {
    if position < Oldest(capacity, head) then Oldest(capacity, head) else position
  }

  // ---------------------------------------------------------------------------
  // The hub
  // ---------------------------------------------------------------------------

  class Hub {
    const capacity: nat
    const copyChunk: nat
    const history: array<HistoryEntry>
    var head: nat
    var sampleCount: nat
    var sourceDropCount: nat
    var consumers: seq<ConsumerCursor>

    ghost var log: seq<Publication>
    ghost var ledgers: seq<Ledger>

    ghost predicate RingValid()
      reads `head, `sampleCount, `sourceDropCount, `log, history
    {
      && capacity > 0 && copyChunk > 0 && history.Length == capacity
      && head == |log|
      && sampleCount == SamplesIn(log, |log|)
      && sourceDropCount == DropsIn(log, |log|)
      && RingHolds(history[..], log)
      && AllPublishable(log)
    }

    ghost predicate CursorsValid()
      reads `consumers, `ledgers, `log
    {
      && |consumers| == |ledgers|
      && forall k :: 0 <= k < |consumers| ==> CursorOk(log, consumers[k], ledgers[k])
    }

    ghost predicate Valid()
      reads this, history
    {
      RingValid() && CursorsValid()
    }

    constructor (capacity: nat, copyChunk: nat)
      requires capacity > 0 && copyChunk > 0
      ensures Valid() && fresh(history)
      ensures log == [] && consumers == []
      ensures this.capacity == capacity && this.copyChunk == copyChunk
    {
      this.capacity := capacity;
      this.copyChunk := copyChunk;
      history := new HistoryEntry[capacity](_ => HistoryEntry(NO_SAMPLE, 0, 0, false));
      head, sampleCount, sourceDropCount := 0, 0, 0;
      consumers := [];
      log := [];
      ledgers := [];
    }

    method CreateConsumer() returns (id: nat)
      requires Valid()
      modifies this`consumers, this`ledgers
      ensures Valid()
      ensures id == |old(consumers)| && |consumers| == id + 1 && consumers[..id] == old(consumers)
      ensures ledgers == old(ledgers) + [Ledger(head, [], 0, 0, head, 0, 0)]
      ensures consumers[id].historyPosition == head
    {
      id := |consumers|;
      consumers := consumers + [ConsumerCursor(head, sampleCount, sourceDropCount, 0, false)];
      ledgers := ledgers + [Ledger(head, [], 0, 0, head, 0, 0)];
    }

    method DiscardBacklog(consumer: nat)
      requires Valid() && consumer < |consumers|
      modifies this`consumers, this`ledgers
      ensures Valid()
      ensures consumers == old(consumers)[consumer := ConsumerCursor(head, sampleCount, sourceDropCount, 0, false)]
      ensures ledgers == old(ledgers)[consumer :=
                DiscardAt(log, old(consumers[consumer]), old(ledgers[consumer])).(anchor := head, openLoss := 0, openDiscard := 0)]
    {
      ghost var l := DiscardAt(log, consumers[consumer], ledgers[consumer]);
      ledgers := ledgers[consumer := l.(anchor := head, openLoss := 0, openDiscard := 0)];
      consumers := consumers[consumer := ConsumerCursor(head, sampleCount, sourceDropCount, 0, false)];
    }

    method AppendSample(sample: PoseSample)
      requires Valid()
      modifies this`head, this`sampleCount, this`log, history
      ensures Valid() && log == old(log) + [Sample(sample)]
    {
      ghost var p := Sample(sample);
      RingAppend(history[..], log, p);
      CountsOfPrefix(log, [p], |log|);
      history[head % capacity] := HistoryEntry(sample, sourceDropCount, sampleCount, true);
      sampleCount := sampleCount + 1;
      head := head + 1;
      forall k | 0 <= k < |consumers| ensures CursorOk(log + [p], consumers[k], ledgers[k]) {
        CursorAppend(log, p, consumers[k], ledgers[k]);
      }
      log := log + [p];
    }

    /** `p` is what the marker stands for: a source gap, or the one-count marker of a boundary. */
    method AppendMarker(count: nat, ghost p: Publication)
      requires RingValid()
      requires !p.Sample? && p.Publishable() && p.Drop() == count
      modifies this`head, this`sourceDropCount, this`log, history
      ensures RingValid() && log == old(log) + [p]
    {
      RingAppend(history[..], log, p);
      CountsOfPrefix(log, [p], |log|);
      sourceDropCount := sourceDropCount + count;
      history[head % capacity] := HistoryEntry(NO_SAMPLE, sourceDropCount, sampleCount, false);
      head := head + 1;
      log := log + [p];
    }

    method AppendGap(count: nat)
      requires Valid() && count > 0
      modifies this`head, this`sourceDropCount, this`log, history
      ensures Valid() && log == old(log) + [Gap(count)]
    {
      ghost var p := Gap(count);
      forall k | 0 <= k < |consumers| ensures CursorOk(log + [p], consumers[k], ledgers[k]) {
        CursorAppend(log, p, consumers[k], ledgers[k]);
      }
      AppendMarker(count, p);
    }

    /** Moves every cursor to the head with its hole flagged, and puts a one-count marker there. */
    method AppendSessionBoundary()
      requires Valid()
      modifies this`head, this`sourceDropCount, this`log, this`consumers, this`ledgers, history
      ensures Valid() && log == old(log) + [Boundary]
      ensures |consumers| == |old(consumers)|
      ensures forall k :: 0 <= k < |consumers| ==>
                && consumers[k] == ConsumerCursor(|old(log)|, SamplesIn(old(log), |old(log)|),
                                     DropsIn(old(log), |old(log)|), old(consumers)[k].holeSize, true)
                && ledgers[k] == DiscardAt(old(log), old(consumers)[k], old(ledgers)[k])
    {
      ghost var c0, l0 := consumers, ledgers;
      for k := 0 to |consumers|
        modifies this`consumers, this`ledgers
        invariant |consumers| == |c0| == |ledgers|
        invariant forall j :: k <= j < |consumers| ==> consumers[j] == c0[j] && ledgers[j] == l0[j]
        invariant forall j :: 0 <= j < k ==>
                    && consumers[j] == ConsumerCursor(head, sampleCount, sourceDropCount, c0[j].holeSize, true)
                    && ledgers[j] == DiscardAt(log, c0[j], l0[j])
      {
        ledgers := ledgers[k := DiscardAt(log, c0[k], l0[k])];
        consumers := consumers[k := ConsumerCursor(head, sampleCount, sourceDropCount, consumers[k].holeSize, true)];
      }
      forall k | 0 <= k < |consumers| ensures CursorOk(log + [Boundary], consumers[k], ledgers[k]) {
        CursorBoundary(log, c0[k], l0[k]);
      }
      AppendMarker(1, Boundary);
    }

    /** The producer publishes a batch in one hold of the mutex. */
    method PublishAll(pending: seq<Publication>)
      requires Valid() && AllPublishable(pending)
      modifies this`head, this`sampleCount, this`sourceDropCount, this`log, this`consumers, this`ledgers, history
      ensures Valid() && log == old(log) + pending
      ensures |consumers| == |old(consumers)|
      ensures forall k :: 0 <= k < |consumers| ==>
                LeftAlone(old(consumers)[k], old(ledgers)[k], consumers[k], ledgers[k], |old(log)|)
      ensures (forall p :: p in pending ==> !p.Boundary?) ==> consumers == old(consumers) && ledgers == old(ledgers)
    {
      ghost var log0, c0, l0 := log, consumers, ledgers;
      assert pending[..0] == [];
      for i := 0 to |pending|
        invariant Valid() && log == log0 + pending[..i]
        invariant |consumers| == |c0|
        invariant forall k :: 0 <= k < |consumers| ==> LeftAlone(c0[k], l0[k], consumers[k], ledgers[k], |log0|)
        invariant (forall p :: p in pending[..i] ==> !p.Boundary?) ==> consumers == c0 && ledgers == l0
      {
        assert pending[..i + 1] == pending[..i] + [pending[i]];
        match pending[i]
        case Sample(s) => AppendSample(s);
        case Gap(n) => AppendGap(n);
        case Boundary => AppendSessionBoundary();
      }
      assert pending[..|pending|] == pending;
    }

    /** Counts the samples overwritten under a cursor that fell behind the window. */
    method AccountForHistoryOverflow(cursor0: ConsumerCursor, ghost l: Ledger, dropped: nat)
      returns (cursor: ConsumerCursor, total: nat)
      requires RingValid() && CursorOk(log, cursor0, l)
      ensures total >= dropped && CursorOk(log, cursor, Lose(l, total - dropped))
      ensures cursor.historyPosition == WindowStart(capacity, head, cursor0.historyPosition)
      ensures total - dropped == SamplesIn(log, cursor.historyPosition) - SamplesIn(log, cursor0.historyPosition)
      ensures cursor.sourceDropPosition == cursor0.sourceDropPosition
      ensures cursor.holeHasBoundary == cursor0.holeHasBoundary
    {
      cursor := cursor0;
      total := dropped;
      var oldest := if head > capacity then head - capacity else 0;
      if cursor.historyPosition >= oldest {
        return;
      }
      var oldestSampleCount := history[oldest % capacity].sampleCountBefore;
      CountsGrow(log, cursor.historyPosition, oldest);
      CountsGrow(log, cursor.historyPosition + 1, oldest + 1);
      var passed := oldestSampleCount - cursor.samplePosition;
      total := dropped + passed;
      cursor := cursor.(holeSize := cursor.holeSize + passed,
                        samplePosition := oldestSampleCount,
                        historyPosition := oldest);
    }

    /** Counts the source gap the entry under the cursor carries. */
    method AccountForSourceGap(cursor0: ConsumerCursor, ghost l: Ledger, dropped: nat)
      returns (cursor: ConsumerCursor, total: nat)
      requires RingValid() && CursorOk(log, cursor0, l)
      requires Oldest(capacity, head) <= cursor0.historyPosition < head
      ensures total >= dropped && CursorOk(log, cursor, Lose(l, total - dropped))
      ensures cursor.historyPosition == cursor0.historyPosition
      ensures cursor.sourceDropPosition == DropsIn(log, cursor.historyPosition + 1)
      ensures total - dropped == cursor.sourceDropPosition - cursor0.sourceDropPosition
      ensures cursor.holeHasBoundary == cursor0.holeHasBoundary
    {
      cursor := cursor0;
      var gapEntry := history[cursor.historyPosition % capacity];
      var gap := gapEntry.sourceDropCountBefore - cursor.sourceDropPosition;
      total := dropped + gap;
      CountsGrow(log, l.anchor, cursor.historyPosition + 1);
      cursor := cursor.(holeSize := cursor.holeSize + gap,
                        sourceDropPosition := gapEntry.sourceDropCountBefore);
    }

    /** Writes a cursor back through the reference the source holds to it. */
    method SetCursor(consumer: nat, cursor: ConsumerCursor, ghost l: Ledger)
      requires Valid() && consumer < |consumers| && CursorOk(log, cursor, l)
      modifies this`consumers, this`ledgers
      ensures Valid()
      ensures consumers == old(consumers)[consumer := cursor] && ledgers == old(ledgers)[consumer := l]
    {
      hide CursorOk;
      consumers := consumers[consumer := cursor];
      ledgers := ledgers[consumer := l];
    }

    /** The mutex is free between two chunks: the producer may publish. */
    method Release(consumer: nat, traffic: seq<seq<Publication>>, ghost l0: Ledger, ghost batch: Batch, ghost end: nat)
      returns (rest: seq<seq<Publication>>)
      requires Valid() && consumer < |consumers| && end <= head
      requires forall t :: t in traffic ==> AllPublishable(t)
      requires BatchOk(log, l0, ledgers[consumer], batch)
      requires InRun(log, consumers[consumer], ledgers[consumer], batch, end)
      modifies this`head, this`sampleCount, this`sourceDropCount, this`log, this`consumers, this`ledgers, history
      ensures Valid() && |consumers| == |old(consumers)|
      ensures old(log) <= log
      ensures traffic == [] ==> rest == [] && log == old(log) && consumers == old(consumers) && ledgers == old(ledgers)
      ensures forall t :: t in rest ==> AllPublishable(t)
      ensures BatchOk(log, l0, ledgers[consumer], batch)
      ensures InRun(log, consumers[consumer], ledgers[consumer], batch, end)
      ensures old(consumers[consumer]).historyPosition <= consumers[consumer].historyPosition <= |log|
      ensures ledgers[consumer].anchor == old(ledgers[consumer]).anchor
      ensures !BoundaryBetween(log, old(|log|), |log|) ==> ledgers[consumer] == old(ledgers[consumer])
    {
      hide BatchOk, CursorOk;
      rest := traffic;
      CursorBounds(log, consumers[consumer], ledgers[consumer]);
      if |traffic| > 0 {
        ghost var log0, c0, l1, more := log, consumers[consumer], ledgers[consumer], traffic[0];
        PublishAll(traffic[0]);
        rest := traffic[1..];
        CursorBounds(log, consumers[consumer], ledgers[consumer]);
        BatchSurvives(log0, more, l0, c0, l1, consumers[consumer], ledgers[consumer], batch, end);
        assert forall i :: 0 <= i < |more| ==> log[|log0| + i] == more[i];
      }
    }

    /** Copies the entry under the cursor, whose gaps are already accounted. */
    method CopyEntry(cursor0: ConsumerCursor, ghost l1: Ledger, ghost l0: Ledger, batch0: Batch)
      returns (cursor: ConsumerCursor, ghost l: Ledger, batch: Batch)
      requires RingValid() && CursorOk(log, cursor0, l1) && BatchOk(log, l0, l1, batch0)
      requires Oldest(capacity, head) <= cursor0.historyPosition < head
      requires cursor0.sourceDropPosition == DropsIn(log, cursor0.historyPosition + 1)
      requires |batch0.samples| > 0 ==> cursor0.historyPosition == l1.anchor && log[l1.anchor].Sample?
      ensures CursorOk(log, cursor, l) && BatchOk(log, l0, l, batch)
      ensures l.discarded == l1.discarded
      ensures cursor.historyPosition == cursor0.historyPosition + 1
      ensures cursor.sourceDropPosition == cursor0.sourceDropPosition
      ensures |batch.samples| > 0 <==> |batch0.samples| > 0 || log[cursor0.historyPosition].Sample?
      ensures |batch.samples| > 0 ==> cursor.historyPosition == l.anchor
    {
      hide BatchOk, InOrder, RingHolds;
      RingRead(history[..], log, cursor0.historyPosition);
      cursor, l, batch := cursor0, l1, batch0;
      ghost var at := cursor.historyPosition;
      var entry := history[cursor.historyPosition % capacity];
      CursorCopies(log, cursor, l);
      cursor := cursor.(historyPosition := cursor.historyPosition + 1,
                        samplePosition := entry.sampleCountBefore + (if entry.hasSample then 1 else 0));
      if entry.hasSample {
        if |batch.samples| == 0 {
          BatchBegins(log, l0, cursor0, l, batch);
          batch := batch.(hole := Hole(cursor.holeSize, cursor.holeHasBoundary));
          assert batch.samples + [entry.sample] == [entry.sample];
        } else {
          BatchContinues(log, l0, l, batch);
        }
        cursor := cursor.(holeSize := 0, holeHasBoundary := false);
        batch := batch.(samples := batch.samples + [entry.sample]);
        l := Deliver(l, at);
      }
    }

    /** The overflow an empty batch finds joins what its drain returns. */
    method ChargeOverflow(cursor0: ConsumerCursor, ghost l1: Ledger, ghost l0: Ledger, batch0: Batch)
      returns (cursor: ConsumerCursor, ghost l: Ledger, batch: Batch)
      requires RingValid() && CursorOk(log, cursor0, l1) && BatchOk(log, l0, l1, batch0) && batch0.samples == []
      ensures CursorOk(log, cursor, l) && BatchOk(log, l0, l, batch)
      ensures l.discarded == l1.discarded && batch.samples == []
      ensures cursor.historyPosition == WindowStart(capacity, head, cursor0.historyPosition)
    {
      hide BatchOk, CursorOk, RingHolds;
      var dropped;
      cursor, dropped := AccountForHistoryOverflow(cursor0, l1, batch0.dropped);
      BatchLoses(log, l0, l1, batch0, dropped);
      l, batch := Lose(l1, dropped - batch0.dropped), batch0.(dropped := dropped);
    }

    /** So does the source gap of the entry under the cursor. */
    method ChargeSourceGap(cursor0: ConsumerCursor, ghost l1: Ledger, ghost l0: Ledger, batch0: Batch)
      returns (cursor: ConsumerCursor, ghost l: Ledger, batch: Batch)
      requires RingValid() && CursorOk(log, cursor0, l1) && BatchOk(log, l0, l1, batch0) && batch0.samples == []
      requires Oldest(capacity, head) <= cursor0.historyPosition < head
      ensures CursorOk(log, cursor, l) && BatchOk(log, l0, l, batch)
      ensures l.discarded == l1.discarded && batch.samples == []
      ensures cursor.historyPosition == cursor0.historyPosition
      ensures cursor.sourceDropPosition == DropsIn(log, cursor.historyPosition + 1)
    {
      hide BatchOk, CursorOk, RingHolds;
      var dropped;
      cursor, dropped := AccountForSourceGap(cursor0, l1, batch0.dropped);
      BatchLoses(log, l0, l1, batch0, dropped);
      l, batch := Lose(l1, dropped - batch0.dropped), batch0.(dropped := dropped);
    }

    /** Accounts for the losses in front of the next entry; a batch that has begun is not to cross any, and refuses. */
    method PassLosses(cursor0: ConsumerCursor, ghost l1: Ledger, end: nat, ghost l0: Ledger, batch0: Batch)
      returns (cursor: ConsumerCursor, ghost l: Ledger, batch: Batch, refused: bool)
      requires RingValid() && CursorOk(log, cursor0, l1) && end <= head
      requires BatchOk(log, l0, l1, batch0) && InRun(log, cursor0, l1, batch0, end)
      ensures CursorOk(log, cursor, l) && BatchOk(log, l0, l, batch)
      ensures l.discarded == l1.discarded && batch.samples == batch0.samples
      ensures refused ==> |batch.samples| > 0 && cursor == cursor0 && l == l1
      ensures refused && Oldest(capacity, head) <= cursor.historyPosition ==>
                cursor.historyPosition < end && !log[cursor.historyPosition].Sample?
      ensures !refused ==>
                && cursor.historyPosition == WindowStart(capacity, head, cursor0.historyPosition)
                && (cursor.historyPosition < end ==>
                     cursor.sourceDropPosition == DropsIn(log, cursor.historyPosition + 1))
                && (|batch.samples| > 0 ==> cursor == cursor0 && l == l1)
    {
      hide BatchOk, CursorOk, RingHolds;
      cursor, l, batch, refused := cursor0, l1, batch0, false;
      CursorBounds(log, cursor, l);
      var oldest := if head > capacity then head - capacity else 0;
      if cursor.historyPosition < oldest {
        if |batch.samples| > 0 {
          refused := true;
          return;
        }
        cursor, l, batch := ChargeOverflow(cursor, l, l0, batch);
        CursorBounds(log, cursor, l);
      }
      // What is left may begin with a gap of its own.
      if cursor.historyPosition < end {
        RingRead(history[..], log, cursor.historyPosition);
      }
      if cursor.historyPosition < end
        && history[cursor.historyPosition % capacity].sourceDropCountBefore > cursor.sourceDropPosition
      {
        if |batch.samples| > 0 {
          refused := true;
          return;
        }
        cursor, l, batch := ChargeSourceGap(cursor, l, l0, batch);
      }
    }

    /** One hold of the mutex: copies up to `copyChunk` entries, up to `end`. */
    method CopyChunk(cursor0: ConsumerCursor, ghost l1: Ledger, end: nat, ghost l0: Ledger, batch0: Batch)
      returns (cursor: ConsumerCursor, ghost l: Ledger, batch: Batch, stopped: bool)
      requires RingValid() && CursorOk(log, cursor0, l1) && end <= head
      requires BatchOk(log, l0, l1, batch0) && InRun(log, cursor0, l1, batch0, end)
      requires |batch0.samples| > 0 ==> l1.anchor <= end
      ensures CursorOk(log, cursor, l)
      ensures BatchOk(log, l0, l, batch) && InRun(log, cursor, l, batch, end)
      ensures |batch.samples| > 0 ==> l.anchor <= end
      ensures l.discarded == l1.discarded
      ensures stopped ==> |batch.samples| > 0
      ensures stopped && cursor.historyPosition < end ==>
                cursor.historyPosition == l.anchor && LossAt(log, Oldest(capacity, head), l.anchor)
      ensures !stopped && cursor.historyPosition < end ==> cursor.historyPosition > cursor0.historyPosition
      ensures |batch.samples| == 0 && cursor.historyPosition >= end ==>
                batch.hole == Hole(l.openLoss, BoundaryBetween(log, l0.anchor, |log|))
      ensures end == |log| && Oldest(capacity, head) <= cursor0.historyPosition ==>
                && Oldest(capacity, head) <= cursor.historyPosition
                && StopFrom(log, cursor.historyPosition, |batch.samples| > 0)
                   == StopFrom(log, cursor0.historyPosition, |batch0.samples| > 0)
                && (stopped ==> StopFrom(log, cursor.historyPosition, true) == cursor.historyPosition)
    {
      hide BatchOk, CursorOk, RingHolds;
      cursor, l, batch, stopped := cursor0, l1, batch0, false;
      CursorBounds(log, cursor, l);
      var copiedThisChunk := 0;
      while true
        invariant CursorOk(log, cursor, l)
        invariant BatchOk(log, l0, l, batch) && InRun(log, cursor, l, batch, end)
        invariant |batch.samples| > 0 ==> l.anchor <= end
        invariant l.discarded == l1.discarded
        invariant cursor0.historyPosition <= cursor.historyPosition <= |log|
        invariant copiedThisChunk > 0 ==> cursor0.historyPosition < cursor.historyPosition
        invariant end == |log| && Oldest(capacity, head) <= cursor0.historyPosition ==>
                    StopFrom(log, cursor.historyPosition, |batch.samples| > 0)
                    == StopFrom(log, cursor0.historyPosition, |batch0.samples| > 0)
        decreases head - cursor.historyPosition
      {
        cursor, l, batch, stopped := PassLosses(cursor, l, end, l0, batch);
        if stopped {
          return;
        }
        CursorBounds(log, cursor, l);
        if cursor.historyPosition >= end || copiedThisChunk >= copyChunk {
          break;
        }
        assert |batch.samples| > 0 ==> log[l.anchor].Publishable();
        StopStep(log, cursor.historyPosition, |batch.samples| > 0);
        cursor, l, batch := CopyEntry(cursor, l, l0, batch);
        copiedThisChunk := copiedThisChunk + 1;
      }
      if cursor.historyPosition >= end && |batch.samples| == 0 {
        BatchEmpty(log, l0, l, batch, Hole(cursor.holeSize, cursor.holeHasBoundary));
        batch := batch.(hole := Hole(cursor.holeSize, cursor.holeHasBoundary));
      }
    }

    /**
     Drain's body. `traffic` is what the producer publishes each time the mutex is released:
     once before the copy, then after every unfinished chunk. Whatever it publishes, a drain that
     delivered something ends where the head stood when it began, or with a loss right behind its
     last sample; and none of its samples is newer than that head.
     */
    method DrainAppend(consumer: nat, traffic: seq<seq<Publication>>) returns (batch: Batch)
      requires Valid() && consumer < |consumers|
      requires forall t :: t in traffic ==> AllPublishable(t)
      modifies this`head, this`sampleCount, this`sourceDropCount, this`log, this`consumers, this`ledgers, history
      ensures Valid() && |consumers| == |old(consumers)|
      ensures old(log) <= log && (traffic == [] ==> log == old(log))
      ensures BatchOk(log, old(ledgers[consumer]), ledgers[consumer], batch)
      ensures batch.samples == [] ==>
                && consumers[consumer].historyPosition >= old(head)
                && batch.hole == Hole(old(ledgers[consumer]).openLoss + batch.dropped,
                                      BoundaryBetween(log, old(ledgers[consumer]).anchor, |log|))
      ensures batch.samples != [] ==>
                && ledgers[consumer].anchor <= old(head)
                && (|| consumers[consumer].historyPosition >= old(head)
                    || (&& consumers[consumer].historyPosition == ledgers[consumer].anchor
                        && LossAt(log, Oldest(capacity, head), ledgers[consumer].anchor)))
      ensures !BoundaryBetween(log, old(|log|), |log|) ==>
                ledgers[consumer].discarded == old(ledgers[consumer]).discarded
      ensures traffic == [] ==>
                consumers[consumer].historyPosition ==
                  StopFrom(log, WindowStart(capacity, head, old(consumers[consumer]).historyPosition), false)
    {
      hide BatchOk, CursorOk, RingHolds;
      ghost var l0, log0 := ledgers[consumer], log;
      var env := traffic;
      batch := Batch([], 0, Hole(0, false));
      BatchStarts(log, l0, batch);
      CursorBounds(log, consumers[consumer], l0);

      var cursor, dropped := AccountForHistoryOverflow(consumers[consumer], ledgers[consumer], 0);
      BatchLoses(log, l0, l0, batch, dropped);
      batch := batch.(dropped := dropped);
      SetCursor(consumer, cursor, Lose(l0, dropped));
      var snapshotHead := head;
      ghost var from := cursor.historyPosition;
      env := Release(consumer, env, l0, batch, snapshotHead);
      while true
        invariant Valid() && |consumers| == |old(consumers)| && snapshotHead <= head
        invariant log0 <= log && (traffic == [] ==> env == [] && log == log0)
        invariant forall t :: t in env ==> AllPublishable(t)
        invariant BatchOk(log, l0, ledgers[consumer], batch)
        invariant InRun(log, consumers[consumer], ledgers[consumer], batch, snapshotHead)
        invariant |batch.samples| > 0 ==> ledgers[consumer].anchor <= snapshotHead
        invariant !BoundaryBetween(log, |log0|, |log|) ==> ledgers[consumer].discarded == l0.discarded
        invariant consumers[consumer].historyPosition <= |log|
        invariant traffic == [] ==>
                    && Oldest(capacity, head) <= consumers[consumer].historyPosition
                    && StopFrom(log, consumers[consumer].historyPosition, |batch.samples| > 0) == StopFrom(log, from, false)
        decreases if consumers[consumer].historyPosition < snapshotHead
                  then snapshotHead - consumers[consumer].historyPosition else 0
      {
        ghost var l;
        var stopped;
        cursor, l, batch, stopped :=
          CopyChunk(consumers[consumer], ledgers[consumer], snapshotHead, l0, batch);
        SetCursor(consumer, cursor, l);
        CursorBounds(log, cursor, l);
        if stopped || cursor.historyPosition >= snapshotHead {
          if batch.samples == [] {
            BatchEmpty(log, l0, l, batch, batch.hole);
          }
          break;
        }
        env := Release(consumer, env, l0, batch, snapshotHead);
      }
    }

    /**
     Drains until the head, at most 64 times. The result is every sample delivered meanwhile, in
     order, and what the drains say of the holes crossed. It goes on as long as a drain finds
     anything, so short of the limit it passes the head it began with; with nothing published
     meanwhile the head is reached exactly when the backlog is cut in fewer than 64 places.
     */
    method DrainThroughGaps(consumer: nat, traffic: seq<seq<seq<Publication>>>)
      returns (out: seq<PoseSample>, summary: DrainSummary, ghost batches: seq<Batch>, ghost books: seq<Ledger>)
      requires Valid() && consumer < |consumers|
      requires forall p :: p in traffic ==> forall t :: t in p ==> AllPublishable(t)
      modifies this`head, this`sampleCount, this`sourceDropCount, this`log, this`consumers, this`ledgers, history
      ensures Valid() && |consumers| == |old(consumers)| && old(log) <= log
      ensures Delivers(log, old(ledgers[consumer]).delivered, ledgers[consumer].delivered, out)
      ensures Successive(log, batches, books)
      ensures books[0] == old(ledgers[consumer]) && books[|batches|] == ledgers[consumer] && |batches| <= PASS_LIMIT
      ensures out == Joined(batches)
      ensures summary == DrainSummary(LossOf(batches), LargestHole(batches), LossyIn(batches))
      ensures ledgers[consumer].lost == old(ledgers[consumer]).lost + summary.loss
      ensures ledgers[consumer].openLoss <= summary.largestGap
      ensures batches != [] && (|batches| < PASS_LIMIT ==> batches[|batches| - 1].Idle())
      ensures NoneIdle(batches[..|batches| - 1])
      ensures |batches| < PASS_LIMIT ==> consumers[consumer].historyPosition >= old(head)
      ensures traffic == [] ==> log == old(log)
      ensures traffic == [] ==>
                (consumers[consumer].historyPosition == |log| <==>
                 |Cuts(log, WindowStart(capacity, head, old(consumers[consumer]).historyPosition))| < PASS_LIMIT)
    {
      hide BatchOk, CursorOk, LossAt, RingHolds, BoundaryBetween, NoneIdle, Tally, Joined, LossOf, LargestHole, LossyIn;
      out, summary := [], DrainSummary(0, 0, 0);
      ghost var l0, log0 := ledgers[consumer], log;
      batches, books := [], [l0];
      CursorBounds(log, consumers[consumer], l0);
      ghost var total := PassesLeft(this, consumer);
      OneDrainPerCut(log, WindowStart(capacity, head, consumers[consumer].historyPosition));
      TallyStarts(log, l0);
      for pass := 0 to PASS_LIMIT
        invariant Valid() && |consumers| == |old(consumers)| && log0 <= log
        invariant traffic == [] ==> log == log0
        invariant consumers[consumer].historyPosition <= |log|
        invariant Tally(log, l0, ledgers[consumer], out, batches, books, summary)
        invariant |batches| == pass && NoneIdle(batches)
        invariant traffic == [] ==>
                    && (pass > 0 ==> Oldest(capacity, head) <= consumers[consumer].historyPosition)
                    && PassesLeft(this, consumer) == if pass <= total then total - pass else 0
      {
        ghost var log1, l1 := log, ledgers[consumer];
        ghost var left := PassesLeft(this, consumer);
        var during := [];
        if pass < |traffic| {
          during := traffic[pass];
          assert during in traffic;
        }
        var batch := DrainAppend(consumer, during);
        CursorBounds(log, consumers[consumer], ledgers[consumer]);
        assert traffic == [] ==> PassesLeft(this, consumer) == if left > 0 then left - 1 else 0;
        TallyAdds(log1, log, l0, l1, ledgers[consumer], out, batches, books, summary, batch);
        batches, books := batches + [batch], books + [ledgers[consumer]];
        out := out + batch.samples;
        if batch.dropped > 0 {
          summary := summary.(loss := summary.loss + batch.dropped, gaps := summary.gaps + 1);
        }
        if batch.hole.size > summary.largestGap {
          summary := summary.(largestGap := batch.hole.size);
        }
        if batch.dropped == 0 && batch.samples == [] {
          break;
        }
      }
      TallyMeans(log, l0, ledgers[consumer], out, batches, books, summary);
    }

    ghost function PassesLeft(hub: Hub, consumer: nat): nat
      requires consumer < |hub.consumers| && |hub.log| == hub.head
      requires hub.consumers[consumer].historyPosition <= |hub.log|
      reads hub
    {
      Passes(hub.log, WindowStart(hub.capacity, hub.head, hub.consumers[consumer].historyPosition))
    }
  }

  // ---------------------------------------------------------------------------
  // The pass limit
  // ---------------------------------------------------------------------------

  /** `n` one-sample segments, each behind a source gap. */
  function Segments(n: nat): (log: seq<Publication>)
    ensures |log| == 2 * n
    ensures forall i :: 0 <= i < |log| ==> log[i] == if i % 2 == 0 then Gap(1) else Sample(NO_SAMPLE)
  {
    if n == 0 then [] else Segments(n - 1) + [Gap(1), Sample(NO_SAMPLE)]
  }

  lemma CutsAfterSegment(log: seq<Publication>, from: nat)
    requires from + 2 < |log| && !log[from].Sample? && log[from + 1].Sample? && !log[from + 2].Sample?
    ensures |Cuts(log, from)| == |Cuts(log, from + 2)| + 1
  {
    assert Cuts(log, from) == Cuts(log, from + 2) + {from + 1};
  }

  /** All segments but the last end in a cut. */
  lemma {:induction false} SegmentsAreCut(n: nat, k: nat)
    requires k < n
    ensures |Cuts(Segments(n), 2 * k)| == n - 1 - k
    decreases n - k
  {
    var log := Segments(n);
    assert !log[2 * k].Sample? && log[2 * k + 1].Sample?;
    if k + 1 < n {
      SegmentsAreCut(n, k + 1);
      CutsAfterSegment(log, 2 * k);
    } else {
      assert Cuts(log, 2 * k) == {};
    }
  }

  /** A consumer that wakes to more segments than passes is left short of the head, with nothing going on. */
  method PassLimitCanStopShort(capacity: nat, copyChunk: nat, n: nat)
    returns (hub: Hub, consumer: nat, out: seq<PoseSample>, summary: DrainSummary)
    requires n > PASS_LIMIT && capacity >= 2 * n && copyChunk > 0
    ensures hub.Valid() && consumer < |hub.consumers| && hub.log == Segments(n)
    ensures hub.consumers[consumer].historyPosition != hub.head
  {
    hub := new Hub(capacity, copyChunk);
    consumer := hub.CreateConsumer();
    hub.PublishAll(Segments(n));
    assert [] + Segments(n) == Segments(n);
    SegmentsAreCut(n, 0);
    ghost var batches, books;
    out, summary, batches, books := hub.DrainThroughGaps(consumer, []);
  }

  // ---------------------------------------------------------------------------
  // What the books say
  // ---------------------------------------------------------------------------

  /**
   A consumer's batches concatenate to an ordered, duplicate-free subsequence of what was
   published; and once its cursor reaches the head, every sample and every source-reported loss
   since its creation was delivered, returned as loss, or discarded.
   */
  lemma NothingUnaccounted(log: seq<Publication>, c: ConsumerCursor, l: Ledger)
    requires CursorOk(log, c, l)
    ensures forall k :: 0 <= k < |l.delivered| ==> l.delivered[k] < |log| && log[l.delivered[k]].Sample?
    ensures forall j, k :: 0 <= j < k < |l.delivered| ==> l.delivered[j] < l.delivered[k]
    ensures c.historyPosition == |log| ==>
              |l.delivered| + l.lost + l.discarded ==
                (SamplesIn(log, |log|) - SamplesIn(log, l.start)) + (DropsIn(log, |log|) - DropsIn(log, l.start))
  {
    InOrderMeans(log, l.delivered, l.start, l.anchor);
  }

  /**
   The open hole is, in every log, all that lies between the last delivered sample and the cursor
   but what a boundary threw away; and it is flagged exactly when a boundary lies behind that sample.
   */
  lemma OpenHoleIsExact(log: seq<Publication>, c: ConsumerCursor, l: Ledger)
    requires CursorOk(log, c, l)
    ensures c.holeSize + l.openDiscard ==
              (c.samplePosition - SamplesIn(log, l.anchor)) + (c.sourceDropPosition - DropsIn(log, l.anchor))
    ensures c.holeHasBoundary <==> BoundaryBetween(log, l.anchor, |log|)
    ensures l.openDiscard > 0 ==> c.holeHasBoundary
  {
    hide InOrder;
  }
}
