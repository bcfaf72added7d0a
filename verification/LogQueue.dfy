/**
 The log queue: lines wait for an uplink, the oldest go first when there is no
 room, and a batch is forgotten only once it was sent. Lines are pushed while a
 batch is on its way, so what is at the front when it settles need not be what
 was sent.
 */
module LogQueue {
  import opened Options

  const MAX_BATCH_BYTES: nat := 524_288
  const MAX_QUEUED_BYTES: nat := 8_388_608
  // Milliseconds.
  const MAX_BATCH_AGE: int := 60_000
  const MAX_QUEUED_AGE: int := 604_800_000

  datatype Line = Line(at: int, level: string, message: string)

  datatype Batch = Batch(lines: seq<Line>, dropped: nat)

  /** A batch on its way: its lines are `history[start..start + |batch.lines|]`. */
  datatype Flight = Flight(start: nat, batch: Batch)

  function Cost(line: Line): (cost: nat)
    ensures cost >= 64
  {
    |line.message| + 64
  }

  /** What the first `n` lines cost. */
  function Sum(lines: seq<Line>, n: nat): nat
    requires n <= |lines|
  {
    if n == 0 then 0 else Sum(lines, n - 1) + Cost(lines[n - 1])
  }

  function Weight(lines: seq<Line>): nat {
    Sum(lines, |lines|)
  }

  function FrontAt(lines: seq<Line>): Option<int> {
    if lines == [] then None else Some(lines[0].at)
  }

  function SaturatingSub(a: nat, b: nat): nat {
    if a >= b then a - b else 0
  }

  function Min(a: nat, b: nat): nat {
    if a <= b then a else b
  }

  lemma {:induction false} SumAlike(a: seq<Line>, b: seq<Line>, n: nat)
    requires n <= |a| && n <= |b| && a[..n] == b[..n]
    ensures Sum(a, n) == Sum(b, n)
  {
    if n == 0 {
    } else {
      assert a[..n - 1] == a[..n][..n - 1] && b[..n - 1] == b[..n][..n - 1];
      assert a[n - 1] == a[..n][n - 1] && b[n - 1] == b[..n][n - 1];
      SumAlike(a, b, n - 1);
    }
  }

  lemma WeightOfPush(lines: seq<Line>, line: Line)
    ensures Weight(lines + [line]) == Weight(lines) + Cost(line)
  {
    SumAlike(lines + [line], lines, |lines|);
  }

  lemma {:induction false} SumOfRest(lines: seq<Line>, n: nat)
    requires 0 < n <= |lines|
    ensures Sum(lines, n) == Cost(lines[0]) + Sum(lines[1..], n - 1)
  {
    if n > 1 {
      SumOfRest(lines, n - 1);
    }
  }

  function Characters(lines: seq<Line>): nat {
    if lines == [] then 0 else Characters(lines[..|lines| - 1]) + |lines[|lines| - 1].message|
  }

  /** The ceilings are on what the messages hold, and 64 more for each line. */
  lemma {:induction false} WeightIsLength(lines: seq<Line>)
    ensures Weight(lines) == Characters(lines) + 64 * |lines|
  {
    if lines == [] {
    } else {
      var n := |lines| - 1;
      WeightIsLength(lines[..n]);
      WeightOfPush(lines[..n], lines[n]);
      assert lines[..n] + [lines[n]] == lines;
    }
  }

  /** One line off the front of what is left. */
  lemma PopStep(all: seq<Line>, k: nat)
    requires k < |all|
    ensures all[k..][1..] == all[k + 1..]
    ensures Weight(all[k..]) == Cost(all[k]) + Weight(all[k + 1..])
  {
    SumOfRest(all[k..], |all| - k);
  }

  lemma {:induction false} WeightOfRest(all: seq<Line>, k: nat)
    requires k <= |all|
    ensures Weight(all[k..]) == Weight(all) - Sum(all, k)
  {
    if k == 0 {
      assert all[0..] == all;
    } else {
      WeightOfRest(all, k - 1);
      PopStep(all, k - 1);
    }
  }

  // -------------------------------------------------------------- ledger

  /** The lines of a delivered batch, as `history[from..to]`. */
  datatype Stretch = Stretch(from: nat, to: nat)

  /** What has become of every line ever pushed. No code reads it. */
  datatype Ledger = Ledger(
    history: seq<Line>,      // every line pushed
    flight: Option<Flight>,  // the last batch taken, not yet settled
    stretches: seq<Stretch>, // the delivered batches, in turn
    settledTo: nat,          // where the last of them ends
    delivered: nat,          // lines in delivered batches
    reported: nat,           // drops in delivered batches
    shortfall: nat)          // lines a settle did not find

  /** One after another, and up to `end`. */
  ghost predicate Apart(stretches: seq<Stretch>, end: nat) {
    && (forall i :: 0 <= i < |stretches| ==> stretches[i].from <= stretches[i].to <= end)
    && (forall i, j :: 0 <= i < j < |stretches| ==> stretches[i].to <= stretches[j].from)
  }

  function Lines(stretches: seq<Stretch>): int {
    if stretches == [] then 0
    else
      var n := |stretches| - 1;
      Lines(stretches[..n]) + stretches[n].to - stretches[n].from
  }

  predicate Sits(history: seq<Line>, from: int, lines: seq<Line>, i: nat)
    requires i < |lines|
  {
    0 <= from + i < |history| && lines[i] == history[from + i]
  }

  /** `lines` are the history's, from `from` on. */
  ghost predicate Lies(history: seq<Line>, from: int, lines: seq<Line>) {
    forall i :: 0 <= i < |lines| ==> Sits(history, from, lines, i)
  }

  lemma LiesInMore(history: seq<Line>, from: int, lines: seq<Line>, line: Line)
    requires Lies(history, from, lines)
    ensures Lies(history + [line], from, lines)
    ensures from + |lines| == |history| >= |lines| ==> Lies(history + [line], from, lines + [line])
  {
    forall i | 0 <= i < |lines| ensures Sits(history + [line], from, lines, i) {
      assert Sits(history, from, lines, i);
    }
    if from + |lines| == |history| >= |lines| {
      forall i | 0 <= i <= |lines| ensures Sits(history + [line], from, lines + [line], i) {
        assert i < |lines| ==> Sits(history, from, lines, i);
      }
    }
  }

  lemma PartsLie(history: seq<Line>, from: int, lines: seq<Line>, k: nat)
    requires Lies(history, from, lines) && k <= |lines|
    ensures Lies(history, from, lines[..k]) && Lies(history, from + k, lines[k..])
  {
    forall i | 0 <= i < k ensures Sits(history, from, lines[..k], i) {
      assert Sits(history, from, lines, i);
    }
    var start, rest := from + k, lines[k..];
    forall i | 0 <= i < |rest| ensures Sits(history, start, rest, i) {
      assert Sits(history, from, lines, i + k);
    }
  }

  /** `after` is `before` without the k lines at its front. */
  ghost predicate Remains(before: seq<Line>, after: seq<Line>, k: int) {
    0 <= k <= |before| && |after| == |before| - k && Lies(before, k, after)
  }

  lemma RestRemains(lines: seq<Line>, k: nat)
    requires k <= |lines|
    ensures Remains(lines, lines[k..], k)
  {
    var rest := lines[k..];
    forall i | 0 <= i < |rest| ensures Sits(lines, k, rest, i) {
      assert rest[i] == lines[k + i];
    }
  }

  lemma RemainsIsRest(before: seq<Line>, after: seq<Line>, k: int)
    requires Remains(before, after, k)
    ensures after == before[k..]
  {
    forall i | 0 <= i < |after| ensures after[i] == before[k + i] {
      assert Sits(before, k, after, i);
    }
  }

  /** The batch on its way is past every delivered one; and what has gone since it was taken was counted. */
  ghost predicate Carries(l: Ledger, f: Flight, gone: int, dropped: nat) {
    && l.settledTo <= f.start <= gone
    && f.start + |f.batch.lines| <= |l.history|
    && Lies(l.history, f.start, f.batch.lines)
    && f.batch.dropped <= dropped
    && gone - f.start == dropped - f.batch.dropped
  }

  ghost predicate Balanced(l: Ledger, lines: seq<Line>, dropped: nat) {
    var gone := |l.history| - |lines|;
    && gone >= 0 && Lies(l.history, gone, lines)
    && l.settledTo <= gone
    // Every line that left was delivered or counted, but for what a settle did not find.
    && gone - l.delivered + l.shortfall == l.reported + dropped
    && Apart(l.stretches, l.settledTo) && l.delivered == Lines(l.stretches)
    && (l.flight.Some? ==> Carries(l, l.flight.value, gone, dropped))
  }

  lemma PushBalances(l: Ledger, lines: seq<Line>, dropped: nat, line: Line)
    requires Balanced(l, lines, dropped)
    ensures Balanced(l.(history := l.history + [line]), lines + [line], dropped)
  {
    LiesInMore(l.history, |l.history| - |lines|, lines, line);
    if l.flight.Some? {
      LiesInMore(l.history, l.flight.value.start, l.flight.value.batch.lines, line);
    }
  }

  lemma DropBalances(l: Ledger, lines: seq<Line>, after: seq<Line>, dropped: nat, k: nat)
    requires Balanced(l, lines, dropped) && Remains(lines, after, k)
    ensures Balanced(l, after, dropped + k)
  {
    RemainsIsRest(lines, after, k);
    PartsLie(l.history, |l.history| - |lines|, lines, k);
  }

  lemma TakeBalances(l: Ledger, lines: seq<Line>, dropped: nat, taken: nat)
    requires Balanced(l, lines, dropped) && taken <= |lines|
    ensures var flight := Flight(|l.history| - |lines|, Batch(lines[..taken], dropped));
            Balanced(l.(flight := Some(flight)), lines, dropped)
  {
    PartsLie(l.history, |l.history| - |lines|, lines, taken);
  }

  /** What settling does to the ledger, from the lines in the queue at that moment. */
  function Settled(l: Ledger, lines: seq<Line>): Ledger
    requires l.flight.Some?
  {
    var f := l.flight.value;
    var sent := |f.batch.lines|;
    Ledger(l.history, None, l.stretches + [Stretch(f.start, f.start + sent)], f.start + sent,
           l.delivered + sent, l.reported + f.batch.dropped, l.shortfall + sent - Min(sent, |lines|))
  }

  lemma SettleBalances(l: Ledger, lines: seq<Line>, dropped: nat)
    requires Balanced(l, lines, dropped) && l.flight.Some?
    ensures dropped >= l.flight.value.batch.dropped
    ensures l.settledTo <= l.flight.value.start
    ensures Balanced(Settled(l, lines), lines[Min(|l.flight.value.batch.lines|, |lines|)..],
                     dropped - l.flight.value.batch.dropped)
  {
    PartsLie(l.history, |l.history| - |lines|, lines, Min(|l.flight.value.batch.lines|, |lines|));
    var stretches := Settled(l, lines).stretches;
    assert stretches[..|stretches| - 1] == l.stretches;
  }

  /**
   Over every interleaving: what left the queue and was not delivered is at most
   what was reported and what is still to be reported, and exactly that if every
   settle found as many lines as it sent.
   */
  lemma LossIsReported(l: Ledger, lines: seq<Line>, dropped: nat)
    requires Balanced(l, lines, dropped)
    ensures |l.history| - |lines| - l.delivered <= l.reported + dropped
    ensures l.shortfall == 0 <==> |l.history| - |lines| - l.delivered == l.reported + dropped
  {}

  // --------------------------------------------------- which lines were lost

  /** How many lines have left the queue. */
  function Gone(l: Ledger, lines: seq<Line>): int {
    |l.history| - |lines|
  }

  /** The i-th line ever pushed was in no batch that was delivered. */
  ghost predicate Unsent(l: Ledger, i: int) {
    forall k :: 0 <= k < |l.stretches| ==> !(l.stretches[k].from <= i < l.stretches[k].to)
  }

  /**
   Which lines were lost is another matter than how many. A settle takes a line
   that was never sent exactly when something was dropped while the batch was on
   its way, and the queue holds more than what is left of the batch.
   */
  lemma SettleLosesUnsent(l: Ledger, lines: seq<Line>, dropped: nat)
    requires Balanced(l, lines, dropped) && l.flight.Some?
    ensures var batch, gone := l.flight.value.batch, |l.history| - |lines|;
            (exists i :: gone <= i < gone + Min(|batch.lines|, |lines|) && Unsent(Settled(l, lines), i)) <==>
            && batch.lines != [] && dropped > batch.dropped
            && |lines| + Min(dropped - batch.dropped, |batch.lines|) > |batch.lines|
  {
    var f, gone := l.flight.value, |l.history| - |lines|;
    var sent, after := |f.batch.lines|, Settled(l, lines);
    var last := after.stretches[|l.stretches|];
    assert last == Stretch(f.start, f.start + sent);
    forall i | gone <= i ensures Unsent(after, i) <==> i >= f.start + sent {
      forall k | 0 <= k < |l.stretches| ensures after.stretches[k].to <= f.start {
        assert after.stretches[k] == l.stretches[k];
      }
    }
    var end := gone + Min(sent, |lines|);
    if end > gone && end > f.start + sent {
      assert Unsent(after, end - 1);
    }
  }

  /** Gone, never sent, and in no batch on its way. */
  ghost predicate Lost(l: Ledger, lines: seq<Line>, i: int) {
    && i < |l.history| - |lines| && Unsent(l, i)
    && (l.flight.Some? ==> !(l.flight.value.start <= i < l.flight.value.start + |l.flight.value.batch.lines|))
  }

  /** Such a line is lost for good: no later batch ever has it. */
  lemma LostForGood(l: Ledger, lines: seq<Line>, dropped: nat, i: int, line: Line, k: nat)
    requires Balanced(l, lines, dropped) && Lost(l, lines, i) && k <= |lines|
    ensures Lost(l.(history := l.history + [line]), lines + [line], i)
    ensures Lost(l, lines[k..], i)
    ensures Lost(l.(flight := Some(Flight(|l.history| - |lines|, Batch(lines[..k], dropped)))), lines, i)
    ensures l.flight.Some? ==> Lost(Settled(l, lines), lines[Min(|l.flight.value.batch.lines|, |lines|)..], i)
  {
    if l.flight.Some? {
      var after := Settled(l, lines);
      forall j | 0 <= j < |after.stretches| ensures !(after.stretches[j].from <= i < after.stretches[j].to) {
        assert j < |l.stretches| ==> after.stretches[j] == l.stretches[j];
      }
    }
  }

  // --------------------------------------------------------------- queue

  class Queue {
    var lines: seq<Line>
    var bytes: nat
    var dropped: nat
    var oldestAt: Option<int>
    ghost var ledger: Ledger

    /** The fields agree with one another. */
    ghost predicate Agrees()
      reads this
    {
      && bytes == Weight(lines) && oldestAt == FrontAt(lines)
      && Balanced(ledger, lines, dropped)
    }

    ghost predicate Valid()
      reads this
    {
      Agrees() && bytes <= MAX_QUEUED_BYTES
    }

    constructor ()
      ensures Valid() && lines == [] && dropped == 0 && ledger == Ledger([], None, [], 0, 0, 0, 0)
    {
      lines, bytes, dropped, oldestAt, ledger := [], 0, 0, None, Ledger([], None, [], 0, 0, 0, 0);
    }

    /** The line at the front goes. */
    method PopFront()
      requires lines != [] && bytes == Weight(lines)
      modifies this`lines, this`bytes
      ensures lines == old(lines)[1..] && bytes == Weight(lines) && bytes < old(bytes)
    {
      SumOfRest(lines, |lines|);
      bytes := bytes - Cost(lines[0]);
      lines := lines[1..];
    }

    /** The oldest go until what is left fits, and not one more. */
    method Trim()
      requires bytes == Weight(lines) && oldestAt == FrontAt(lines)
      modifies this`lines, this`bytes, this`dropped, this`oldestAt
      ensures bytes == Weight(lines) <= MAX_QUEUED_BYTES && oldestAt == FrontAt(lines)
      ensures Trimmed(old(lines), lines, dropped - old(dropped))
    {
      ghost var all := lines;
      ghost var k := 0;
      while bytes > MAX_QUEUED_BYTES
        invariant k <= |all| && lines == all[k..] && dropped == old(dropped) + k
        invariant bytes == Weight(lines) && oldestAt == FrontAt(lines)
        invariant k > 0 ==> Weight(all) - Sum(all, k - 1) > MAX_QUEUED_BYTES
        decreases |lines|
      {
        WeightOfRest(all, k);
        PopStep(all, k);
        PopFront();
        dropped := dropped + 1;
        oldestAt := FrontAt(lines);
        k := k + 1;
      }
      RestRemains(all, k);
    }

    method Enter(line: Line)
      requires Agrees()
      modifies this`lines, this`bytes, this`oldestAt, this`ledger
      ensures Agrees() && lines == old(lines) + [line]
      ensures ledger == old(ledger).(history := old(ledger.history) + [line])
    {
      PushBalances(ledger, lines, dropped, line);
      WeightOfPush(lines, line);
      if oldestAt.None? {
        oldestAt := Some(line.at);
      }
      bytes := bytes + Cost(line);
      lines := lines + [line];
      ledger := ledger.(history := ledger.history + [line]);
    }

    method MakeRoom(ghost all: seq<Line>)
      requires Agrees() && lines == all
      modifies this`lines, this`bytes, this`dropped, this`oldestAt
      ensures Valid() && Trimmed(all, lines, dropped - old(dropped))
    {
      ghost var counted := dropped;
      Trim();
      DropBalances(ledger, all, lines, counted, dropped - counted);
    }

    /** The line joins the end, and the oldest go until what is left fits, and not one more. */
    method Push(line: Line)
      requires Valid()
      modifies this
      ensures Valid() && ledger == old(ledger).(history := old(ledger.history) + [line])
      ensures Trimmed(old(lines) + [line], lines, dropped - old(dropped))
    {
      ghost var all := lines + [line];
      Enter(line);
      MakeRoom(all);
    }

    method DropOld(now: int)
      requires bytes == Weight(lines)
      modifies this`lines, this`bytes, this`dropped
      ensures bytes == Weight(lines) <= old(bytes) && Expired(old(lines), lines, dropped - old(dropped), now)
    {
      ghost var all := lines;
      ghost var k := 0;
      while lines != [] && lines[0].at < now - MAX_QUEUED_AGE
        invariant k <= |all| && lines == all[k..] && dropped == old(dropped) + k
        invariant bytes == Weight(lines) <= old(bytes)
        invariant forall i :: 0 <= i < k ==> all[i].at < now - MAX_QUEUED_AGE
        decreases |lines|
      {
        PopStep(all, k);
        PopFront();
        dropped := dropped + 1;
        k := k + 1;
      }
      RestRemains(all, k);
    }

    /** The lines from the front that are too old go, up to the first that is not. */
    method Expire(now: int)
      requires Valid()
      modifies this`lines, this`bytes, this`dropped, this`oldestAt
      ensures Valid() && Expired(old(lines), lines, dropped - old(dropped), now)
    {
      ghost var all, counted := lines, dropped;
      DropOld(now);
      oldestAt := FrontAt(lines);
      DropBalances(ledger, all, lines, counted, dropped - counted);
    }

    /** Enough to send, or waited long enough. */
    predicate IsReady(now: int): (ready: bool)
      requires Valid()
      reads this
      ensures ready <==> Due(lines, now)
    {
      lines != [] && (bytes >= MAX_BATCH_BYTES || (oldestAt.Some? && now - oldestAt.value >= MAX_BATCH_AGE))
    }

    /** How many lines from the front fit in one request. */
    method Fit() returns (taken: nat)
      ensures taken <= |lines| && Fills(lines, taken)
    {
      var total: nat := 0;
      taken := 0;
      while taken < |lines|
        invariant taken <= |lines| && total == Sum(lines, taken)
        invariant total <= MAX_BATCH_BYTES || taken == 1
        decreases |lines| - taken
      {
        var more := total + Cost(lines[taken]);
        if taken > 0 && more > MAX_BATCH_BYTES {
          return;
        }
        total := more;
        taken := taken + 1;
      }
    }

    /** A batch of what fits. The lines stay until it is settled. */
    method TakeFront() returns (batch: Batch)
      requires Valid()
      modifies this`ledger
      ensures Valid() && ledger == old(ledger).(flight := Some(Flight(|ledger.history| - |lines|, batch)))
      ensures batch.dropped == dropped && batch.lines <= lines && Fills(lines, |batch.lines|)
    {
      var taken := Fit();
      batch := Batch(lines[..taken], dropped);
      TakeBalances(ledger, lines, dropped, taken);
      ledger := ledger.(flight := Some(Flight(|ledger.history| - |lines|, batch)));
    }

    /** A batch of what fits, after what is too old has gone. */
    method Take(now: int) returns (batch: Batch)
      requires Valid()
      modifies this
      ensures Valid() && Expired(old(lines), lines, dropped - old(dropped), now)
      ensures ledger == old(ledger).(flight := Some(Flight(|ledger.history| - |lines|, batch)))
      ensures batch.dropped == dropped && batch.lines <= lines && Fills(lines, |batch.lines|)
    {
      Expire(now);
      batch := TakeFront();
    }

    method PopMany(count: nat)
      requires bytes == Weight(lines)
      modifies this`lines, this`bytes
      ensures lines == old(lines)[Min(count, |old(lines)|)..] && bytes == Weight(lines) && bytes <= old(bytes)
    {
      ghost var all := lines;
      for k := 0 to count
        invariant lines == all[Min(k, |all|)..] && bytes == Weight(lines) && bytes <= old(bytes)
      {
        if lines != [] {
          PopStep(all, k);
          PopFront();
        }
      }
    }

    /** The batch went: as many lines leave the front as it had, whichever they are, and its drops are reported. */
    method Settle(batch: Batch)
      requires Valid() && ledger.flight.Some? && ledger.flight.value.batch == batch
      modifies this
      ensures Valid() && ledger == Settled(old(ledger), old(lines))
      ensures lines == old(lines)[Min(|batch.lines|, |old(lines)|)..]
      ensures dropped == old(dropped) - batch.dropped
    {
      SettleBalances(ledger, lines, dropped);
      ledger := Settled(ledger, lines);
      PopMany(|batch.lines|);
      dropped := SaturatingSub(dropped, batch.dropped);
      oldestAt := FrontAt(lines);
    }
  }

  /** Half a megabyte, or a line that has waited a minute: one or the other. */
  ghost predicate Due(lines: seq<Line>, now: int) {
    lines != [] && (Weight(lines) >= 524_288 || now - lines[0].at >= 60_000)
  }

  /** `after` is `before` without the lines at its front that no longer fit. */
  ghost predicate Trimmed(before: seq<Line>, after: seq<Line>, k: int) {
    && Remains(before, after, k)
    && (k > 0 ==> Weight(before) - Sum(before, k - 1) > MAX_QUEUED_BYTES)
  }

  /** `after` is `before` without the lines at its front that are older than a week. */
  ghost predicate Expired(before: seq<Line>, after: seq<Line>, k: int, now: int) {
    && Remains(before, after, k)
    && (forall i :: 0 <= i < k ==> before[i].at < now - MAX_QUEUED_AGE)
    && (after != [] ==> after[0].at >= now - MAX_QUEUED_AGE)
  }

  /** The longest run from the front within the limit, or one line that is over it alone. */
  ghost predicate Fills(lines: seq<Line>, taken: nat)
    requires taken <= |lines|
  {
    && (taken == 0 <==> lines == [])
    && (Sum(lines, taken) <= MAX_BATCH_BYTES || taken == 1)
    && (taken < |lines| ==> Sum(lines, taken + 1) > MAX_BATCH_BYTES)
  }

  // ------------------------------------------------------------- flusher

  /** What happens around one look at the queue: the clock, lines pushed meanwhile, and whether the send worked. */
  datatype Look = Look(now: int, before: seq<Line>, during: seq<Line>, sent: bool)

  /** What one look found, what of it was not too old, what that became during the send, what it left, and what went. */
  datatype Seen = Seen(
    waiting: seq<Line>,
    recent: seq<Line>,
    joined: seq<Line>,
    left: seq<Line>,
    sent: Option<Batch>)

  ghost predicate TrimmedTo(before: seq<Line>, after: seq<Line>) {
    Weight(after) <= MAX_QUEUED_BYTES && exists k :: Trimmed(before, after, k)
  }

  ghost predicate ExpiredTo(before: seq<Line>, after: seq<Line>, now: int) {
    exists k :: Expired(before, after, k, now)
  }

  /**
   One look at a queue that held `from`. Nothing is taken before a batch is due;
   then what is too old goes, and of the rest as much as fits is sent, from the
   front; it leaves the queue if the send worked, and stays if it did not.
   */
  ghost predicate Looked(from: seq<Line>, look: Look, seen: Seen) {
    && TrimmedTo(from + look.before, seen.waiting)
    && if !Due(seen.waiting, look.now) then seen.left == seen.waiting && seen.sent.None?
       else
         && ExpiredTo(seen.waiting, seen.recent, look.now)
         && if seen.recent == [] then seen.left == [] && seen.sent.None?
            else
              && TrimmedTo(seen.recent + look.during, seen.joined)
              && (seen.sent.Some? <==> look.sent)
              && if seen.sent.None? then seen.left == seen.joined
                 else
                   var batch := seen.sent.value.lines;
                   && batch <= seen.recent && Fills(seen.recent, |batch|)
                   && seen.left == seen.joined[Min(|batch|, |seen.joined|)..]
  }

  /** So a look sends a batch exactly if one is due, some line is worth sending, and the send works. */
  lemma LookSends(from: seq<Line>, look: Look, seen: Seen)
    requires Looked(from, look, seen)
    ensures seen.sent.Some? <==>
            && look.sent && Due(seen.waiting, look.now)
            && exists i :: 0 <= i < |seen.waiting| && seen.waiting[i].at >= look.now - MAX_QUEUED_AGE
  {
    if Due(seen.waiting, look.now) {
      var k :| Expired(seen.waiting, seen.recent, k, look.now);
      RemainsIsRest(seen.waiting, seen.recent, k);
      assert seen.recent != [] ==> seen.recent[0] == seen.waiting[k];
    }
  }

  lemma RestOfRest(lines: seq<Line>, j: nat, k: nat)
    requires j + k <= |lines|
    ensures lines[j..][k..] == lines[j + k..]
  {}

  lemma RestWithOneMore(lines: seq<Line>, k: nat, line: Line)
    requires k <= |lines|
    ensures lines[k..] + [line] == (lines + [line])[k..]
  {}

  /** Lines that went to make room for one, and for the next. */
  lemma TrimmedFurther(before: seq<Line>, mid: seq<Line>, j: int, line: Line, after: seq<Line>, k: int)
    requires Trimmed(before, mid, j) && Trimmed(mid + [line], after, k)
    ensures Trimmed(before + [line], after, j + k)
  {
    var all := before + [line];
    RemainsIsRest(before, mid, j);
    RemainsIsRest(mid + [line], after, k);
    RestWithOneMore(before, j, line);
    RestOfRest(all, j, k);
    RestRemains(all, j + k);
    if k > 0 {
      RestOfRest(all, j, k - 1);
      WeightOfRest(mid + [line], k - 1);
      WeightOfRest(all, j + k - 1);
    } else if j > 0 {
      RestWithOneMore(before, j - 1, line);
      WeightOfPush(before[j - 1..], line);
      WeightOfRest(before, j - 1);
      WeightOfRest(all, j - 1);
    }
  }

  lemma TrimmedByNone(lines: seq<Line>)
    ensures Trimmed(lines, lines, 0)
  {
    RestRemains(lines, 0);
    assert lines[0..] == lines;
  }

  /** Lines join, one after another, and the oldest go until what is left fits, and not one more. */
  method PushAll(queue: Queue, lines: seq<Line>)
    requires queue.Valid()
    modifies queue
    ensures queue.Valid()
    ensures queue.ledger == old(queue.ledger).(history := old(queue.ledger.history) + lines)
    ensures Gone(queue.ledger, queue.lines) >= old(Gone(queue.ledger, queue.lines))
    ensures TrimmedTo(old(queue.lines) + lines, queue.lines)
  {
    ghost var from, gone := queue.lines, 0;
    TrimmedByNone(from);
    assert from + lines[..0] == from;
    for k := 0 to |lines|
      invariant queue.Valid()
      invariant queue.ledger == old(queue.ledger).(history := old(queue.ledger.history) + lines[..k])
      invariant Gone(queue.ledger, queue.lines) >= old(Gone(queue.ledger, queue.lines))
      invariant Trimmed(from + lines[..k], queue.lines, gone)
    {
      assert old(queue.ledger.history) + lines[..k] + [lines[k]] == old(queue.ledger.history) + lines[..k + 1];
      assert from + lines[..k] + [lines[k]] == from + lines[..k + 1];
      ghost var held, counted := queue.lines, queue.dropped;
      queue.Push(lines[k]);
      TrimmedFurther(from + lines[..k], held, gone, lines[k], queue.lines, queue.dropped - counted);
      gone := gone + queue.dropped - counted;
    }
    assert lines[..|lines|] == lines;
  }

  /** The batches in `sent` are the stretches from the `first`-th on, line for line. */
  ghost predicate Delivered(l: Ledger, first: nat, sent: seq<Batch>) {
    && |l.stretches| == first + |sent|
    && forall k :: 0 <= k < |sent| ==>
         var stretch := l.stretches[first + k];
         && stretch.to - stretch.from == |sent[k].lines| && Lies(l.history, stretch.from, sent[k].lines)
  }

  /** A batch that was taken: lines are pushed meanwhile, and, if it went, it is settled. */
  method SendOff(queue: Queue, look: Look, batch: Batch) returns (sent: Option<Batch>, ghost joined: seq<Line>)
    requires queue.Valid() && batch.lines <= queue.lines
    requires queue.ledger.flight == Some(Flight(Gone(queue.ledger, queue.lines), batch))
    modifies queue
    ensures queue.Valid() && old(queue.ledger.history) <= queue.ledger.history
    ensures Continues(old(queue.ledger), old(queue.lines), queue.ledger, queue.lines)
    ensures sent == if look.sent then Some(batch) else None
    ensures sent.None? ==> queue.ledger.stretches == old(queue.ledger.stretches)
    ensures sent.Some? ==> Delivers(old(queue.ledger), queue.ledger, batch)
    ensures TrimmedTo(old(queue.lines) + look.during, joined)
    ensures queue.lines == if look.sent then joined[Min(|batch.lines|, |joined|)..] else joined
  {
    PushAll(queue, look.during);
    joined := queue.lines;
    if !look.sent {
      return None, joined;
    }
    queue.Settle(batch);
    return Some(batch), joined;
  }

  /** One more stretch was delivered, and it is this batch's lines. */
  ghost predicate Delivers(l: Ledger, m: Ledger, batch: Batch) {
    && l.history <= m.history && m.stretches == l.stretches + [LastOf(m)]
    && LastOf(m).to - LastOf(m).from == |batch.lines| && Lies(m.history, LastOf(m).from, batch.lines)
  }

  /** One batch taken, and sent off unless it is empty. */
  method TakeAndSend(queue: Queue, look: Look)
    returns (sent: Option<Batch>, ghost recent: seq<Line>, ghost joined: seq<Line>)
    requires queue.Valid()
    modifies queue
    ensures queue.Valid() && old(queue.ledger.history) <= queue.ledger.history
    ensures Continues(old(queue.ledger), old(queue.lines), queue.ledger, queue.lines)
    ensures sent.None? ==> queue.ledger.stretches == old(queue.ledger.stretches)
    ensures sent.Some? ==> Delivers(old(queue.ledger), queue.ledger, sent.value)
    ensures ExpiredTo(old(queue.lines), recent, look.now)
    ensures recent == [] ==> queue.lines == [] && sent.None?
    ensures recent != [] ==>
              && TrimmedTo(recent + look.during, joined) && (sent.Some? <==> look.sent)
              && if sent.None? then queue.lines == joined
                 else && sent.value.lines <= recent && Fills(recent, |sent.value.lines|)
                      && queue.lines == joined[Min(|sent.value.lines|, |joined|)..]
  {
    ghost var l, lines, counted := queue.ledger, queue.lines, queue.dropped;
    var batch := queue.Take(look.now);
    recent, joined := queue.lines, queue.lines;
    assert Expired(lines, recent, queue.dropped - counted, look.now);
    ghost var m := queue.ledger;
    assert Continues(l, lines, m, recent);
    if batch.lines == [] {
      return None, recent, joined;
    }
    sent, joined := SendOff(queue, look, batch);
    ContinuesOn(l, lines, m, recent, queue.ledger, queue.lines);
  }

  /** Lines pushed, one look, and what comes of it. */
  method LookOnce(queue: Queue, look: Look) returns (sent: Option<Batch>, ghost seen: Seen)
    requires queue.Valid()
    modifies queue
    ensures queue.Valid() && old(queue.ledger.history) <= queue.ledger.history
    ensures Looked(old(queue.lines), look, seen) && seen.left == queue.lines && seen.sent == sent
    ensures Continues(old(queue.ledger), old(queue.lines), queue.ledger, queue.lines)
    ensures sent.None? ==> queue.ledger.stretches == old(queue.ledger.stretches)
    ensures sent.Some? ==> Delivers(old(queue.ledger), queue.ledger, sent.value)
  {
    ghost var l, lines := queue.ledger, queue.lines;
    PushAll(queue, look.before);
    ghost var m, waiting := queue.ledger, queue.lines;
    sent, seen := None, Seen(waiting, [], [], waiting, None);
    if queue.IsReady(look.now) {
      ghost var recent, joined;
      sent, recent, joined := TakeAndSend(queue, look);
      seen := Seen(waiting, recent, joined, queue.lines, sent);
      ContinuesOn(l, lines, m, waiting, queue.ledger, queue.lines);
    }
  }

  function LastOf(l: Ledger): Stretch {
    if l.stretches == [] then Stretch(0, 0) else l.stretches[|l.stretches| - 1]
  }

  lemma DeliveredMore(l: Ledger, m: Ledger, first: nat, sent: seq<Batch>, batch: Option<Batch>)
    requires Delivered(l, first, sent) && l.history <= m.history
    requires if batch.Some? then Delivers(l, m, batch.value) else m.stretches == l.stretches
    ensures Delivered(m, first, sent + if batch.Some? then [batch.value] else [])
  {
    forall k | 0 <= k < |sent| ensures Lies(m.history, m.stretches[first + k].from, sent[k].lines) {
      assert m.stretches[first + k] == l.stretches[first + k];
      LiesInLonger(l.history, m.history, l.stretches[first + k].from, sent[k].lines);
    }
  }

  lemma LiesInLonger(history: seq<Line>, longer: seq<Line>, from: int, lines: seq<Line>)
    requires Lies(history, from, lines) && history <= longer
    ensures Lies(longer, from, lines)
  {
    forall i | 0 <= i < |lines| ensures Sits(longer, from, lines, i) {
      assert Sits(history, from, lines, i);
    }
  }

  /** Nothing that had gone is taken up again. */
  ghost predicate Continues(l: Ledger, lines: seq<Line>, m: Ledger, after: seq<Line>) {
    && Gone(m, after) >= Gone(l, lines) && l.stretches <= m.stretches
    && (forall k :: |l.stretches| <= k < |m.stretches| ==> m.stretches[k].from >= Gone(l, lines))
    && (m.flight.Some? ==> m.flight == l.flight || m.flight.value.start >= Gone(l, lines))
  }

  lemma ContinuesOn(l: Ledger, lines: seq<Line>, m: Ledger, between: seq<Line>, n: Ledger, after: seq<Line>)
    requires Continues(l, lines, m, between) && Continues(m, between, n, after)
    ensures Continues(l, lines, n, after)
  {
    forall k | |l.stretches| <= k < |n.stretches| ensures n.stretches[k].from >= Gone(l, lines) {
      assert k < |m.stretches| ==> n.stretches[k] == m.stretches[k];
    }
  }

  ghost predicate LostStays(l: Ledger, lines: seq<Line>, m: Ledger, after: seq<Line>) {
    forall i :: Lost(l, lines, i) ==> Lost(m, after, i)
  }

  /** So what was lost stays so. */
  lemma LostOnceLost(l: Ledger, lines: seq<Line>, m: Ledger, after: seq<Line>)
    requires Continues(l, lines, m, after)
    ensures LostStays(l, lines, m, after)
  {
    forall i | Lost(l, lines, i) ensures Lost(m, after, i) {
      forall k | 0 <= k < |m.stretches| ensures !(m.stretches[k].from <= i < m.stretches[k].to) {
        assert k < |l.stretches| ==> m.stretches[k] == l.stretches[k];
      }
    }
  }

  /** One look after another, each at what the one before it left. */
  ghost predicate AllLooked(from: seq<Line>, looks: seq<Look>, seen: seq<Seen>)
    requires |seen| <= |looks|
  {
    seen != [] ==>
      var n := |seen| - 1;
      AllLooked(from, looks, seen[..n]) && Looked(Left(from, seen[..n]), looks[n], seen[n])
  }

  /** What is in the queue after some looks. */
  function Left(from: seq<Line>, seen: seq<Seen>): seq<Line> {
    if seen == [] then from else seen[|seen| - 1].left
  }

  /** What the looks sent, in turn. */
  function Batches(seen: seq<Seen>): seq<Batch> {
    if seen == [] then []
    else
      var n := |seen| - 1;
      Batches(seen[..n]) + if seen[n].sent.Some? then [seen[n].sent.value] else []
  }

  lemma LookedOnce(from: seq<Line>, looks: seq<Look>, all: seq<Seen>, seen: Seen)
    requires |all| < |looks| && AllLooked(from, looks, all) && Looked(Left(from, all), looks[|all|], seen)
    ensures AllLooked(from, looks, all + [seen]) && Left(from, all + [seen]) == seen.left
    ensures Batches(all + [seen]) == Batches(all) + if seen.sent.Some? then [seen.sent.value] else []
  {
    assert (all + [seen])[..|all|] == all;
  }

  /**
   The flusher, looking again and again, with lines pushed between and during
   its sends. The queue is locked for each operation and for no send. Every
   batch that is due goes if the send works. What was sent is returned: batches
   of the lines pushed, in order, none overlapping another; and what was lost is
   accounted for. A line that was lost before is in none of them.
   */
  method Flush(queue: Queue, looks: seq<Look>) returns (sent: seq<Batch>, ghost seen: seq<Seen>)
    requires queue.Valid()
    modifies queue
    ensures queue.Valid() && Delivered(queue.ledger, |old(queue.ledger.stretches)|, sent)
    ensures Apart(queue.ledger.stretches, queue.ledger.settledTo)
    ensures LostStays(old(queue.ledger), old(queue.lines), queue.ledger, queue.lines)
    ensures |queue.ledger.history| - |queue.lines| - queue.ledger.delivered <= queue.ledger.reported + queue.dropped
    ensures |seen| == |looks| && AllLooked(old(queue.lines), looks, seen)
    ensures sent == Batches(seen) && queue.lines == Left(old(queue.lines), seen)
  {
    sent, seen := [], [];
    ghost var first := |queue.ledger.stretches|;
    for k := 0 to |looks|
      invariant queue.Valid() && Delivered(queue.ledger, first, sent)
      invariant LostStays(old(queue.ledger), old(queue.lines), queue.ledger, queue.lines)
      invariant |seen| == k && AllLooked(old(queue.lines), looks, seen)
      invariant sent == Batches(seen) && queue.lines == Left(old(queue.lines), seen)
    {
      ghost var left, before := queue.lines, queue.ledger;
      ghost var now;
      var batch;
      batch, now := LookOnce(queue, looks[k]);
      DeliveredMore(before, queue.ledger, first, sent, batch);
      LookedOnce(old(queue.lines), looks, seen, now);
      LostOnceLost(before, left, queue.ledger, queue.lines);
      sent, seen := sent + if batch.Some? then [batch.value] else [], seen + [now];
    }
    LossIsReported(queue.ledger, queue.lines, queue.dropped);
  }

  /** Nothing here is too old. */
  ghost predicate Recent(lines: seq<Line>, now: int) {
    forall i :: 0 <= i < |lines| ==> lines[i].at >= now - MAX_QUEUED_AGE
  }

  /** Taken from the front of what was not too old, and settled: the rest stays. */
  lemma SentAndKept(all: seq<Line>, left: seq<Line>, k: int, now: int, sent: seq<Line>, rest: seq<Line>)
    requires Expired(all, left, k, now) && sent <= left && Fills(left, |sent|)
    requires rest == left[Min(|sent|, |left|)..]
    ensures |rest| <= |all| && (all != [] ==> |rest| < |all|)
    ensures Recent(all, now) ==> sent + rest == all
  {
    RemainsIsRest(all, left, k);
    if k == 0 {
      assert all[0..] == all;
    } else {
      assert all[0].at < now - MAX_QUEUED_AGE;
    }
  }

  /** A batch taken and settled, with nothing pushed in between. */
  method TakeAndSettle(queue: Queue, now: int) returns (batch: Batch, ghost left: seq<Line>, ghost expired: int)
    requires queue.Valid()
    modifies queue
    ensures queue.Valid() && Expired(old(queue.lines), left, expired, now)
    ensures batch.lines <= left && Fills(left, |batch.lines|)
    ensures queue.lines == left[Min(|batch.lines|, |left|)..]
  {
    ghost var counted := queue.dropped;
    batch := queue.Take(now);
    left, expired := queue.lines, queue.dropped - counted;
    assert Expired(old(queue.lines), left, expired, now) && batch.lines <= left && Fills(left, |batch.lines|);
    queue.Settle(batch);
  }

  /** One look with nothing in the way: what is taken is settled, and the rest stays. */
  method Send(queue: Queue, now: int) returns (batch: Batch)
    requires queue.Valid()
    modifies queue
    ensures queue.Valid() && |queue.lines| <= |old(queue.lines)|
    ensures old(queue.lines) != [] ==> |queue.lines| < |old(queue.lines)|
    ensures Recent(old(queue.lines), now) ==> batch.lines + queue.lines == old(queue.lines)
  {
    ghost var all, left, expired := queue.lines, [], 0;
    batch, left, expired := TakeAndSettle(queue, now);
    SentAndKept(all, left, expired, now, batch.lines, queue.lines);
  }

  /** Taking and settling empties the queue, and sends what is recent once, in order. */
  method Drain(queue: Queue, now: int) returns (sent: seq<Line>)
    requires queue.Valid()
    modifies queue
    ensures queue.Valid() && queue.lines == []
    ensures Recent(old(queue.lines), now) ==> sent == old(queue.lines)
  {
    sent := [];
    while queue.lines != []
      invariant queue.Valid()
      invariant Recent(old(queue.lines), now) ==> sent + queue.lines == old(queue.lines)
      invariant Recent(old(queue.lines), now) ==> Recent(queue.lines, now)
      decreases |queue.lines|
    {
      ghost var left := queue.lines;
      var batch := Send(queue, now);
      if Recent(old(queue.lines), now) {
        assert sent + left == sent + batch.lines + queue.lines;
        forall i | 0 <= i < |queue.lines| ensures queue.lines[i].at >= now - MAX_QUEUED_AGE {
          assert queue.lines[i] == left[|batch.lines| + i];
        }
      }
      sent := sent + batch.lines;
    }
  }

  lemma OneFits(line: Line, after: seq<Line>, k: int)
    requires Cost(line) <= MAX_QUEUED_BYTES && Trimmed([line], after, k)
    ensures after == [line] && k == 0
  {
    assert Sum([line], 0) == 0;
    RemainsIsRest([line], after, k);
  }

  lemma OnlyLargeFits(small: Line, large: Line, after: seq<Line>, k: int)
    requires Cost(large) == MAX_QUEUED_BYTES
    requires Trimmed([small, large], after, k) && Weight(after) <= MAX_QUEUED_BYTES
    ensures after == [large] && k == 1
  {
    var both := [small, large];
    assert Sum(both, 0) == 0 && Sum(both, 1) == Cost(small);
    RemainsIsRest(both, after, k);
    WeightOfRest(both, k);
  }

  method PushOne(line: Line) returns (queue: Queue)
    requires Cost(line) <= MAX_QUEUED_BYTES
    ensures fresh(queue) && queue.Valid() && queue.lines == [line] && queue.dropped == 0
    ensures queue.ledger == Ledger([line], None, [], 0, 0, 0, 0)
  {
    queue := new Queue();
    queue.Push(line);
    assert [] + [line] == [line];
    OneFits(line, queue.lines, queue.dropped);
  }

  method TakeOne(line: Line) returns (queue: Queue, batch: Batch)
    requires Cost(line) <= MAX_QUEUED_BYTES
    ensures fresh(queue) && queue.Valid() && queue.lines == [line] && queue.dropped == 0
    ensures batch == Batch([line], 0) && queue.ledger == Ledger([line], Some(Flight(0, batch)), [], 0, 0, 0, 0)
  {
    queue := PushOne(line);
    batch := queue.TakeFront();
  }

  method PushLarge(queue: Queue, small: Line, large: Line, batch: Batch)
    requires Cost(large) == MAX_QUEUED_BYTES
    requires queue.Valid() && queue.lines == [small] && queue.dropped == 0
    requires queue.ledger == Ledger([small], Some(Flight(0, batch)), [], 0, 0, 0, 0)
    modifies queue
    ensures queue.Valid() && queue.lines == [large] && queue.dropped == 1
    ensures queue.ledger == Ledger([small, large], Some(Flight(0, batch)), [], 0, 0, 0, 0)
  {
    queue.Push(large);
    assert [small] + [large] == [small, large];
    OnlyLargeFits(small, large, queue.lines, queue.dropped);
  }

  /**
   It does happen: a line as large as the whole queue comes in while another is
   being sent. The sent one is counted as dropped, and the large one goes when
   the batch settles: the queue is empty, one batch with the small line was
   delivered, and the one drop that is left to report is the small line's.
   */
  method UnsentLineLost(small: Line, large: Line) returns (queue: Queue)
    requires Cost(small) <= MAX_QUEUED_BYTES && Cost(large) == MAX_QUEUED_BYTES
    ensures queue.Valid() && queue.lines == [] && queue.dropped == 1
    ensures queue.ledger == Ledger([small, large], None, [Stretch(0, 1)], 1, 1, 0, 0)
    ensures Lost(queue.ledger, queue.lines, 1)
  {
    var batch: Batch;
    queue, batch := TakeOne(small);
    PushLarge(queue, small, large, batch);
    SettleLarge(queue, small, large, batch);
  }

  method SettleLarge(queue: Queue, small: Line, large: Line, batch: Batch)
    requires queue.Valid() && queue.lines == [large] && queue.dropped == 1 && batch == Batch([small], 0)
    requires queue.ledger == Ledger([small, large], Some(Flight(0, batch)), [], 0, 0, 0, 0)
    modifies queue
    ensures queue.Valid() && queue.lines == [] && queue.dropped == 1
    ensures queue.ledger == Ledger([small, large], None, [Stretch(0, 1)], 1, 1, 0, 0)
  {
    queue.Settle(batch);
  }
}
