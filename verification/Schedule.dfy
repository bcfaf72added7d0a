/**
 When to renew: the wait the api's own instants give, and the wait itself, which
 an instruction from the platform may end early. Instants are milliseconds.
 */
module Schedule {
  import opened Options

  function Max(a: int, b: int): int {
    if a >= b then a else b
  }

  const SPREAD: real := 0.25

  function Clamp(jitter: real): real {
    if jitter < 0.0 then 0.0 else if jitter > 1.0 then 1.0 else jitter
  }

  /** How much of the slack a draw takes. */
  function Share(jitter: real): real {
    SPREAD * Clamp(jitter)
  }

  /** What is left of the certificate once it is due, or now if it is due already. */
  function Slack(serverTime: int, renewAfter: int, notAfter: int): nat {
    Max(notAfter - Max(renewAfter, serverTime), 0)
  }

  lemma AQuarterAtMost(amount: real, share: real)
    requires 0.0 <= amount && 0.0 <= share <= 0.25
    ensures 0.0 <= amount * share <= 0.25 * amount
  {}

  /** The part of `slack` that is `share`, in whole milliseconds. */
  function Part(slack: nat, share: real): (part: nat)
    requires 0.0 <= share <= 0.25
    ensures 4 * part <= slack
  {
    AQuarterAtMost(slack as real, share);
    var exact := slack as real * share;
    assert exact.Floor as real <= exact <= 0.25 * slack as real;
    exact.Floor
  }

  function Spread(slack: nat, jitter: real): (spread: nat)
    ensures 4 * spread <= slack
  {
    Part(slack, Share(jitter))
  }

  /** `next_wake`. */
  function NextWake(serverTime: int, renewAfter: int, notAfter: int, jitter: real): nat {
    Max(renewAfter - serverTime, 0) + Spread(Slack(serverTime, renewAfter, notAfter), jitter)
  }

  /**
   Renewal never starts before it is due, and leaves at least three quarters of
   what is left for retrying: while the certificate has any life left beyond
   its due time, the device wakes strictly before the end of it.
   */
  lemma KeepsThreeQuarters(serverTime: int, renewAfter: int, notAfter: int, jitter: real)
    ensures var wake := serverTime + NextWake(serverTime, renewAfter, notAfter, jitter);
            && wake >= Max(renewAfter, serverTime)
            && (notAfter > Max(renewAfter, serverTime) ==>
                  && 4 * (notAfter - wake) >= 3 * Slack(serverTime, renewAfter, notAfter)
                  && wake < notAfter)
            && (notAfter <= Max(renewAfter, serverTime) ==> wake == Max(renewAfter, serverTime))
  {}

  /** Out of time, there is nothing to wait for, whatever is drawn. */
  lemma ExpiredWakesAtOnce(serverTime: int, renewAfter: int, notAfter: int, jitter: real)
    requires renewAfter <= notAfter
    ensures notAfter <= serverTime ==> NextWake(serverTime, renewAfter, notAfter, jitter) == 0
    ensures NextWake(serverTime, renewAfter, notAfter, jitter) == 0 ==> renewAfter <= serverTime
  {}

  /** A larger slack spreads more, but by no more than it grew. */
  lemma PartGrowsSlowly(small: nat, large: nat, share: real)
    requires small <= large && 0.0 <= share <= 0.25
    ensures Part(small, share) <= Part(large, share) <= Part(small, share) + (large - small)
  {
    var a, b := small as real, large as real;
    AQuarterAtMost(b - a, share);
    Distribute(a, b, share);
    FloorGap(a * share, b * share, large - small);
  }

  lemma Distribute(a: real, b: real, share: real)
    ensures b * share == a * share + (b - a) * share
  {}

  lemma FloorGap(x: real, y: real, gap: nat)
    requires x <= y <= x + gap as real
    ensures x.Floor <= y.Floor <= x.Floor + gap
  {}

  /** As the server's clock advances the wait never grows, and the instant it ends never moves earlier. */
  lemma LaterIsNoSooner(earlier: int, later: int, renewAfter: int, notAfter: int, jitter: real)
    requires earlier <= later
    ensures NextWake(later, renewAfter, notAfter, jitter) <= NextWake(earlier, renewAfter, notAfter, jitter)
    ensures earlier + NextWake(earlier, renewAfter, notAfter, jitter)
         <= later + NextWake(later, renewAfter, notAfter, jitter)
  {
    PartGrowsSlowly(Slack(later, renewAfter, notAfter), Slack(earlier, renewAfter, notAfter), Share(jitter));
  }

  /** The draws cover the whole quarter: every delay in it is some draw's, so a fleet has all of it to scatter over. */
  lemma SpreadReachesEverywhere(serverTime: int, renewAfter: int, notAfter: int, delay: nat) returns (jitter: real)
    requires 4 * delay < Slack(serverTime, renewAfter, notAfter)
    ensures 0.0 <= jitter < 1.0
    ensures serverTime + NextWake(serverTime, renewAfter, notAfter, jitter) == Max(renewAfter, serverTime) + delay
  {
    var slack := Slack(serverTime, renewAfter, notAfter) as real;
    jitter := 4.0 * delay as real / slack;
    Quotient(4.0 * delay as real, slack);
    Quarter(slack, jitter);
  }

  /** And it is the draw that decides: that share of a quarter of the slack, in whole milliseconds. */
  lemma SpreadFollowsTheDraw(serverTime: int, renewAfter: int, notAfter: int, jitter: real)
    requires 0.0 <= jitter <= 1.0
    ensures var slack := Max(notAfter - Max(renewAfter, serverTime), 0);
            var delay := serverTime + NextWake(serverTime, renewAfter, notAfter, jitter) - Max(renewAfter, serverTime);
            delay as real <= slack as real * jitter / 4.0 < delay as real + 1.0
  {
    Quarter(Slack(serverTime, renewAfter, notAfter) as real, jitter);
  }

  lemma Quotient(a: real, b: real)
    requires 0.0 <= a < b
    ensures 0.0 <= a / b < 1.0 && b * (a / b) == a
  {}

  lemma Quarter(a: real, b: real)
    ensures a * (0.25 * b) == a * b / 4.0
  {}

  // ---------------------------------------------------------- the wait

  /**
   What comes out of the channel of instructions. `first` is whether it is
   seen before the timer when both are ready at once.
   */
  datatype Event =
    | Asked(at: int, first: bool, notBefore: int)
    | Closed(at: int, first: bool)

  /** When a wait that began at `start` can take it. */
  function ReadyAt(event: Event, start: int): int {
    Max(event.at, start)
  }

  /** Before the deadline is in time, after it is not, and at it the one that is looked at first wins. */
  predicate InTime(event: Event, start: int, due: int): (yes: bool)
    ensures start < due && event.at < due ==> yes
    ensures yes ==> event.at <= due
    ensures start <= due && event.at <= due && due in {start, event.at} ==> (yes <==> event.first)
  {
    ReadyAt(event, start) < due || (ReadyAt(event, start) == due && event.first)
  }

  /** Taken, and changed nothing: what is on disk is already newer. */
  predicate Passes(event: Event, start: int, due: int, issuedAt: int) {
    InTime(event, start, due) && event.Asked? && event.notBefore <= issuedAt
  }

  /** The first instruction that matters, with nothing but stale ones before it. */
  predicate Wakes(events: seq<Event>, i: int, start: int, wait: nat, issuedAt: int) {
    var due := start + wait;
    && 0 <= i < |events|
    && InTime(events[i], start, due) && events[i].Asked? && issuedAt < events[i].notBefore
    && forall j :: 0 <= j < i ==> Passes(events[j], start, due, issuedAt)
  }

  /**
   `wait_out`: until `wait` has gone by since `start`, unless the platform asks
   for a certificate newer than this one. It ends early exactly then, and an
   instruction that does not apply never moves the deadline.
   */
  method WaitOut(start: int, wait: nat, issuedAt: int, events: seq<Event>)
    returns (woke: int, asked: Option<int>, taken: nat)
    ensures taken <= |events| && start <= woke <= start + wait
    ensures asked.Some? <==> exists i :: Wakes(events, i, start, wait, issuedAt)
    ensures asked.Some? ==>
              && taken > 0 && Wakes(events, taken - 1, start, wait, issuedAt)
              && asked.value == events[taken - 1].notBefore && woke == ReadyAt(events[taken - 1], start)
    ensures asked.None? ==> woke == start + wait
    ensures asked.None? && taken < |events| ==>
              !InTime(events[taken], start, start + wait) || (taken > 0 && events[taken - 1].Closed?)
  {
    var due := start + wait;
    taken := 0;
    while taken < |events|
      invariant taken <= |events|
      invariant forall j :: 0 <= j < taken ==> Passes(events[j], start, due, issuedAt)
      decreases |events| - taken
    {
      var event := events[taken];
      if !InTime(event, start, due) {
        return due, None, taken;
      }
      taken := taken + 1;
      match event
      case Closed(_, _) =>
        return due, None, taken;
      case Asked(_, _, notBefore) =>
        if issuedAt < notBefore {
          assert Wakes(events, taken - 1, start, wait, issuedAt);
          return ReadyAt(event, start), Some(notBefore), taken;
        }
    }
    return due, None, taken;
  }

  // --------------------------------------------------- renewal on renewal

  /** One turn of the renewal loop: its wait, what was delivered meanwhile, and when the new certificate was issued. */
  datatype Round = Round(start: int, wait: nat, events: seq<Event>, issuedAt: int)

  /** Every instant the platform asked for, however often it did. */
  function Instants(rounds: seq<Round>): set<int> {
    set round, event | round in rounds && event in round.events && event.Asked? :: event.notBefore
  }

  predicate Within(events: seq<Event>, instants: set<int>) {
    forall event :: event in events && event.Asked? ==> event.notBefore in instants
  }

  predicate AfterAsking(rounds: seq<Round>, k: nat)
    requires k < |rounds|
  {
    var asked := Instants(rounds[..k + 1]);
    forall i :: i in asked ==> i <= rounds[k].issuedAt
  }

  /** The server issues in order, and never before an instant it has already asked for. */
  predicate Prompt(issuedAt: int, rounds: seq<Round>) {
    && (forall k :: 0 <= k < |rounds| ==> issuedAt <= rounds[k].issuedAt)
    && (forall j, k :: 0 <= j < k < |rounds| ==> rounds[j].issuedAt <= rounds[k].issuedAt)
    && forall k :: 0 <= k < |rounds| ==> AfterAsking(rounds, k)
  }

  /** How many waits ended early. */
  function Early(woken: seq<Option<int>>): nat {
    if woken == [] then 0
    else Early(woken[..|woken| - 1]) + if woken[|woken| - 1].Some? then 1 else 0
  }

  predicate Rising(woken: seq<Option<int>>) {
    forall i, j :: 0 <= i < j < |woken| && woken[i].Some? && woken[j].Some? ==> woken[i].value < woken[j].value
  }

  lemma RisesFurther(woken: seq<Option<int>>, bound: int, next: Option<int>)
    requires Rising(woken) && (forall v :: Some(v) in woken ==> v <= bound) && (next.Some? ==> bound < next.value)
    ensures Rising(woken + [next])
  {}

  lemma {:induction false} RisingFits(woken: seq<Option<int>>, among: set<int>)
    requires Rising(woken) && forall v :: Some(v) in woken ==> v in among
    ensures Early(woken) <= |among|
  {
    if woken == [] {
    } else {
      var front, last := woken[..|woken| - 1], woken[|woken| - 1];
      if last.None? {
        RisingFits(front, among);
      } else {
        assert last in woken && last == Some(last.value);
        forall v | Some(v) in front ensures v in among - {last.value} {
          var i :| 0 <= i < |front| && front[i] == Some(v);
          assert woken[i] == Some(v);
        }
        RisingFits(front, among - {last.value});
      }
    }
  }

  lemma InstantsGrow(rounds: seq<Round>, k: nat, pending: seq<Event>)
    requires k < |rounds| && Within(pending, Instants(rounds[..k]))
    ensures Instants(rounds[..k]) <= Instants(rounds[..k + 1])
    ensures Within(rounds[k].events, Instants(rounds[..k + 1])) && Within(pending, Instants(rounds[..k + 1]))
  {}

  ghost predicate Among(woken: seq<Option<int>>, instants: set<int>) {
    forall v :: Some(v) in woken ==> v in instants
  }

  lemma AmongMore(woken: seq<Option<int>>, asked: Option<int>, some: set<int>, instants: set<int>)
    requires Among(woken, some) && some <= instants && (asked.Some? ==> asked.value in instants)
    ensures Among(woken + [asked], instants)
  {}

  /** When the certificate of the k-th wait was issued. */
  function Since(first: int, rounds: seq<Round>, k: nat): int
    requires k <= |rounds|
  {
    if k == 0 then first else rounds[k - 1].issuedAt
  }

  /** What ended the k-th wait: the first instruction in its queue that mattered, if one did in time. */
  ghost predicate Explains(woken: Option<int>, queue: seq<Event>, round: Round, issuedAt: int) {
    && (woken.Some? <==> exists i :: Wakes(queue, i, round.start, round.wait, issuedAt))
    && (woken.Some? ==> issuedAt < woken.value)
    && |round.events| <= |queue|
    && forall i :: 0 <= i < |round.events| ==> queue[|queue| - |round.events| + i] == round.events[i]
  }

  /** One wait, with what earlier ones left in the channel ahead of what is delivered now. */
  method WaitThrough(round: Round, issuedAt: int, pending: seq<Event>, ghost instants: set<int>)
    returns (asked: Option<int>, rest: seq<Event>, ghost queue: seq<Event>)
    requires Within(pending, instants) && Within(round.events, instants)
    ensures Waited(Wait(asked, queue, rest), pending, round, issuedAt)
    ensures Within(rest, instants) && (asked.Some? ==> asked.value in instants)
  {
    var all := pending + round.events;
    queue := all;
    var woke, taken;
    woke, asked, taken := WaitOut(round.start, round.wait, issuedAt, all);
    assert asked.Some? ==> all[taken - 1] in all;
    rest := all[taken..];
  }

  /** What ended a wait early, if anything did, what was in the channel for it, and what it left there. */
  datatype Wait = Wait(asked: Option<int>, queue: seq<Event>, rest: seq<Event>)

  /** It found what was left and what came, and leaves what it did not take. */
  ghost predicate Waited(wait: Wait, pending: seq<Event>, round: Round, issuedAt: int) {
    && wait.queue == pending + round.events && Explains(wait.asked, wait.queue, round, issuedAt)
    && exists taken :: 0 <= taken <= |wait.queue| && wait.rest == wait.queue[taken..]
                       && Stops(wait.asked, wait.queue, taken, round, issuedAt)
  }

  /** One wait after another. */
  ghost predicate AllWaited(first: int, rounds: seq<Round>, waits: seq<Wait>)
    requires |waits| <= |rounds|
  {
    waits != [] ==>
      var n := |waits| - 1;
      && AllWaited(first, rounds, waits[..n])
      && Waited(waits[n], Pending(waits[..n]), rounds[n], Since(first, rounds, n))
  }

  function Pending(waits: seq<Wait>): seq<Event> {
    if waits == [] then [] else waits[|waits| - 1].rest
  }

  /** What ended each of them. */
  function Endings(waits: seq<Wait>): seq<Option<int>> {
    seq(|waits|, k requires 0 <= k < |waits| => waits[k].asked)
  }

  lemma WaitedOnce(first: int, rounds: seq<Round>, waits: seq<Wait>, wait: Wait)
    requires |waits| < |rounds| && AllWaited(first, rounds, waits)
    requires Waited(wait, Pending(waits), rounds[|waits|], Since(first, rounds, |waits|))
    ensures AllWaited(first, rounds, waits + [wait]) && Pending(waits + [wait]) == wait.rest
    ensures Endings(waits + [wait]) == Endings(waits) + [wait.asked]
  {
    assert (waits + [wait])[..|waits|] == waits;
  }

  /** Where a wait stops taking: at the instruction that ends it, the channel's end, or one that is too late. */
  ghost predicate Stops(asked: Option<int>, queue: seq<Event>, taken: nat, round: Round, issuedAt: int)
    requires taken <= |queue|
  {
    if asked.Some? then
      && taken > 0 && Wakes(queue, taken - 1, round.start, round.wait, issuedAt)
      && asked.value == queue[taken - 1].notBefore
    else
      || taken == |queue| || !InTime(queue[taken], round.start, round.start + round.wait)
      || (taken > 0 && queue[taken - 1].Closed?)
  }

  /** The instants that ended a wait so far rise, and the certificate in hand is newer than them all. */
  ghost predicate Answered(first: int, rounds: seq<Round>, woken: seq<Option<int>>)
    requires |woken| <= |rounds|
  {
    Rising(woken) && forall v :: Some(v) in woken ==> v <= Since(first, rounds, |woken|)
  }

  lemma AnswersKeepUp(first: int, rounds: seq<Round>, woken: seq<Option<int>>, asked: Option<int>)
    requires |woken| < |rounds| && Answered(first, rounds, woken) && Prompt(first, rounds)
    requires asked.Some? ==>
               asked.value > Since(first, rounds, |woken|) && asked.value in Instants(rounds[..|woken| + 1])
    ensures Answered(first, rounds, woken + [asked])
  {
    var k := |woken|;
    assert AfterAsking(rounds, k) && Since(first, rounds, k) <= rounds[k].issuedAt;
    RisesFurther(woken, Since(first, rounds, k), asked);
  }

  /**
   The waits of the renewal loop, one after another: what ended each of them
   early, and what was in the channel for it. From a server that issues no
   earlier than it asked, each instant ends at most one wait, however often it
   is delivered again.
   */
  method Renewals(first: int, rounds: seq<Round>) returns (woken: seq<Option<int>>, ghost waits: seq<Wait>)
    ensures |waits| == |rounds| && AllWaited(first, rounds, waits) && woken == Endings(waits)
    ensures Prompt(first, rounds) ==> Rising(woken)
    ensures Prompt(first, rounds) ==> Early(woken) <= |Instants(rounds)|
  {
    woken, waits := [], [];
    var issuedAt := first;
    var pending: seq<Event> := [];
    for k := 0 to |rounds|
      invariant issuedAt == Since(first, rounds, k) && |woken| == |waits| == k
      invariant AllWaited(first, rounds, waits) && woken == Endings(waits) && pending == Pending(waits)
      invariant Within(pending, Instants(rounds[..k]))
      invariant Among(woken, Instants(rounds[..k]))
      invariant Prompt(first, rounds) ==> Answered(first, rounds, woken)
    {
      InstantsGrow(rounds, k, pending);
      var asked, rest;
      ghost var queue;
      asked, rest, queue := WaitThrough(rounds[k], issuedAt, pending, Instants(rounds[..k + 1]));
      AmongMore(woken, asked, Instants(rounds[..k]), Instants(rounds[..k + 1]));
      WaitedOnce(first, rounds, waits, Wait(asked, queue, rest));
      if Prompt(first, rounds) {
        AnswersKeepUp(first, rounds, woken, asked);
      }
      woken, waits := woken + [asked], waits + [Wait(asked, queue, rest)];
      pending := rest;
      issuedAt := rounds[k].issuedAt;
    }
    assert rounds[..|rounds|] == rounds;
    if Prompt(first, rounds) {
      RisingFits(woken, Instants(rounds));
    }
  }
}
