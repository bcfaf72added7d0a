/**
 Handing the connection over to a renewed certificate. One task renews, writes
 the state file and signals; another takes the signals, reads the file back and
 replaces the live connection. Between them are a channel that holds one signal
 and a file either may find the other has moved on from.

 Certificates are counted, as the renewals that brought them.
 */
module Handover {
  import opened Saving

  /** What becomes of the word a replacement sends once the broker has taken it. */
  datatype Word = Acknowledged | Dropped | TimedOut

  datatype Renewal =
    | Working                 // waiting, asking, or holding an answer to write down
    | Signalling              // written down; the signal waits for room
    | Gone                    // the device was dropped

  /**
   The loop that keeps one connection going. `said` is whether it has told of
   the broker's first answer, `retiring` whether it was told it is replaced.
   */
  datatype Loop = Loop(client: nat, said: bool, retiring: bool, running: bool)

  datatype Supervisor =
    | Waiting
    | Signalled               // a signal was taken, the file not read yet
    | Offering(next: Loop)    // a replacement is connecting
    | Swapped(next: Loop)     // the cell has it, the old connection is draining
    | Ended

  datatype World = World(
    disk: nat,               // the certificate in the state file
    cell: nat,               // the one every publisher resolves to
    polling: Loop,           // the connection that is kept going
    queued: bool,            // a signal is in the channel
    renewal: Renewal,
    supervisor: Supervisor,
    // What has happened. No code reads these.
    first: nat,              // the certificate all this started from
    landed: bool,            // the answer in hand reached the file although its save failed
    saves: nat,              // renewals whose save returned Ok
    taken: nat)              // signals the supervisor took

  datatype Which = TheOld | TheNew

  datatype Act =
    | Save(outcome: Outcome)
    | Send
    | Drop
    | Take
    | Read(ok: bool)
    | Hear(word: Word)
    | Replace
    | Finish
    | Connack(which: Which)          // the broker takes a connection
    | Fails(which: Which)            // polling one goes wrong

  predicate ByRenewal(act: Act) {
    act.Save? || act.Send? || act.Drop?
  }

  predicate May(w: World, act: Act) {
    match act
    case Save(_) => w.renewal.Working?
    case Send => w.renewal.Signalling? && !w.queued
    case Drop => !w.renewal.Gone?
    case Take => w.supervisor.Waiting? && w.queued
    case Read(_) => w.supervisor.Signalled?
    // The wait looks at the word before it looks at the clock.
    case Hear(Acknowledged) => w.supervisor.Offering? && w.supervisor.next.said
    case Hear(Dropped) => w.supervisor.Offering? && !w.supervisor.next.said && !w.supervisor.next.running
    case Hear(TimedOut) => w.supervisor.Offering? && !w.supervisor.next.said && w.supervisor.next.running
    case Replace => w.supervisor.Swapped?
    case Finish => w.supervisor.Waiting? && !w.queued && w.renewal.Gone?
    case Connack(TheOld) => w.polling.running
    case Fails(TheOld) => w.polling.running
    case Connack(TheNew) => HasNext(w) && w.supervisor.next.running
    case Fails(TheNew) => HasNext(w) && w.supervisor.next.running
  }

  predicate HasNext(w: World) {
    w.supervisor.Offering? || w.supervisor.Swapped?
  }

  /** A loop that is not retired tries again; a retired one ends. */
  function Failed(loop: Loop): Loop {
    loop.(running := !loop.retiring)
  }

  function WithNext(w: World, next: Loop): World {
    match w.supervisor
    case Offering(_) => w.(supervisor := Offering(next))
    case Swapped(_) => w.(supervisor := Swapped(next))
    case _ => w
  }

  function Do(w: World, act: Act): World {
    match act
    case Save(Written) =>
      w.(disk := if w.landed then w.disk else w.disk + 1, landed := false, saves := w.saves + 1,
         renewal := Signalling)
    case Save(Landed) => w.(disk := if w.landed then w.disk else w.disk + 1, landed := true)
    case Save(NotWritten) => w
    case Send => w.(queued := true, renewal := Working)
    case Drop => w.(renewal := Gone)
    case Take => w.(queued := false, taken := w.taken + 1, supervisor := Signalled)
    case Read(ok) => w.(supervisor := if ok then Offering(Loop(w.disk, false, false, true)) else Waiting)
    case Hear(word) =>
      if w.supervisor.Offering? && !word.TimedOut? then
        w.(cell := w.supervisor.next.client, polling := w.polling.(retiring := true),
           supervisor := Swapped(w.supervisor.next))
      else w.(supervisor := Waiting)
    case Replace =>
      w.(polling := if w.supervisor.Swapped? then w.supervisor.next else w.polling, supervisor := Waiting)
    case Finish => w.(supervisor := Ended)
    case Connack(TheOld) => w.(polling := w.polling.(said := true))
    case Fails(TheOld) => w.(polling := Failed(w.polling))
    case Connack(TheNew) => if HasNext(w) then WithNext(w, w.supervisor.next.(said := true)) else w
    case Fails(TheNew) => if HasNext(w) then WithNext(w, Failed(w.supervisor.next)) else w
  }

  function Run(w: World, acts: seq<Act>): World {
    if acts == [] then w else Do(Run(w, acts[..|acts| - 1]), acts[|acts| - 1])
  }

  predicate Lawful(w: World, acts: seq<Act>) {
    acts != [] ==>
      && Lawful(w, acts[..|acts| - 1])
      && May(Run(w, acts[..|acts| - 1]), acts[|acts| - 1])
  }

  /** Everything agrees on the certificate the device started with. */
  predicate Start(w: World) {
    w == World(w.first, w.first, Loop(w.first, w.polling.said, false, true), false, Working, Waiting,
               w.first, false, 0, 0)
  }

  function Count(yes: bool): nat {
    if yes then 1 else 0
  }

  /** What the supervisor has in hand was on disk when the signal it took was sent, or later. */
  predicate Holds(w: World, client: nat) {
    w.first + w.taken <= client <= w.disk && w.cell <= client
  }

  predicate Inv(w: World) {
    && w.disk == w.first + w.saves + Count(w.landed)
    // Every save that returned Ok has its one signal: taken, queued, or waiting for room.
    && w.taken + Count(w.queued) + Count(w.renewal.Signalling?) <= w.saves
    && (!w.renewal.Gone? ==> w.taken + Count(w.queued) + Count(w.renewal.Signalling?) == w.saves)
    && w.cell <= w.disk
    && match w.supervisor
       case Offering(next) =>
         && Holds(w, next.client) && w.polling.client == w.cell && Live(w.polling) && Live(next)
       case Swapped(next) =>
         && Holds(w, next.client) && w.cell == next.client && w.polling.client <= next.client
         && w.polling.retiring && Live(next) && next.said
       case _ => w.polling.client == w.cell && Live(w.polling)
  }

  /** Running, and not told to stop. */
  predicate Live(loop: Loop) {
    loop.running && !loop.retiring
  }

  lemma RenewalKeeps(w: World, act: Act)
    requires Inv(w) && May(w, act) && ByRenewal(act)
    ensures Inv(Do(w, act))
  {}

  lemma ConnackKeeps(w: World, which: Which)
    requires Inv(w) && May(w, Connack(which))
    ensures Inv(Do(w, Connack(which)))
  {}

  lemma FailsKeeps(w: World, which: Which)
    requires Inv(w) && May(w, Fails(which))
    ensures Inv(Do(w, Fails(which)))
  {}

  lemma SupervisorKeeps(w: World, act: Act)
    requires Inv(w) && May(w, act) && !ByRenewal(act) && !act.Connack? && !act.Fails?
    ensures Inv(Do(w, act))
  {}

  lemma StepKeeps(w: World, act: Act)
    requires Inv(w) && May(w, act)
    ensures Inv(Do(w, act))
  {
    if ByRenewal(act) {
      RenewalKeeps(w, act);
    } else if act.Connack? {
      ConnackKeeps(w, act.which);
    } else if act.Fails? {
      FailsKeeps(w, act.which);
    } else {
      SupervisorKeeps(w, act);
    }
  }

  lemma {:induction false} RunKeeps(w: World, acts: seq<Act>)
    requires Start(w) && Lawful(w, acts)
    ensures Inv(Run(w, acts)) && Run(w, acts).first == w.first
  {
    if acts == [] {
    } else {
      RunKeeps(w, acts[..|acts| - 1]);
      StepKeeps(Run(w, acts[..|acts| - 1]), acts[|acts| - 1]);
    }
  }

  // ----------------------------------------------- counted off the run

  function Signals(acts: seq<Act>): nat {
    if acts == [] then 0 else Signals(acts[..|acts| - 1]) + Count(acts[|acts| - 1].Take?)
  }

  lemma {:induction false} SignalsAddUp(w: World, acts: seq<Act>)
    requires Start(w)
    ensures Run(w, acts).taken == Signals(acts) && Run(w, acts).first == w.first
  {
    if acts == [] {
    } else {
      SignalsAddUp(w, acts[..|acts| - 1]);
    }
  }

  /**
   The handover that follows the k-th signal, if it succeeds, installs the
   certificate of the k-th renewal or a later one, however the two tasks
   interleave: for publishers at once, and for the polled connection once the
   old one has drained.
   */
  lemma HandoverIsCurrent(w: World, acts: seq<Act>, act: Act)
    requires Start(w) && Lawful(w, acts) && May(Run(w, acts), act)
    ensures var before, after := Run(w, acts), Do(Run(w, acts), act);
            && (act.Hear? && !act.word.TimedOut? ==> after.cell >= w.first + Signals(acts))
            && (act.Replace? ==> after.polling.client == after.cell >= w.first + Signals(acts))
  {
    RunKeeps(w, acts);
    SignalsAddUp(w, acts);
  }

  /**
   Certificates never go backwards, and a handover that could not read the
   file, or was not answered in time, changes neither the cell nor the polled
   connection, which is not retired either.
   */
  lemma NeverBackwards(w: World, acts: seq<Act>, act: Act)
    requires Start(w) && Lawful(w, acts) && May(Run(w, acts), act)
    ensures var before, after := Run(w, acts), Do(Run(w, acts), act);
            && before.cell <= after.cell && before.polling.client <= after.polling.client && before.disk <= after.disk
            && (after.cell != before.cell ==> act.Hear? && !act.word.TimedOut?)
            && (after.polling.client != before.polling.client ==> act.Replace?)
            && (after.supervisor.Waiting? && !act.Replace? ==>
                  after.polling.client == after.cell == before.cell && Live(after.polling))
  {
    RunKeeps(w, acts);
    StepKeeps(Run(w, acts), act);
  }

  /**
   Nothing is left behind: when no signal is queued or waiting and the last one
   taken was handed over, publishers present the newest certificate saved.
   */
  lemma CaughtUp(w: World, acts: seq<Act>)
    requires Start(w) && Lawful(w, acts) && acts != []
    requires acts[|acts| - 1].Replace? || (acts[|acts| - 1].Hear? && !acts[|acts| - 1].word.TimedOut?)
    ensures var v := Run(w, acts);
            v.renewal.Working? && !v.queued ==> w.first + v.saves <= v.cell <= v.disk
  {
    RunKeeps(w, acts[..|acts| - 1]);
    RunKeeps(w, acts);
  }

  // ------------------------------------------- nothing changes unproven

  /** A connection is answered for: the broker took the replacement, after the file was last read. */
  ghost predicate Answered(acts: seq<Act>) {
    exists j :: 0 <= j < |acts| && acts[j] == Connack(TheNew) && NoReadSince(acts, j)
  }

  ghost predicate NoReadSince(acts: seq<Act>, j: nat) {
    forall i :: j < i < |acts| ==> !acts[i].Read?
  }

  lemma {:induction false} SaidWasAnswered(w: World, acts: seq<Act>)
    requires Start(w) && Lawful(w, acts) && HasNext(Run(w, acts)) && Run(w, acts).supervisor.next.said
    ensures Answered(acts)
  {
    var n := |acts| - 1;
    var front, last := acts[..n], acts[n];
    if last == Connack(TheNew) {
      assert NoReadSince(acts, n);
    } else {
      var before := Run(w, front);
      RunKeeps(w, front);
      StaysSaid(before, last);
      SaidWasAnswered(w, front);
      var j :| 0 <= j < n && front[j] == Connack(TheNew) && NoReadSince(front, j);
      assert acts[j] == front[j];
      forall i | j < i <= n ensures !acts[i].Read? {
        assert i < n ==> acts[i] == front[i];
      }
    }
  }

  /** And if there was one, it has told of it. */
  lemma {:induction false} AnsweredWasSaid(w: World, acts: seq<Act>)
    requires Start(w) && Lawful(w, acts) && HasNext(Run(w, acts)) && Answered(acts)
    ensures Run(w, acts).supervisor.next.said
  {
    var n := |acts| - 1;
    var front, last := acts[..n], acts[n];
    var j :| 0 <= j < |acts| && acts[j] == Connack(TheNew) && NoReadSince(acts, j);
    if j == n {
    } else {
      assert front[j] == Connack(TheNew) && NoReadSince(front, j) by {
        forall i | j < i < n ensures !front[i].Read? {
          assert front[i] == acts[i];
        }
      }
      assert !last.Read?;
      AnsweredWasSaid(w, front);
    }
  }

  lemma StaysSaid(w: World, act: Act)
    requires May(w, act) && act != Connack(TheNew) && HasNext(Do(w, act)) && Do(w, act).supervisor.next.said
    ensures HasNext(w) && w.supervisor.next.said && !act.Read?
  {}

  /**
   The replacement proves itself first. What publishers use, and what is kept
   going, change only after the broker took that very client: a word that never
   came is a loop that ended, and a loop ends only once it is retired.
   */
  lemma OnlyAnsweredClientsAreUsed(w: World, acts: seq<Act>, act: Act)
    requires Start(w) && Lawful(w, acts) && May(Run(w, acts), act)
    ensures act != Hear(Dropped)
    ensures var before, after := Run(w, acts), Do(Run(w, acts), act);
            && (after.cell != before.cell ==> Answered(acts))
            && (after.polling.client != before.polling.client ==> Answered(acts))
            && (after.polling.retiring && !before.polling.retiring ==> Answered(acts))
  {
    RunKeeps(w, acts);
    if HasNext(Run(w, acts)) && Run(w, acts).supervisor.next.said {
      SaidWasAnswered(w, acts);
    }
  }

  /** What ends, and what it takes. */
  lemma StepEnds(w: World, act: Act)
    ensures Do(w, act).renewal.Gone? && act != Drop ==> w.renewal.Gone?
    ensures Do(w, act).supervisor.Ended? && act != Finish ==> w.supervisor.Ended?
    ensures May(w, Finish) ==> w.renewal.Gone?
    ensures w.renewal.Gone? && May(w, act) ==> Do(w, act).renewal.Gone?
  {}

  lemma {:induction false} GoneMeansDropped(w: World, acts: seq<Act>)
    requires Start(w) && Lawful(w, acts) && Run(w, acts).renewal.Gone?
    ensures Drop in acts
  {
    var front, last := acts[..|acts| - 1], acts[|acts| - 1];
    if last == Drop {
      assert last in acts;
    } else {
      StepEnds(Run(w, front), last);
      GoneMeansDropped(w, front);
    }
  }

  /** The supervisor gives the live connection up only after the device itself is gone. */
  lemma {:induction false} EndsOnlyWithTheDevice(w: World, acts: seq<Act>)
    requires Start(w) && Lawful(w, acts) && Run(w, acts).supervisor.Ended?
    ensures Run(w, acts).renewal.Gone? && Drop in acts
  {
    var front, last := acts[..|acts| - 1], acts[|acts| - 1];
    StepEnds(Run(w, front), last);
    if last == Finish {
      GoneMeansDropped(w, front);
    } else {
      EndsOnlyWithTheDevice(w, front);
    }
  }

  // ---------------------------------------------------------- the code

  function LoopOf(w: World, which: Which): Loop
    requires which.TheNew? ==> HasNext(w)
  {
    if which.TheOld? then w.polling else w.supervisor.next
  }

  /**
   What a loop comes to over some polls, each of which connects or goes wrong.
   One that is not retired goes on whatever goes wrong, and has told of the
   broker's answer once there was one. One that is ends the first time anything
   does, so all it can still tell is what its very next poll brings.
   */
  ghost predicate Pumped(before: Loop, after: Loop, polls: seq<bool>) {
    && after.client == before.client && after.retiring == before.retiring
    && (after.running <==> !(before.retiring && false in polls))
    && (after.said <==>
          || before.said
          || (if before.retiring then polls != [] && polls[0] else true in polls))
  }

  /** The supervisor's own side is as it was, but for what the loops themselves do. */
  ghost predicate Untouched(was: World, w: World) {
    && w.taken == was.taken && w.cell == was.cell && w.polling.client == was.polling.client
    && w.polling.retiring == was.polling.retiring
    && (was.queued ==> w.queued) && (was.renewal.Gone? ==> w.renewal.Gone? && w.queued == was.queued)
    && match was.supervisor
       case Offering(next) => w.supervisor.Offering? && w.supervisor.next.client == next.client
       case Swapped(next) => w.supervisor.Swapped? && w.supervisor.next.client == next.client
       case _ => w.supervisor == was.supervisor
  }

  lemma LeavesUntouched(was: World, w: World, act: Act)
    requires Untouched(was, w) && May(w, act) && ByRenewal(act)
    ensures Untouched(was, Do(w, act))
  {}

  lemma PumpedOnce(before: Loop, loop: Loop, polls: seq<bool>, connected: bool)
    requires Pumped(before, loop, polls) && loop.running
    ensures Pumped(before, if connected then loop.(said := true) else Failed(loop), polls + [connected])
  {}

  /** Nothing but this loop is different. */
  predicate OnlyLoop(was: World, w: World, which: Which) {
    match which
    case TheOld => w == was.(polling := w.polling)
    case TheNew => HasNext(was) && HasNext(w) && w == WithNext(was, w.supervisor.next)
  }

  lemma PollTurnsOneLoop(was: World, w: World, which: Which, connected: bool)
    requires OnlyLoop(was, w, which) && LoopOf(w, which).running
    ensures var act := if connected then Connack(which) else Fails(which);
            && May(w, act) && OnlyLoop(was, Do(w, act), which)
            && LoopOf(Do(w, act), which) ==
               if connected then LoopOf(w, which).(said := true) else Failed(LoopOf(w, which))
  {}

  lemma PumpedOut(before: Loop, loop: Loop, some: seq<bool>, polls: seq<bool>)
    requires Pumped(before, loop, some) && !loop.running && some <= polls
    ensures Pumped(before, loop, polls)
  {}

  lemma StillAnswered(acts: seq<Act>, act: Act)
    requires Answered(acts) && !act.Read?
    ensures Answered(acts + [act])
  {
    var more := acts + [act];
    var j :| 0 <= j < |acts| && acts[j] == Connack(TheNew) && NoReadSince(acts, j);
    assert more[j] == Connack(TheNew) && NoReadSince(more, j);
  }

  lemma StillUnanswered(acts: seq<Act>, act: Act)
    requires act != Connack(TheNew) && (act.Read? || !Answered(acts))
    ensures !Answered(acts + [act])
  {
    var more := acts + [act];
    if Answered(more) {
      var j :| 0 <= j < |more| && more[j] == Connack(TheNew) && NoReadSince(more, j);
      assert more[|acts|] == act;
      forall i | j < i < |acts| ensures !acts[i].Read? {
        assert more[i] == acts[i];
      }
      assert acts[j] == Connack(TheNew) && NoReadSince(acts, j);
    }
  }

  /** Nothing was read on the way from `was` to `acts`. */
  ghost predicate NoReadIn(was: seq<Act>, acts: seq<Act>) {
    was <= acts && forall i :: |was| <= i < |acts| ==> !acts[i].Read?
  }

  lemma StillLastRead(was: seq<Act>, acts: seq<Act>, more: seq<Act>, ok: bool)
    requires LastRead(was, acts, ok) && NoReadIn(acts, more)
    ensures LastRead(was, more, ok)
  {
    var j :| |was| <= j < |acts| && acts[j] == Read(ok) && NoReadSince(acts, j);
    assert more[j] == acts[j];
    forall i | j < i < |more| ensures !more[i].Read? {
      assert i < |acts| ==> more[i] == acts[i];
    }
  }

  lemma StillLastReadBefore(was: seq<Act>, acts: seq<Act>, more: seq<Act>, ok: bool)
    requires was <= acts && LastRead(acts, more, ok)
    ensures LastRead(was, more, ok)
  {}

  /** The file was read, so, and not again since. */
  ghost predicate LastRead(was: seq<Act>, acts: seq<Act>, ok: bool) {
    was <= acts && exists j :: |was| <= j < |acts| && acts[j] == Read(ok) && NoReadSince(acts, j)
  }

  lemma Extend(w: World, acts: seq<Act>, act: Act)
    requires Lawful(w, acts) && May(Run(w, acts), act)
    ensures Lawful(w, acts + [act]) && Run(w, acts + [act]) == Do(Run(w, acts), act)
  {}

  class Device {
    const start: World
    var world: World
    var log: seq<Act>

    ghost predicate Valid()
      reads this
    {
      Start(start) && Lawful(start, log) && world == Run(start, log)
    }

    constructor (first: nat)
      ensures Valid() && log == [] && world.first == first
    {
      var w := World(first, first, Loop(first, false, false, true), false, Working, Waiting, first, false, 0, 0);
      start, world, log := w, w, [];
    }

    method Perform(act: Act)
      requires Valid() && May(world, act)
      modifies this`world, this`log
      ensures Valid() && world == Do(old(world), act) && log == old(log) + [act]
    {
      Extend(start, log, act);
      world := Do(world, act);
      log := log + [act];
    }

    /** `pump`: a connection's loop, over the polls there are, unless it ends before. */
    method Pump(which: Which, polls: seq<bool>)
      requires Valid() && (which.TheNew? ==> HasNext(world)) && LoopOf(world, which).running
      modifies this`world, this`log
      ensures Valid() && NoReadIn(old(log), log) && OnlyLoop(old(world), world, which)
      ensures Pumped(LoopOf(old(world), which), LoopOf(world, which), polls)
    {
      ghost var before := LoopOf(world, which);
      for k := 0 to |polls|
        invariant Valid() && NoReadIn(old(log), log) && OnlyLoop(old(world), world, which)
        invariant Pumped(before, LoopOf(world, which), polls[..k]) && LoopOf(world, which).running
      {
        PollTurnsOneLoop(old(world), world, which, polls[k]);
        PumpedOnce(before, LoopOf(world, which), polls[..k], polls[k]);
        assert polls[..k] + [polls[k]] == polls[..k + 1];
        Perform(if polls[k] then Connack(which) else Fails(which));
        if !LoopOf(world, which).running {
          PumpedOut(before, LoopOf(world, which), polls[..k + 1], polls);
          return;
        }
      }
      assert polls[..|polls|] == polls;
    }

    /** The renewal task and the connections, for as long as the supervisor is kept waiting. */
    method Meanwhile()
      requires Valid()
      modifies this`world, this`log
      ensures Valid() && NoReadIn(old(log), log) && Untouched(old(world), world)
    {
      var turns: nat :| turns >= 0;
      for turn := 0 to turns
        invariant Valid() && NoReadIn(old(log), log) && Untouched(old(world), world)
      {
        var act: Act, which: Which, polls: seq<bool> := *, *, *;
        if ByRenewal(act) {
          if May(world, act) {
            LeavesUntouched(old(world), world, act);
            Perform(act);
          }
        } else if (which.TheOld? || HasNext(world)) && LoopOf(world, which).running {
          Pump(which, polls);
        }
      }
    }

    /** The supervisor, for as long as the renewal task is kept waiting. */
    method Elsewhere()
      requires Valid()
      modifies this`world, this`log
      ensures Valid() && old(log) <= log
      ensures world.renewal == old(world.renewal) && world.saves == old(world.saves)
      ensures world.disk == old(world.disk) && world.landed == old(world.landed)
      ensures !old(world.queued) ==> !world.queued
    {
      var turns: nat :| turns >= 0;
      for turn := 0 to turns
        invariant Valid() && old(log) <= log
        invariant world.renewal == old(world.renewal) && world.saves == old(world.saves)
        invariant world.disk == old(world.disk) && world.landed == old(world.landed)
        invariant !old(world.queued) ==> !world.queued
      {
        var act: Act := *;
        if !ByRenewal(act) && May(world, act) {
          Perform(act);
        }
      }
    }

    /**
     One renewal, from the answer in hand: write it down, however often that
     takes, and only then signal. The signal waits while an earlier one is
     queued, and goes once there is room.
     */
    method Renew(outcomes: seq<Outcome>) returns (signalled: bool)
      requires Valid() && world.renewal.Working?
      modifies this`world, this`log
      ensures Valid() && old(log) <= log
      ensures world.saves == old(world.saves) + Count(Written in outcomes)
      ensures world.disk == start.first + world.saves + Count(world.landed)
      ensures signalled ==> Written in outcomes && world.queued && world.renewal.Working?
      ensures !signalled ==> (world.renewal.Signalling? <==> Written in outcomes)
      ensures !signalled && Written in outcomes ==> world.queued
    {
      signalled := false;
      var k := 0;
      while k < |outcomes| && world.renewal.Working?
        invariant k <= |outcomes| && Valid() && old(log) <= log && !world.renewal.Gone?
        invariant world.saves == old(world.saves) + Count(world.renewal.Signalling?)
        invariant world.renewal.Signalling? <==> Written in outcomes[..k]
        decreases |outcomes| - k
      {
        Elsewhere();
        Perform(Save(outcomes[k]));
        k := k + 1;
      }
      assert Written in outcomes[..k] ==> Written in outcomes;
      assert world.renewal.Working? ==> outcomes[..k] == outcomes;
      if world.renewal.Signalling? {
        Elsewhere();
        if !world.queued {
          Perform(Send);
          signalled := true;
        }
      }
      RunKeeps(start, log);
    }

    /**
     Wait for the replacement's word, for as long as the clock allows. Losing
     the sender would end the wait as well; it never does.
     */
    method Await() returns (word: Word)
      requires Valid() && world.supervisor.Offering?
      modifies this`world, this`log
      ensures Valid() && NoReadIn(old(log), log) && Untouched(old(world), world)
      ensures May(world, Hear(word)) && word != Dropped
      ensures word == TimedOut <==> !Answered(log)
    {
      Meanwhile();
      var next := world.supervisor.next;
      word := if next.said then Acknowledged else if !next.running then Dropped else TimedOut;
      RunKeeps(start, log);
      if next.said {
        SaidWasAnswered(start, log);
      } else if Answered(log) {
        AnsweredWasSaid(start, log);
      }
    }

    /** `prepare`: read the file and start a replacement. `readable` is whether a client could be built from it. */
    method Prepare(readable: bool)
      requires Valid() && world.supervisor.Signalled?
      modifies this`world, this`log
      ensures Valid() && LastRead(old(log), log, readable) && log[|log| - 1] == Read(readable) && !Answered(log)
      ensures world.taken == old(world.taken) && world.cell == old(world.cell)
      ensures world.polling.client == old(world.polling.client)
      ensures if readable then world.supervisor.Offering? else world.supervisor.Waiting?
    {
      Meanwhile();
      ghost var behind := log;
      Perform(Read(readable));
      StillUnanswered(behind, Read(readable));
      assert log[|log| - 1] == Read(readable) && NoReadSince(log, |log| - 1);
    }

    /** The replacement is in the cell; the old connection drains, and goes. */
    method Finalize()
      requires Valid() && world.supervisor.Swapped?
      modifies this`world, this`log
      ensures Valid() && NoReadIn(old(log), log) && world.supervisor.Waiting? && Answered(log)
      ensures world.taken == old(world.taken) && world.polling.client == world.cell == old(world.cell)
    {
      Meanwhile();
      RunKeeps(start, log);
      SaidWasAnswered(start, log);
      ghost var behind := log;
      Perform(Replace);
      StillAnswered(behind, Replace);
    }

    /**
     One signal: read the file, let the replacement prove itself, and only then
     let go of the connection that works. It comes to a handover exactly if the
     file could be read and the broker took the replacement before the wait for
     it ended.
     */
    method HandOver(readable: bool) returns (done: bool)
      requires Valid() && world.supervisor.Signalled?
      modifies this`world, this`log
      ensures Valid() && LastRead(old(log), log, readable) && world.supervisor.Waiting?
      ensures world.taken == old(world.taken)
      ensures done <==> readable && Answered(log)
      ensures !readable ==> log[|log| - 1] == Read(false)
      ensures readable && !done ==> log[|log| - 1] == Hear(TimedOut)
      ensures done ==> world.polling.client == world.cell >= start.first + world.taken
      ensures !done ==> world.polling.client == world.cell == old(world.cell) && Live(world.polling)
      ensures world.cell >= old(world.cell)
    {
      Prepare(readable);
      if !readable {
        RunKeeps(start, log);
        return false;
      }
      ghost var read := log;
      var word := Await();
      RunKeeps(start, log);
      ghost var waited := log;
      Perform(Hear(word));
      StillLastRead(old(log), read, log, readable);
      if word == TimedOut {
        StillUnanswered(waited, Hear(word));
        RunKeeps(start, log);
        return false;
      }
      ghost var heard := log;
      Finalize();
      StillLastRead(old(log), heard, log, readable);
      return true;
    }

    /** The next signal, if there is one yet; the end, if there will be none. */
    method Next(readable: bool) returns (round: Round)
      requires Valid() && world.supervisor.Waiting?
      modifies this`world, this`log
      ensures Valid() && old(log) <= log && world.cell >= old(world.cell) && world.polling.client == world.cell
      ensures world.taken == old(world.taken) + Count(round.Took?)
      ensures round == Idle ==> !world.queued && !world.renewal.Gone? && world.supervisor.Waiting?
      ensures round == Over ==> world.supervisor.Ended? && Drop in log && !world.queued
      ensures round.Took? ==>
                && world.supervisor.Waiting? && LastRead(old(log), log, readable)
                && (round.done <==> readable && Answered(log))
                && (readable && !round.done ==> log[|log| - 1] == Hear(TimedOut))
      ensures if round == Took(true) then world.cell >= start.first + world.taken
              else world.cell == old(world.cell)
    {
      RunKeeps(start, log);
      Meanwhile();
      RunKeeps(start, log);
      if world.queued {
        ghost var behind := log;
        Perform(Take);
        ghost var taken := log;
        var done := HandOver(readable);
        StillLastReadBefore(old(log), taken, log, readable);
        return Took(done);
      }
      if world.renewal.Gone? {
        GoneMeansDropped(start, log);
        Perform(Finish);
        assert log[..|log| - 1] + [Finish] == log;
        return Over;
      }
      return Idle;
    }

    /**
     `supervise`, over the signals that come, until none can any more. Every
     round takes the signal there is. If every file can be read and no wait times
     out, what publishers use has caught up with the signals taken.
     */
    method Supervise(signals: seq<bool>) returns (rounds: seq<Round>)
      requires Valid() && world.supervisor.Waiting?
      modifies this`world, this`log
      ensures Valid() && old(log) <= log && Explained(signals, rounds, old(log), log)
      ensures |rounds| < |signals| ==> rounds != [] && rounds[|rounds| - 1] == Over
      ensures world.supervisor.Ended? <==> Over in rounds
      ensures world.supervisor.Ended? ==> Drop in log && !world.queued
      ensures rounds != [] && rounds[|rounds| - 1] == Idle ==> !world.queued && !world.renewal.Gone?
      ensures world.taken == old(world.taken) + Taken(rounds)
      ensures world.cell >= old(world.cell) && world.polling.client == world.cell
      ensures Took(false) !in rounds && Taken(rounds) > 0 ==> world.cell >= start.first + world.taken
    {
      RunKeeps(start, log);
      rounds := [];
      while |rounds| < |signals|
        invariant Valid() && old(log) <= log && Explained(signals, rounds, old(log), log)
        invariant world.supervisor.Waiting? && Over !in rounds
        invariant rounds != [] && rounds[|rounds| - 1] == Idle ==> !world.queued && !world.renewal.Gone?
        invariant world.taken == old(world.taken) + Taken(rounds)
        invariant world.cell >= old(world.cell) && world.polling.client == world.cell
        invariant Took(false) !in rounds && Taken(rounds) > 0 ==> world.cell >= start.first + world.taken
      {
        ghost var behind := log;
        var round := Next(signals[|rounds|]);
        ExplainedOn(signals, rounds, round, old(log), behind, log);
        rounds := rounds + [round];
        if round == Over {
          return;
        }
      }
    }
  }

  /** What the supervisor comes to in one round: nothing to take, a signal taken and handed over or not, or the end. */
  datatype Round = Idle | Took(done: bool) | Over

  function Taken(rounds: seq<Round>): nat {
    if rounds == [] then 0 else Taken(rounds[..|rounds| - 1]) + Count(rounds[|rounds| - 1].Took?)
  }

  ghost predicate TimedOutSince(was: seq<Act>, acts: seq<Act>) {
    exists j :: |was| <= j < |acts| && acts[j] == Hear(TimedOut)
  }

  /** A signal came to a handover only if the file could be read; and one that did not, then, timed out. */
  ghost predicate Explained(signals: seq<bool>, rounds: seq<Round>, was: seq<Act>, acts: seq<Act>) {
    && |rounds| <= |signals|
    && forall k {:trigger rounds[k]} :: 0 <= k < |rounds| ==> Explains(signals[k], rounds[k], was, acts)
  }

  ghost predicate Explains(readable: bool, round: Round, was: seq<Act>, acts: seq<Act>) {
    round.Took? ==> (round.done ==> readable) && (readable && !round.done ==> TimedOutSince(was, acts))
  }

  lemma ExplainedOn(
    signals: seq<bool>, rounds: seq<Round>, round: Round, was: seq<Act>, acts: seq<Act>, more: seq<Act>)
    requires Explained(signals, rounds, was, acts) && |rounds| < |signals| && was <= acts <= more
    requires round.Took? ==>
               && (round.done ==> signals[|rounds|])
               && (signals[|rounds|] && !round.done ==> |acts| < |more| && more[|more| - 1] == Hear(TimedOut))
    ensures Explained(signals, rounds + [round], was, more)
    ensures Taken(rounds + [round]) == Taken(rounds) + Count(round.Took?)
  {
    TimedOutStill(was, acts, more);
    assert (rounds + [round])[..|rounds|] == rounds;
    forall k {:trigger (rounds + [round])[k]} | 0 <= k <= |rounds|
      ensures Explains(signals[k], (rounds + [round])[k], was, more)
    {
      assert k < |rounds| ==> (rounds + [round])[k] == rounds[k];
    }
  }

  lemma TimedOutStill(was: seq<Act>, acts: seq<Act>, more: seq<Act>)
    requires was <= acts <= more
    ensures TimedOutSince(was, acts) ==> TimedOutSince(was, more)
    ensures |acts| < |more| && more[|more| - 1] == Hear(TimedOut) ==> TimedOutSince(was, more)
  {
    if TimedOutSince(was, acts) {
      var j :| |was| <= j < |acts| && acts[j] == Hear(TimedOut);
      assert more[j] == Hear(TimedOut);
    }
  }
}
