/**
 The rotating enrollment token. The platform accepts the current token and the
 one before it, and rotates on every success; so an answer that never reaches
 the disk costs the device a generation, and two in a row lock it out.

 Tokens are counted: generation 0 is the one a person types in. What a write to
 the state file leaves, and what a power cut then may, is `Durable.WriteShows`
 and `Durable.CutShows`.
 */
module Tokens {
  import Durable
  import opened Options
  import opened Saving

  datatype Mind =
    | Off
    | Enrolling                            // no state: the configured token
    | Renewing(token: nat)                 // the state in memory
    | Holding(first: bool, token: nat)     // an answer that is not on disk yet

  datatype World = World(
    generation: nat,             // the platform's current token
    disk: Option<nat>,           // the state file, as a process reads it
    may: set<Option<nat>>,       // what a power cut may leave there
    settled: bool,               // and it cannot take the file's directory
    mind: Mind,
    // What has happened. No code reads these.
    saved: nat,                  // the oldest token a power cut may leave in the file
    lost: nat)                   // rotations since, but for the one in hand

  /** What a request comes to. One that is refused, or never gets there, rotates nothing. */
  datatype Reply = NotAnswered | Answered | AnswerLost

  datatype Act =
    | Boot
    | Ask(reply: Reply)
    | Save(outcome: Outcome)
    | GiveUp                         // a first enrollment that could not be written down
    | Die
    | PowerCut(left: Option<nat>)

  function Token(disk: Option<nat>): nat {
    if disk.None? then 0 else disk.value
  }

  /** The current token, or the one it replaced. */
  predicate Accepts(generation: nat, token: nat) {
    token == generation || token + 1 == generation
  }

  /** The token the process would present. */
  function Presented(mind: Mind): nat {
    match mind
    case Renewing(token) => token
    case _ => 0
  }

  /** What a power cut now may leave. */
  predicate Leaves(w: World, left: Option<nat>) {
    left in w.may || (!w.settled && left.None?)
  }

  /**
   The rule the device keeps: an answer in hand is written down, or the process
   ends; it is never asked for again.
   */
  predicate May(w: World, act: Act) {
    match act
    case Boot => w.mind.Off?
    case PowerCut(left) => Leaves(w, left)
    case Die => !w.mind.Off?
    case GiveUp => w.mind.Holding? && w.mind.first
    case Save(_) => w.mind.Holding?
    case Ask(reply) =>
      && (w.mind.Enrolling? || w.mind.Renewing?)
      && (!reply.NotAnswered? ==> Accepts(w.generation, Presented(w.mind)))
  }

  /** By how many generations what is left is behind the platform. */
  function Behind(generation: nat, left: Option<nat>): nat {
    if generation >= Token(left) then generation - Token(left) else 0
  }

  /** A process that ends with an answer in hand loses it. */
  function Ended(w: World): World {
    w.(mind := Off, lost := w.lost + if w.mind.Holding? then 1 else 0)
  }

  function Do(w: World, act: Act): World {
    match act
    case Boot => w.(mind := if w.disk.None? then Enrolling else Renewing(w.disk.value))
    case PowerCut(left) =>
      w.(mind := Off, disk := left, may := {left}, settled := w.settled || left.Some?,
         saved := Token(left), lost := Behind(w.generation, left))
    case Die => Ended(w)
    case GiveUp => Ended(w)
    case Ask(Answered) => w.(generation := w.generation + 1, mind := Holding(w.mind.Enrolling?, w.generation + 1))
    case Ask(AnswerLost) => w.(generation := w.generation + 1, lost := w.lost + 1)
    case Ask(_) => w
    case Save(outcome) =>
      if !w.mind.Holding? then w
      else
        var token := Some(w.mind.token);
        match outcome
        case Written =>
          w.(disk := token, may := Durable.Keeping(w.may, token, true), mind := Renewing(w.mind.token),
             saved := w.mind.token, lost := 0)
        case Landed => w.(disk := token, may := Durable.Keeping(w.may, token, false))
        case NotWritten => w
  }

  predicate Factory(w: World) {
    w == World(0, None, {None}, w.settled, Off, 0, 0)
  }

  function Run(w: World, acts: seq<Act>): World {
    if acts == [] then w else Do(Run(w, acts[..|acts| - 1]), acts[|acts| - 1])
  }

  predicate Lawful(w: World, acts: seq<Act>) {
    acts != [] ==>
      && Lawful(w, acts[..|acts| - 1])
      && May(Run(w, acts[..|acts| - 1]), acts[|acts| - 1])
  }

  /**
   Every rotation since the oldest token the file may hold is one that was lost
   or one still in hand.
   */
  predicate Inv(w: World) {
    && w.generation == w.saved + w.lost + (if w.mind.Holding? then 1 else 0)
    && w.disk in w.may
    && (forall left :: left in w.may ==> w.saved <= Token(left) <= w.generation)
    && (exists left :: left in w.may && Token(left) == w.saved)
    && match w.mind
       case Off => true
       case Enrolling => w.disk.None?
       case Renewing(token) => w.disk == Some(token)
       case Holding(_, token) => token == w.generation
  }

  lemma StepKeeps(w: World, act: Act)
    requires Inv(w) && May(w, act)
    ensures Inv(Do(w, act))
  {
    assert act.Save? && act.outcome.Written? && w.mind.Holding? ==> Token(Some(w.mind.token)) == w.mind.token;
  }

  lemma {:induction false} RunKeeps(w: World, acts: seq<Act>)
    requires Inv(w) && Lawful(w, acts)
    ensures Inv(Run(w, acts))
  {
    if acts == [] {
    } else {
      RunKeeps(w, acts[..|acts| - 1]);
      StepKeeps(Run(w, acts[..|acts| - 1]), acts[|acts| - 1]);
    }
  }

  // -------------------------------------------------- losses, act by act

  function Rotations(acts: seq<Act>): nat {
    if acts == [] then 0
    else Rotations(acts[..|acts| - 1])
         + if acts[|acts| - 1] in {Ask(Answered), Ask(AnswerLost)} then 1 else 0
  }

  /** An answer that never arrived, or a process that ended, one way or another, with one in hand. */
  predicate Loses(w: World, act: Act) {
    act == Ask(AnswerLost) || ((act.Die? || act.GiveUp? || act.PowerCut?) && w.mind.Holding?)
  }

  /**
   Rotations lost in a run, event by event, since its last save that returned
   Ok. A power cut that takes the directory loses every one there was.
   */
  function Losses(w: World, acts: seq<Act>): nat {
    if acts == [] then 0
    else
      var front, last := acts[..|acts| - 1], acts[|acts| - 1];
      if last == Save(Written) then 0
      else if last.PowerCut? && last.left !in Run(w, front).may then Rotations(front)
      else Losses(w, front) + if Loses(Run(w, front), last) then 1 else 0
  }

  /**
   By how many generations, but for the answer in hand, a power cut may find the
   file behind. One that has struck settles how many it is.
   */
  function Lag(w: World, acts: seq<Act>): nat {
    if acts == [] then 0
    else
      var front, last := acts[..|acts| - 1], acts[|acts| - 1];
      if last == Save(Written) then 0
      else if last.PowerCut? then Behind(Rotations(front), last.left)
      else Lag(w, front) + if Loses(Run(w, front), last) then 1 else 0
  }

  lemma StepLoses(w: World, act: Act)
    requires May(w, act)
    ensures Do(w, act).generation == w.generation + if act in {Ask(Answered), Ask(AnswerLost)} then 1 else 0
    ensures Do(w, act).lost ==
            if act == Save(Written) then 0
            else if act.PowerCut? then Behind(w.generation, act.left)
            else w.lost + if Loses(w, act) then 1 else 0
    ensures w.settled ==> Do(w, act).settled
  {}

  lemma {:induction false} LagAddsUp(w: World, acts: seq<Act>)
    requires Factory(w) && Lawful(w, acts)
    ensures Run(w, acts).lost == Lag(w, acts) && Run(w, acts).generation == Rotations(acts)
    ensures w.settled ==> Run(w, acts).settled
  {
    if acts == [] {
    } else {
      LagAddsUp(w, acts[..|acts| - 1]);
      StepLoses(Run(w, acts[..|acts| - 1]), acts[|acts| - 1]);
    }
  }

  /** No save failed and landed all the same. */
  predicate NoLanding(acts: seq<Act>) {
    Save(Landed) !in acts
  }

  /** Then what the file holds is what a power cut leaves of it. */
  lemma {:induction false} NothingInDoubt(w: World, acts: seq<Act>)
    requires Factory(w) && Lawful(w, acts) && NoLanding(acts)
    ensures Run(w, acts).may == {Run(w, acts).disk}
  {
    if acts == [] {
    } else {
      var front, last := acts[..|acts| - 1], acts[|acts| - 1];
      assert last in acts && last != Save(Landed);
      NothingInDoubt(w, front);
      StepIsDefinite(Run(w, front), last);
    }
  }

  lemma StepIsDefinite(w: World, act: Act)
    requires w.may == {w.disk} && act != Save(Landed)
    ensures Do(w, act).may == {Do(w, act).disk}
  {}

  /**
   The file is never further behind than rotations were lost; and exactly so
   far where no failed save landed, which can only bring it forward.
   */
  lemma {:induction false} BehindByWhatWasLost(w: World, acts: seq<Act>)
    requires Factory(w) && Lawful(w, acts)
    ensures Lag(w, acts) <= Losses(w, acts)
    ensures NoLanding(acts) ==> Lag(w, acts) == Losses(w, acts)
  {
    if acts == [] {
    } else {
      var front, last := acts[..|acts| - 1], acts[|acts| - 1];
      BehindByWhatWasLost(w, front);
      RunKeeps(w, front);
      LagAddsUp(w, front);
      if NoLanding(acts) {
        NothingInDoubt(w, front);
      }
    }
  }

  function InHand(w: World): nat {
    if w.mind.Holding? then 1 else 0
  }

  /**
   What the next power cut may cost: what the file may lag by and the answer in
   hand; or, of a directory that is not there for good, every rotation.
   */
  function AtRisk(w: World, acts: seq<Act>): nat {
    if Run(w, acts).settled then Lag(w, acts) + InHand(Run(w, acts)) else Rotations(acts)
  }

  /** The platform will take whatever a power cut may leave. */
  ghost predicate Welcome(w: World) {
    forall left :: Leaves(w, left) ==> Accepts(w.generation, Token(left))
  }

  /**
   A power cut can lock the device out if and only if two rotations are at
   risk. Failed writes are not among them, however many there were.
   */
  lemma WelcomeExactlyBelowTwo(w: World, acts: seq<Act>)
    requires Factory(w) && Lawful(w, acts)
    ensures Welcome(Run(w, acts)) <==> AtRisk(w, acts) < 2
  {
    RunKeeps(w, acts);
    LagAddsUp(w, acts);
    var v := Run(w, acts);
    if AtRisk(w, acts) >= 2 {
      var oldest :| oldest in v.may && Token(oldest) == v.saved;
      assert Leaves(v, if v.settled then oldest else None);
    }
  }

  /** Two rotations were lost, event by event, since the last save that returned Ok, counting the one in hand. */
  ghost predicate TwoLost(w: World, acts: seq<Act>) {
    Losses(w, acts) + InHand(Run(w, acts)) >= 2
  }

  /**
   The device never locks itself out with fewer. Neither what it would present
   now nor, where its directory is there for good, anything a power cut may
   leave is refused before two rotations were lost; and where no failed save
   landed, something is from then on.
   */
  lemma LockedOutOnlyAfterTwoLosses(w: World, acts: seq<Act>)
    requires Factory(w) && Lawful(w, acts)
    ensures var v := Run(w, acts);
            && (!Accepts(v.generation, Token(v.disk)) ==> TwoLost(w, acts))
            && (v.settled && !Welcome(v) ==> TwoLost(w, acts))
            && (v.settled && NoLanding(acts) ==> (Welcome(v) <==> !TwoLost(w, acts)))
  {
    RunKeeps(w, acts);
    LagAddsUp(w, acts);
    BehindByWhatWasLost(w, acts);
    WelcomeExactlyBelowTwo(w, acts);
  }

  /**
   It does happen, in a directory that was made for the first save: two
   rotations, both saved, nothing lost; and a power cut that takes the directory
   leaves the device with a token the platform no longer knows.
   */
  lemma LockedOutWithNothingLost(w: World) returns (acts: seq<Act>)
    requires Factory(w) && !w.settled
    ensures Lawful(w, acts) && Losses(w, acts) == 0 && Run(w, acts).mind == Renewing(2)
    ensures May(Run(w, acts), PowerCut(None))
    ensures var v := Do(Run(w, acts), PowerCut(None)); !Accepts(v.generation, Token(v.disk))
  {
    acts := SavedOnce(w);
    Extend(w, acts, Ask(Answered));
    acts := acts + [Ask(Answered)];
    Extend(w, acts, Save(Written));
    acts := acts + [Save(Written)];
  }

  lemma SavedOnce(w: World) returns (acts: seq<Act>)
    requires Factory(w)
    ensures Lawful(w, acts)
    ensures Run(w, acts) == World(1, Some(1), {Some(1)}, w.settled, Renewing(1), 1, 0)
  {
    acts := [];
    Extend(w, acts, Boot);
    acts := acts + [Boot];
    Extend(w, acts, Ask(Answered));
    acts := acts + [Ask(Answered)];
    Extend(w, acts, Save(Written));
    acts := acts + [Save(Written)];
  }

  /** Every request presents the token on disk, or the configured one while there is none. */
  lemma {:induction false} PresentsWhatIsOnDisk(w: World, acts: seq<Act>, reply: Reply)
    requires Factory(w) && Lawful(w, acts) && May(Run(w, acts), Ask(reply))
    ensures Presented(Run(w, acts).mind) == Token(Run(w, acts).disk)
  {
    RunKeeps(w, acts);
  }

  // ------------------------------------------------------------ the code

  const SAVE_ATTEMPTS: nat := 5

  /** A run cut short anywhere is a run. */
  lemma {:induction false} Prefix(w: World, acts: seq<Act>, k: nat)
    requires Lawful(w, acts) && k <= |acts|
    ensures Lawful(w, acts[..k])
  {
    if k < |acts| {
      Prefix(w, acts[..|acts| - 1], k);
      assert acts[..|acts| - 1][..k] == acts[..k];
    } else {
      assert acts[..k] == acts;
    }
  }

  lemma Extend(w: World, acts: seq<Act>, act: Act)
    requires Lawful(w, acts) && May(Run(w, acts), act)
    ensures Lawful(w, acts + [act]) && Run(w, acts + [act]) == Do(Run(w, acts), act)
  {}

  ghost predicate Secure(w: World, acts: seq<Act>) {
    var v := Run(w, acts);
    && (Accepts(v.generation, Token(v.disk)) || TwoLost(w, acts))
    && (v.settled ==> Welcome(v) || TwoLost(w, acts))
    && (Welcome(v) <==> AtRisk(w, acts) < 2)
  }

  /** What becomes of one request: whether it is answered, whether that is heard, and whether another is in vain. */
  datatype Way = Way(answers: bool, heard: bool, fatal: bool)

  /** What one turn of the renewal loop meets: its request, if it makes one, and its write, if it makes one. */
  datatype Turn = Turn(way: Way, outcome: Outcome)

  /** What one life of the process meets. It is stopped when its turns are over; a write beyond these fails. */
  datatype Life = Life(
    readable: bool,            // the state file can be read, and is this device's
    configured: bool,          // a name and a token to enroll with
    ways: seq<Way>,            // the requests of a first enrollment
    writes: seq<Outcome>,      // and its writes
    turns: seq<Turn>,
    powerFails: bool)

  // --------------------------------------------- what the code is to do

  /** The platform answers only a token it takes. */
  ghost function Comes(w: World, way: Way): Reply {
    if way.answers && Accepts(w.generation, Presented(w.mind))
    then if way.heard then Answered else AnswerLost
    else NotAnswered
  }

  /** Nothing more is asked: it was answered, or refused in a way that asking again does not mend. */
  predicate Final(reply: Reply, way: Way) {
    reply.Answered? || way.fatal
  }

  /** One request after another, each coming to what it must, and none after one that was final. */
  ghost predicate Asking(w: World, ways: seq<Way>, asks: seq<Act>) {
    && |asks| <= |ways|
    && (forall k {:trigger asks[k]} :: 0 <= k < |asks| ==> asks[k] == Ask(Comes(Run(w, asks[..k]), ways[k])))
    && (forall k {:trigger asks[k]} :: 0 <= k < |asks| - 1 ==> !Final(asks[k].reply, ways[k]))
  }

  /** And none left out. */
  ghost predicate Asked(w: World, ways: seq<Way>, asks: seq<Act>) {
    && Asking(w, ways, asks)
    && (|asks| < |ways| ==> asks != [] && Final(asks[|asks| - 1].reply, ways[|asks| - 1]))
  }

  lemma AskOnce(w: World, ways: seq<Way>, asks: seq<Act>)
    requires Asking(w, ways, asks) && |asks| < |ways|
    requires asks != [] ==> !Final(asks[|asks| - 1].reply, ways[|asks| - 1])
    ensures var ask := Ask(Comes(Run(w, asks), ways[|asks|]));
            Asking(w, ways, asks + [ask]) && Run(w, asks + [ask]) == Do(Run(w, asks), ask)
  {
    var more := asks + [Ask(Comes(Run(w, asks), ways[|asks|]))];
    assert more[..|asks|] == asks;
    forall k | 0 <= k < |more| ensures more[k] == Ask(Comes(Run(w, more[..k]), ways[k])) {
      assert k < |asks| ==> more[..k] == asks[..k] && more[k] == asks[k];
    }
  }

  function WriteOf(writes: seq<Outcome>, k: nat): Outcome {
    if k < |writes| then writes[k] else NotWritten
  }

  /** Write after write, and none after one that was written down. */
  ghost predicate Trying(writes: seq<Outcome>, saves: seq<Act>) {
    && (forall k {:trigger saves[k]} :: 0 <= k < |saves| ==> saves[k] == Save(WriteOf(writes, k)))
    && (forall k {:trigger saves[k]} :: 0 <= k < |saves| - 1 ==> saves[k] != Save(Written))
  }

  lemma TryOnce(writes: seq<Outcome>, saves: seq<Act>)
    requires Trying(writes, saves) && (saves != [] ==> saves[|saves| - 1] != Save(Written))
    ensures Trying(writes, saves + [Save(WriteOf(writes, |saves|))])
  {}

  /** Up to the first that is, or SAVE_ATTEMPTS more after the first. */
  ghost predicate Saved(writes: seq<Outcome>, saves: seq<Act>) {
    && Trying(writes, saves) && 1 <= |saves| <= SAVE_ATTEMPTS + 1
    && (|saves| < SAVE_ATTEMPTS + 1 ==> saves[|saves| - 1] == Save(Written))
  }

  /**
   A first enrollment. Nothing is asked without a name and a token. With them,
   the device asks until there is an answer; an answer is written down, which
   establishes it, or given up with the process.
   */
  ghost predicate FirstEnrolls(w: World, life: Life, asks: seq<Act>, saves: seq<Act>, acts: seq<Act>,
                               established: bool) {
    if !life.configured then acts == [Die] && !established
    else
      && Asked(w, life.ways, asks)
      && if asks == [] || asks[|asks| - 1] != Ask(Answered) then acts == asks + [Die] && !established
         else
           && Saved(life.writes, saves) && (established <==> saves[|saves| - 1] == Save(Written))
           && acts == if established then asks + saves else asks + saves + [GiveUp]
  }

  /** The start of a process: the stored state used as it is, or a first enrollment, or nothing done at all. */
  ghost predicate Establishes(w: World, life: Life, acts: seq<Act>, established: bool) {
    if !life.readable then acts == [Boot, Die] && !established
    else if w.disk.Some? then acts == [Boot] && established
    else
      exists asks, saves, first ::
        acts == [Boot] + first && FirstEnrolls(Do(w, Boot), life, asks, saves, first, established)
  }

  /** One turn of the renewal loop: what is in hand is written; nothing else is asked until it has been. */
  ghost function TurnActs(w: World, turn: Turn): seq<Act> {
    if w.mind.Holding? then [Save(turn.outcome)]
    else if Comes(w, turn.way).Answered? then [Ask(Answered), Save(turn.outcome)]
    else [Ask(Comes(w, turn.way))]
  }

  ghost function Turned(w: World, turns: seq<Turn>): seq<Act> {
    if turns == [] then []
    else
      var acts := Turned(w, turns[..|turns| - 1]);
      acts + TurnActs(Run(w, acts), turns[|turns| - 1])
  }

  lemma TurnedOn(w: World, turns: seq<Turn>, k: nat)
    requires k < |turns|
    ensures var acts, v := Turned(w, turns[..k]), Run(w, Turned(w, turns[..k]));
            Turned(w, turns[..k + 1]) == acts + TurnActs(v, turns[k])
  {
    assert turns[..k + 1][..k] == turns[..k];
  }

  lemma {:induction false} RunOn(w: World, acts: seq<Act>, more: seq<Act>)
    ensures Run(w, acts + more) == Run(Run(w, acts), more)
  {
    if more == [] {
      assert acts + more == acts;
    } else {
      RunOn(w, acts, more[..|more| - 1]);
      assert (acts + more)[..|acts + more| - 1] == acts + more[..|more| - 1];
    }
  }

  /** A turn that hears an answer, or has one in hand, and can write, puts the platform's current token on disk. */
  lemma TurnCatchesUp(w: World, turn: Turn)
    requires Inv(w) && turn.outcome.Written?
    requires w.mind.Holding? || (w.mind.Renewing? && Comes(w, turn.way).Answered?)
    ensures var v := Run(w, TurnActs(w, turn));
            v.mind == Renewing(v.generation) && v.disk == Some(v.generation) && v.may == {v.disk} && v.lost == 0
  {
    RunOfTwo(w, Ask(Answered), Save(turn.outcome));
  }

  datatype Moment = Moment(log: seq<Act>, world: World)

  /** From one moment to another, exactly this was done. */
  ghost predicate Leads(from: Moment, acts: seq<Act>, to: Moment) {
    to.log == from.log + acts && to.world == Run(from.world, acts)
  }

  lemma LeadsOn(from: Moment, acts: seq<Act>, via: Moment, more: seq<Act>, to: Moment)
    requires Leads(from, acts, via) && Leads(via, more, to)
    ensures Leads(from, acts + more, to)
  {
    RunOn(from.world, acts, more);
    Associative(from.log, acts, more);
  }

  lemma LeadsNowhere(at: Moment)
    ensures Leads(at, [], at)
  {}

  lemma Associative(acts: seq<Act>, more: seq<Act>, rest: seq<Act>)
    ensures acts + more + rest == acts + (more + rest)
  {}

  lemma RunOfTwo(w: World, one: Act, two: Act)
    ensures Run(w, [one]) == Do(w, one) && Run(w, [one, two]) == Do(Do(w, one), two)
  {
    assert [one][..0] == [] && [one, two][..1] == [one];
  }

  /** What one life does, from its boot to its end. */
  ghost predicate Lives(w: World, life: Life, acts: seq<Act>) {
    exists first, established, end ::
      && Establishes(w, life, first, established)
      && acts == first + (if established then Turned(Run(w, first), life.turns) else []) + end
      && Ends(life, established, end)
  }

  /** It dies, by itself or with the power. */
  predicate Ends(life: Life, established: bool, end: seq<Act>) {
    if life.powerFails then |end| == 1 && end[0].PowerCut?
    else end == if established then [Die] else []
  }

  function Joined(days: seq<seq<Act>>): seq<Act> {
    if days == [] then [] else Joined(days[..|days| - 1]) + days[|days| - 1]
  }

  /** One life after another, each from where the one before it left things. */
  ghost predicate AllLive(w: World, lives: seq<Life>, days: seq<seq<Act>>) {
    && |days| <= |lives|
    && forall k {:trigger days[k]} :: 0 <= k < |days| ==> Lives(Run(w, Joined(days[..k])), lives[k], days[k])
  }

  lemma LiveOneMore(w: World, lives: seq<Life>, days: seq<seq<Act>>, acts: seq<Act>)
    requires AllLive(w, lives, days) && |days| < |lives|
    requires Lives(Run(w, Joined(days)), lives[|days|], acts)
    ensures AllLive(w, lives, days + [acts]) && Joined(days + [acts]) == Joined(days) + acts
  {
    var more := days + [acts];
    assert more[..|days|] == days;
    forall k {:trigger more[k]} | 0 <= k < |more| ensures Lives(Run(w, Joined(more[..k])), lives[k], more[k]) {
      assert k < |days| ==> more[..k] == days[..k] && more[k] == days[k];
    }
  }

  class Device {
    const start: World
    var world: World
    var log: seq<Act>

    ghost predicate Valid()
      reads this
    {
      Factory(start) && Lawful(start, log) && world == Run(start, log)
    }

    ghost function Now(): Moment
      reads this
    {
      Moment(log, world)
    }

    constructor (start: World)
      requires Factory(start)
      ensures Valid() && world == start && log == []
    {
      this.start, this.world, this.log := start, start, [];
    }

    method Perform(act: Act)
      requires Valid() && May(world, act)
      modifies this`world, this`log
      ensures Valid() && world == Do(old(world), act) && Leads(old(Now()), [act], Now())
    {
      Extend(start, log, act);
      world := Do(world, act);
      log := log + [act];
    }

    /** `enroll`: the platform decides, and the network decides whether the device hears of it. */
    method Enroll(way: Way) returns (answer: Option<nat>)
      requires Valid() && (world.mind.Enrolling? || world.mind.Renewing?)
      modifies this`world, this`log
      ensures Valid() && Leads(old(Now()), [Ask(Comes(old(world), way))], Now())
      ensures world == Do(old(world), Ask(Comes(old(world), way)))
      ensures answer.None? ==> world.mind == old(world.mind)
      ensures answer.Some? ==> world.mind == Holding(old(world.mind.Enrolling?), answer.value)
      ensures answer.Some? <==> way.answers && way.heard && Accepts(old(world.generation), Presented(old(world.mind)))
    {
      if !way.answers || !Accepts(world.generation, Presented(world.mind)) {
        Perform(Ask(NotAnswered));
        answer := None;
      } else if !way.heard {
        Perform(Ask(AnswerLost));
        answer := None;
      } else {
        Perform(Ask(Answered));
        answer := Some(world.generation);
      }
    }

    /** `Store::save`. */
    method Store(token: nat, outcome: Outcome) returns (ok: bool)
      requires Valid() && world.mind.Holding? && world.mind.token == token
      modifies this`world, this`log
      ensures Valid() && Leads(old(Now()), [Save(outcome)], Now())
      ensures ok <==> outcome.Written?
      ensures ok ==> world.mind == Renewing(token) && world.disk == Some(token) && world.lost == 0
      ensures !ok ==> world == old(world)
                      || world == old(world).(disk := Some(token),
                                              may := Durable.Keeping(old(world.may), Some(token), false))
    {
      Perform(Save(outcome));
      ok := outcome.Written?;
    }

    /** What the renewal loop holds: the state it renews, and an answer that is not on disk yet. */
    ghost predicate Holds(state: nat, unsaved: Option<nat>)
      reads this
    {
      Valid() && world.mind == if unsaved.Some? then Holding(false, unsaved.value) else Renewing(state)
    }

    /**
     One turn of the renewal loop. An answer that could not be written down is
     written again, and nothing else is asked for until it has been.
     */
    method TakeTurn(turn: Turn, state: nat, unsaved: Option<nat>) returns (next: nat, still: Option<nat>)
      requires Holds(state, unsaved)
      modifies this`world, this`log
      ensures Holds(next, still) && Leads(old(Now()), TurnActs(old(world), turn), Now())
    {
      next, still := state, None;
      var held := unsaved;
      ghost var acts: seq<Act>, from := [], Now();
      if held.None? {
        acts := [Ask(Comes(world, turn.way))];
        held := Enroll(turn.way);
      }
      if held.Some? {
        ghost var via := Now();
        var ok := Store(held.value, turn.outcome);
        LeadsOn(from, acts, via, [Save(turn.outcome)], Now());
        assert acts + [Save(turn.outcome)] == TurnActs(from.world, turn);
        if ok {
          next := held.value;
        } else {
          still := held;
        }
      }
    }

    /** The renewal loop, for as many turns as the process is left to run. */
    method Renew(first: nat, turns: seq<Turn>)
      requires Valid() && world.mind == Renewing(first)
      modifies this`world, this`log
      ensures Valid() && (world.mind.Renewing? || world.mind.Holding?)
      ensures Leads(old(Now()), Turned(old(world), turns), Now())
    {
      var state := first;
      var unsaved: Option<nat> := None;
      for k := 0 to |turns|
        invariant Holds(state, unsaved) && Leads(old(Now()), Turned(old(world), turns[..k]), Now())
      {
        ghost var via := Now();
        state, unsaved := TakeTurn(turns[k], state, unsaved);
        TurnedOn(old(world), turns, k);
        LeadsOn(old(Now()), Turned(old(world), turns[..k]), via, TurnActs(via.world, turns[k]), Now());
      }
      assert turns[..|turns|] == turns;
    }

    /** Ask until answered, or refused in a way that asking again does not mend. */
    method AskFirst(ways: seq<Way>) returns (answer: Option<nat>, ghost asks: seq<Act>)
      requires Valid() && world.mind.Enrolling?
      modifies this`world, this`log
      ensures Valid() && Leads(old(Now()), asks, Now()) && Asked(old(world), ways, asks)
      ensures answer.Some? <==> asks != [] && asks[|asks| - 1] == Ask(Answered)
      ensures answer.Some? ==> world.mind == Holding(true, answer.value)
      ensures answer.None? ==> world.mind.Enrolling?
    {
      answer, asks := None, [];
      var attempt := 0;
      while attempt < |ways| && answer.None?
        invariant attempt == |asks| <= |ways|
        invariant Valid() && Leads(old(Now()), asks, Now()) && Asking(old(world), ways, asks)
        invariant answer.None? && asks != [] ==> !Final(asks[attempt - 1].reply, ways[attempt - 1])
        invariant answer.Some? <==> asks != [] && asks[attempt - 1] == Ask(Answered)
        invariant answer.Some? ==> world.mind == Holding(true, answer.value)
        invariant answer.None? ==> world.mind.Enrolling?
      {
        ghost var via, ask := Now(), Ask(Comes(world, ways[attempt]));
        answer := Enroll(ways[attempt]);
        AskOnce(old(world), ways, asks);
        LeadsOn(old(Now()), asks, via, [ask], Now());
        asks := asks + [ask];
        if answer.None? && ways[attempt].fatal {
          return;
        }
        attempt := attempt + 1;
      }
    }

    /** One more write of a first answer. */
    method SaveAgain(token: nat, writes: seq<Outcome>, attempt: nat, ghost from: Moment, ghost saves: seq<Act>)
      returns (ok: bool)
      requires Valid() && world.mind == Holding(true, token) && attempt == |saves|
      requires Leads(from, saves, Now()) && Trying(writes, saves)
      requires saves != [] ==> saves[attempt - 1] != Save(Written)
      modifies this`world, this`log
      ensures Valid() && Leads(from, saves + [Save(WriteOf(writes, attempt))], Now())
      ensures Trying(writes, saves + [Save(WriteOf(writes, attempt))])
      ensures ok <==> WriteOf(writes, attempt).Written?
      ensures world.mind == if ok then Renewing(token) else Holding(true, token)
    {
      ghost var via := Now();
      ok := Store(token, WriteOf(writes, attempt));
      LeadsOn(from, saves, via, [Save(WriteOf(writes, attempt))], Now());
      TryOnce(writes, saves);
    }

    /** Write it down, again and again: SAVE_ATTEMPTS more after the first, and never another request. */
    method SaveFirst(token: nat, writes: seq<Outcome>) returns (ok: bool, ghost saves: seq<Act>)
      requires Valid() && world.mind == Holding(true, token)
      modifies this`world, this`log
      ensures Valid() && Leads(old(Now()), saves, Now()) && Saved(writes, saves)
      ensures ok <==> saves[|saves| - 1] == Save(Written)
      ensures world.mind == if ok then Renewing(token) else Holding(true, token)
    {
      var attempt := 0;
      saves := [];
      LeadsNowhere(Now());
      ok := SaveAgain(token, writes, 0, Now(), saves);
      saves := saves + [Save(WriteOf(writes, 0))];
      while !ok && attempt < SAVE_ATTEMPTS
        invariant attempt <= SAVE_ATTEMPTS && |saves| == attempt + 1
        invariant Valid() && Leads(old(Now()), saves, Now()) && Trying(writes, saves)
        invariant ok <==> saves[attempt] == Save(Written)
        invariant world.mind == if ok then Renewing(token) else Holding(true, token)
        decreases SAVE_ATTEMPTS - attempt
      {
        attempt := attempt + 1;
        ok := SaveAgain(token, writes, attempt, old(Now()), saves);
        saves := saves + [Save(WriteOf(writes, attempt))];
      }
    }

    /** With no answer the process ends; and so it does with one that could not be written down. */
    method FirstEnrollment(life: Life)
      returns (established: bool, ghost asks: seq<Act>, ghost saves: seq<Act>, ghost acts: seq<Act>)
      requires Valid() && world.mind.Enrolling?
      modifies this`world, this`log
      ensures Valid() && Leads(old(Now()), acts, Now())
      ensures FirstEnrolls(old(world), life, asks, saves, acts, established)
      ensures established ==> world.mind.Renewing?
      ensures !established ==> world.mind.Off?
    {
      asks, saves, acts := [], [], [];
      var answer: Option<nat> := None;
      if life.configured {
        answer, asks := AskFirst(life.ways);
      }
      ghost var asked := Now();
      if answer.None? {
        Perform(Die);
        LeadsOn(old(Now()), asks, asked, [Die], Now());
        return false, asks, saves, asks + [Die];
      }
      established, saves := SaveFirst(answer.value, life.writes);
      ghost var tried := Now();
      LeadsOn(old(Now()), asks, asked, saves, tried);
      acts := asks + saves;
      if !established {
        Perform(GiveUp);
        LeadsOn(old(Now()), acts, tried, [GiveUp], Now());
        acts := acts + [GiveUp];
      }
    }

    /** `establish`: the stored state, or a first enrollment. A usable certificate and a spent one go the same way. */
    method Establish(life: Life) returns (established: bool, ghost acts: seq<Act>)
      requires Valid() && world.mind.Off?
      modifies this`world, this`log
      ensures Valid() && Leads(old(Now()), acts, Now()) && Establishes(old(world), life, acts, established)
      ensures established ==> world.mind.Renewing?
      ensures !established ==> world.mind.Off?
    {
      Perform(Boot);
      ghost var booted := Now();
      if !life.readable {
        Perform(Die);
        LeadsOn(old(Now()), [Boot], booted, [Die], Now());
        return false, [Boot, Die];
      }
      if world.disk.None? {
        ghost var asks, saves, first;
        established, asks, saves, first := FirstEnrollment(life);
        LeadsOn(old(Now()), [Boot], booted, first, Now());
        acts := [Boot] + first;
      } else {
        established, acts := true, [Boot];
      }
    }

    method LosePower() returns (ghost act: Act)
      requires Valid()
      modifies this`world, this`log
      ensures Valid() && world.mind.Off? && act.PowerCut? && Leads(old(Now()), [act], Now())
    {
      RunKeeps(start, log);
      var left: Option<nat> := *;
      if !Leaves(world, left) {
        left := world.disk;
      }
      act := PowerCut(left);
      Perform(PowerCut(left));
    }

    /** The end of a process, by itself or with the power. */
    method Finish(life: Life, established: bool) returns (ghost end: seq<Act>)
      requires Valid() && (established <==> !world.mind.Off?)
      modifies this`world, this`log
      ensures Valid() && world.mind.Off? && Leads(old(Now()), end, Now()) && Ends(life, established, end)
    {
      end := [];
      if life.powerFails {
        ghost var cut := LosePower();
        end := [cut];
      } else if established {
        Perform(Die);
        end := [Die];
      }
    }

    method Live(life: Life) returns (ghost acts: seq<Act>)
      requires Valid() && world.mind.Off?
      modifies this`world, this`log
      ensures Valid() && world.mind.Off? && Leads(old(Now()), acts, Now()) && Lives(old(world), life, acts)
    {
      var established;
      ghost var first, turns: seq<Act>;
      established, first := Establish(life);
      ghost var ready := Now();
      turns := if established then Turned(world, life.turns) else [];
      if established {
        Renew(world.mind.token, life.turns);
      }
      ghost var done := Now();
      LeadsOn(old(Now()), first, ready, turns, done);
      ghost var end := Finish(life, established);
      LeadsOn(old(Now()), first + turns, done, end, Now());
      acts := first + turns + end;
    }

    /**
     Life after life, whatever the network, the disk and the power do: each goes
     as it must; and at every moment what the device would present is a token the
     platform takes, and so is what a power cut may leave in a directory that is
     there for good, unless two rotations were lost with no save between them.
     */
    method LiveOn(lives: seq<Life>) returns (ghost days: seq<seq<Act>>)
      requires Valid() && world.mind.Off?
      modifies this`world, this`log
      ensures Valid() && world.mind.Off?
      ensures |days| == |lives| && AllLive(old(world), lives, days) && Leads(old(Now()), Joined(days), Now())
      ensures forall k :: 0 <= k <= |log| ==> Secure(start, log[..k])
    {
      days := LiveThrough(lives);
      forall k | 0 <= k <= |log| ensures Secure(start, log[..k]) {
        Prefix(start, log, k);
        WelcomeExactlyBelowTwo(start, log[..k]);
        LockedOutOnlyAfterTwoLosses(start, log[..k]);
      }
    }

    method LiveThrough(lives: seq<Life>) returns (ghost days: seq<seq<Act>>)
      requires Valid() && world.mind.Off?
      modifies this`world, this`log
      ensures Valid() && world.mind.Off?
      ensures |days| == |lives| && AllLive(old(world), lives, days) && Leads(old(Now()), Joined(days), Now())
    {
      days := [];
      for k := 0 to |lives|
        invariant Valid() && world.mind.Off? && |days| == k
        invariant AllLive(old(world), lives, days) && Leads(old(Now()), Joined(days), Now())
      {
        ghost var via := Now();
        ghost var acts := Live(lives[k]);
        LiveOneMore(old(world), lives, days, acts);
        LeadsOn(old(Now()), Joined(days), via, acts, Now());
        days := days + [acts];
      }
    }
  }
}
