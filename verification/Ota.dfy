/**
 The firmware update machine: four files beside the running binary, a journal
 that survives power cuts, and the law every write obeys.

 A world is everything there is: the files, the journal as the process reads
 it, every journal a power cut may leave instead, and the process. An act is
 one thing that happens to it, atomic against a power cut. `May` says which
 acts the device's code allows itself at each point, `Do` what they change.
 Nothing here is an invariant: those are theorems, in `OtaSafety`.

 The contents of a file are identified by their sha256, as `sha256_file`
 prints it. Names in the binary's directory change in order and survive a power
 cut; bytes survive once they are flushed, and until then `loose` says where
 they are. What a journal write leaves, and what a power cut then may, is
 `Durable.WriteShows` and `Durable.CutShows`, with an empty journal for a file
 that is not there.
 */
module Ota {
  import Durable
  import opened Codec
  import opened Options

  const PROBATION_ATTEMPTS: nat := 3
  const PROBATION_WINDOW: int := 3_600_000
  const MAX_U32: nat := 4_294_967_295

  /** What `sha256_file` prints: 64 lower case digits. */
  predicate IsSha(text: string) {
    Canonical(text) && Fold(text) == text
  }

  type Sha = s: string | IsSha(s) witness seq(64, _ => '0')

  /** The digest an announced text stands for, if it stands for one. */
  function Named(text: string): (sha: Option<Sha>) {
    match Unhex(text)
    case Ok(bytes) =>
      FoldOfHex(bytes);
      Some(Hex(bytes))
    case Err(_) => None
  }

  // --------------------------------------------------------------- files

  datatype Platform = Unix | Windows

  datatype Place = Binary | New | Old | Away

  /** `loose` is where bytes were written and not flushed: a power cut may leave anything there. */
  datatype Files = Files(
    binary: Option<Sha>,
    staged: Option<Sha>,
    previous: Option<Sha>,
    rejected: Option<Sha>,
    loose: set<Place>)

  /** Bytes go where their file goes, flushed or not. */
  function Carried(loose: set<Place>, from: Place, to: Place): set<Place> {
    if from in loose then loose - {from} + {to} else loose - {to}
  }

  /** What a power cut may leave of `files`: every name, and the bytes that were flushed. */
  predicate Survives(files: Files, left: Files) {
    && left.loose == {}
    && (Binary in files.loose || left.binary == files.binary) && (left.binary.Some? <==> files.binary.Some?)
    && (Old in files.loose || left.previous == files.previous) && (left.previous.Some? <==> files.previous.Some?)
    && (Away in files.loose || left.rejected == files.rejected) && (left.rejected.Some? <==> files.rejected.Some?)
    && (New in files.loose || left.staged == files.staged)
  }

  datatype Spare = Previous | Rejected

  function At(files: Files, file: Spare): Option<Sha> {
    match file
    case Previous => files.previous
    case Rejected => files.rejected
  }

  // ------------------------------------------------------------- journal

  datatype Leftover = Leftover(file: Spare, sha256: string)

  datatype Probation = Probation(
    sha256: string,
    previousSha256: Sha,
    startedAt: int,
    deadline: int,
    attempts: nat)
  {
    /** Out of chances, by the count or by a clock worth consulting. */
    predicate Over(now: int) {
      attempts >= PROBATION_ATTEMPTS || (now >= startedAt && now > deadline)
    }
  }

  datatype Journal = Journal(
    probation: Option<Probation>,
    rejected: Option<string>,
    answered: Option<string>,
    leftovers: seq<Leftover>)

  const EMPTY_JOURNAL := Journal(None, None, None, [])

  function Without(leftovers: seq<Leftover>, file: Spare): (kept: seq<Leftover>)
    ensures forall l :: l in kept <==> l in leftovers && l.file != file
  {
    if leftovers == [] then []
    else if leftovers[0].file == file then Without(leftovers[1..], file)
    else [leftovers[0]] + Without(leftovers[1..], file)
  }

  /** `Journal::leave`: one record a file, the newest. */
  function Leave(leftovers: seq<Leftover>, file: Spare, sha256: string): seq<Leftover> {
    Without(leftovers, file) + [Leftover(file, sha256)]
  }

  /** `Probation::new`. */
  function Fresh(sha256: string, previous: Sha, now: int): Probation {
    Probation(sha256, previous, now, now + PROBATION_WINDOW, 0)
  }

  /**
   When a candidate's trial is over: on its third counted boot by any clock, or
   by a clock more than an hour past the one that began it. A clock that reads
   earlier than that began ends nothing.
   */
  lemma TrialEnds(sha256: string, previous: Sha, began: int, attempts: nat, now: int)
    ensures Fresh(sha256, previous, began).(attempts := attempts).Over(now) <==>
              attempts >= 3 || now > began + 3_600_000
    ensures attempts < 3 && now < began ==> !Fresh(sha256, previous, began).(attempts := attempts).Over(now)
  {}

  /** What `standing` reads off the marker and the binary that booted. */
  datatype Standing = Quiescent | Proving(marker: Probation) | Abandoned(marker: Probation) | Unrecoverable

  function StandingOf(journal: Journal, running: Sha): Standing {
    match journal.probation
    case None => Quiescent
    case Some(marker) =>
      if Same(marker.sha256, running) then Proving(marker)
      else if Same(marker.previousSha256, running) then Abandoned(marker)
      else Unrecoverable
  }

  // ------------------------------------------------------------- process

  /** How far the process has come. `me` is the binary it booted from. */
  datatype Phase =
    | Booted                              // nothing decided yet
    | Counted                             // this boot is on disk, the gate has not run
    | Probing                             // the gate is running
    | Passed                              // the gate ran: no fail, no timeout
    | Condemned                           // a gating probe failed, or there are no chances left
    | Parked                              // Windows: the candidate is aside, nothing is at the path
    | Restored(parked: bool)              // the previous binary is back
    | Ready                               // answering announcements
    | Fetching(text: string, sha: Sha)    // the signature over `sha` checks out
    | Marked                              // the marker is down, nothing has moved
    | Aside                               // the running binary is at `.old`, nothing is at the path
    | Undone                              // the swap did not happen
    | Leaving                             // nothing else this process does matters

  datatype Mind = Off | Up(me: Sha, phase: Phase)

  datatype Verdict = Healthy | Failing | Quiet

  // --------------------------------------------------------------- world

  /** What has happened. No code reads any of it. */
  datatype Past = Past(
    original: Sha,
    trusted: set<Sha>,   // finished a gate with no fail and no timeout, or was here first
    signed: set<Sha>,    // had its signature checked
    gates: nat,          // times the gate began since the last completed swap
    stranded: bool,      // an `.old` was given up on with no record of it
    forgotten: bool)     // a power cut took the journal's directory

  datatype World = World(
    platform: Platform,
    files: Files,
    journal: Journal,
    may: set<Journal>,
    settled: bool,       // a power cut cannot take the journal's directory
    mind: Mind,
    past: Past)

  /** What one journal update changes. */
  datatype Change =
    | ClearRejected(announced: string)
    | Mark(marker: Probation)
    | Unmark
    | CountAttempt
    | Keep(left: bool)
    | Refuse
    | RollBack
    | Abandon(leftPrevious: bool, leftRejected: bool)
    | Tidy(kept: seq<Leftover>)
    | Answer(run: string)

  datatype Act =
    | Boot
    | Die                                             // the process ends
    | PowerCut(journal: Journal, left: Files, kept: bool) // what the disk then holds; the journal's directory is kept
    | Carry                                           // nothing more to do here
    | Verify(text: string, sha: Sha)
    | Stage(content: Option<Sha>)                     // the staged file holds this much now
    | Flush                                           // and holds it for good
    | Unstage
    | Write(change: Change, synced: bool)
    | MoveAside                                       // binary to .old
    | MoveInto                                        // .new to binary
    | PutBack                                         // .old to binary, undoing MoveAside
    | SwapFailed
    | Probe(now: int)                                 // the gate begins
    | Gate(verdict: Verdict)                          // and answers
    | Condemn(now: int)
    | Replace                                         // Unix: .old over the candidate
    | Park                                            // Windows: binary to .rejected
    | Reinstate                                       // Windows: .old to binary
    | Unpark                                          // Windows: .rejected to binary
    | Delete(file: Spare)

  // ----------------------------------------------------------------- law

  predicate In(w: World, phase: Phase) {
    w.mind.Up? && w.mind.phase == phase
  }

  /** The marker names the binary that booted. */
  predicate OnTrial(w: World) {
    w.mind.Up? && w.journal.probation.Some? && Same(w.journal.probation.value.sha256, w.mind.me)
  }

  predicate NeverTook(w: World) {
    && w.mind.Up? && w.journal.probation.Some?
    && StandingOf(w.journal, w.mind.me).Abandoned?
  }

  /** Windows parked the candidate the marker names, and the rollback got no further. */
  predicate Interrupted(w: World) {
    && w.platform.Windows? && w.journal.probation.Some? && w.files.rejected.Some?
    && Same(w.files.rejected.value, w.journal.probation.value.sha256)
  }

  predicate Recorded(leftovers: seq<Leftover>, file: Spare, sha: Sha) {
    exists l :: l in leftovers && l.file == file && Same(sha, l.sha256)
  }

  /** A file this device finished with, still holding what was recorded. */
  predicate Spent(w: World, file: Spare) {
    && w.journal.probation.None?
    && At(w.files, file).Some?
    && Recorded(w.journal.leftovers, file, At(w.files, file).value)
  }

  predicate Unique(leftovers: seq<Leftover>) {
    forall i, j :: 0 <= i < j < |leftovers| ==> leftovers[i].file != leftovers[j].file
  }

  /** `.old` holds what the marker says was there. */
  predicate Checked(w: World) {
    && w.journal.probation.Some? && w.files.previous.Some?
    && Same(w.files.previous.value, w.journal.probation.value.previousSha256)
  }

  predicate MayWrite(w: World, change: Change)
    requires w.mind.Up?
  {
    match change
    case ClearRejected(announced) =>
      && In(w, Ready) && w.journal.rejected.Some?
      && !Same(w.journal.rejected.value, announced) && !Same(announced, w.mind.me)
    case Mark(marker) =>
      && w.mind.phase.Fetching?
      && marker.sha256 == w.mind.phase.text && marker.previousSha256 == w.mind.me && marker.attempts == 0
      && w.files.staged == Some(w.mind.phase.sha) && New !in w.files.loose
    case Unmark => In(w, Undone)
    case CountAttempt => In(w, Booted) && OnTrial(w)
    case Keep(left) =>
      && In(w, Passed)
      && (left ==> w.platform.Windows?)
      && (w.platform.Windows? && w.files.previous.Some? ==> left)
    case Refuse => In(w, Condemned)
    case RollBack => w.mind.phase.Restored?
    case Abandon(leftPrevious, leftRejected) =>
      && In(w, Booted) && NeverTook(w)
      && (leftPrevious ==> w.platform.Windows? && w.files.previous == Some(w.mind.me))
      && (leftRejected ==> w.platform.Windows?)
      && (Interrupted(w) ==> leftRejected)
    case Tidy(kept) =>
      && (In(w, Booted) || In(w, Ready)) && w.journal.probation.None?
      && Unique(kept)
      && (forall l :: l in kept ==> l in w.journal.leftovers)
      && (forall l :: l in w.journal.leftovers && l !in kept ==>
            At(w.files, l.file).None? || !Same(At(w.files, l.file).value, l.sha256))
    case Answer(_) => In(w, Ready)
  }

  predicate MayDelete(w: World, file: Spare)
    requires w.mind.Up?
  {
    || ((In(w, Booted) || In(w, Ready)) && Spent(w, file))
    || match file
       case Previous => In(w, Passed) || (In(w, Booted) && NeverTook(w) && w.files.previous == Some(w.mind.me))
       case Rejected => In(w, Booted) && NeverTook(w) && Interrupted(w)
  }

  predicate MayCarry(phase: Phase) {
    || phase.Booted? || phase.Passed? || phase.Condemned? || phase.Parked? || phase.Fetching? || phase.Undone?
    || phase.Ready?
  }

  /** What a running process allows itself, checks and program order together. */
  predicate MayProceed(w: World, act: Act)
    requires w.mind.Up?
  {
    match act
    case Boot => false
    case PowerCut(_, _, _) => false
    case Die => true
    case Carry => MayCarry(w.mind.phase)
    case Verify(text, sha) =>
      && In(w, Ready)
      && Named(text) == Some(sha) && !Same(text, w.mind.me)
      && w.journal.probation.None? && w.journal.rejected.None?
      && w.files.previous.None? && w.files.rejected.None?
    case Stage(_) => w.mind.phase.Fetching?
    case Flush => w.mind.phase.Fetching?
    case Unstage => In(w, Booted) || In(w, Ready) || w.mind.phase.Fetching? || In(w, Undone)
    case Write(change, _) => MayWrite(w, change)
    case MoveAside => In(w, Marked)
    case MoveInto => In(w, Aside)
    case PutBack => In(w, Aside)
    case SwapFailed => In(w, Marked) || In(w, Aside)
    case Probe(now) => In(w, Counted) && OnTrial(w) && !w.journal.probation.value.Over(now)
    case Gate(_) => In(w, Probing)
    case Condemn(now) =>
      In(w, Counted) && OnTrial(w) && w.journal.probation.value.Over(now)
    case Replace => In(w, Condemned) && w.platform.Unix? && Checked(w)
    case Park => In(w, Condemned) && w.platform.Windows? && Checked(w)
    case Reinstate => In(w, Parked)
    case Unpark => In(w, Parked)
    case Delete(file) => MayDelete(w, file)
  }

  predicate May(w: World, act: Act) {
    if act.Boot? then w.mind.Off? && w.files.binary.Some?
    else if act.PowerCut? then
      && Survives(w.files, act.left)
      && if act.kept then act.journal in w.may else !w.settled && act.journal == EMPTY_JOURNAL
    else w.mind.Up? && MayProceed(w, act)
  }

  // -------------------------------------------------------------- effect

  /** `attempts.saturating_add(1)` on 32 bits. */
  function Bump(attempts: nat): nat {
    if attempts < MAX_U32 then attempts + 1 else attempts
  }

  /** What settling the update `p` describes leaves in the journal. */
  function Settled(j: Journal, p: Probation, me: Sha, phase: Phase, change: Change): Journal {
    var cleared := j.(probation := None);
    var failed := cleared.(rejected := Some(p.sha256));
    match change
    case CountAttempt => j.(probation := Some(p.(attempts := Bump(p.attempts))))
    case Keep(left) =>
      if left then cleared.(leftovers := Leave(j.leftovers, Previous, p.previousSha256)) else cleared
    case Refuse => failed
    case RollBack =>
      if phase == Restored(true) then failed.(leftovers := Leave(j.leftovers, Rejected, p.sha256)) else failed
    case Abandon(leftPrevious, leftRejected) =>
      var first := if leftPrevious then Leave(j.leftovers, Previous, me) else j.leftovers;
      failed.(leftovers := if leftRejected then Leave(first, Rejected, p.sha256) else first)
    case _ => j
  }

  /** The journal an update leaves. One that settles an update finds its marker. */
  function Changed(w: World, change: Change): Journal {
    var j := w.journal;
    match change
    case ClearRejected(_) => j.(rejected := None)
    case Mark(marker) => j.(probation := Some(marker), leftovers := Without(j.leftovers, Previous))
    case Unmark => j.(probation := None)
    case Tidy(kept) => j.(leftovers := kept)
    case Answer(run) => j.(answered := Some(run))
    case _ =>
      if j.probation.Some? && w.mind.Up? then Settled(j, j.probation.value, w.mind.me, w.mind.phase, change) else j
  }

  /** Where a journal update leaves the process. */
  function After(phase: Phase, change: Change, synced: bool): Phase {
    match change
    case Mark(_) => if synced then Marked else Ready
    case CountAttempt => if synced then Counted else Ready
    case RollBack => Leaving
    case Tidy(_) => phase
    case Answer(_) => phase
    case ClearRejected(_) => phase
    case _ => Ready
  }

  function Strands(w: World, change: Change): bool {
    match change
    case Unmark => w.files.previous.Some?
    case Refuse => w.files.previous.Some?
    case Abandon(leftPrevious, _) => w.files.previous.Some? && !leftPrevious
    case _ => false
  }

  function To(w: World, phase: Phase): World {
    if w.mind.Up? then w.(mind := Up(w.mind.me, phase)) else w
  }

  /** A journal write, flushed or only landed. */
  function Wrote(w: World, change: Change, synced: bool): World {
    var journal := Changed(w, change);
    w.(journal := journal,
       may := Durable.Keeping(w.may, journal, synced),
       mind := if w.mind.Up? then Up(w.mind.me, After(w.mind.phase, change, synced)) else Off,
       past := w.past.(stranded := w.past.stranded || Strands(w, change)))
  }

  function Ran(w: World, verdict: Verdict): World {
    if w.mind.Off? then w
    else
      match verdict
      case Healthy => To(w.(past := w.past.(trusted := w.past.trusted + {w.mind.me})), Passed)
      case Failing => To(w, Condemned)
      case Quiet => To(w, Ready)
  }

  function Do(w: World, act: Act): World {
    var f := w.files;
    match act
    case Boot => if f.binary.Some? then w.(mind := Up(f.binary.value, Booted)) else w
    case Die => w.(mind := Off)
    case PowerCut(journal, left, kept) =>
      w.(mind := Off, files := left, journal := journal, may := {journal},
         settled := w.settled || journal != EMPTY_JOURNAL,
         past := w.past.(forgotten := w.past.forgotten || !kept))
    case Carry => To(w, Ready)
    case Verify(text, sha) => To(w.(past := w.past.(signed := w.past.signed + {sha})), Fetching(text, sha))
    case Stage(content) => w.(files := f.(staged := content, loose := f.loose + {New}))
    case Flush => w.(files := f.(loose := f.loose - {New}))
    case Unstage => w.(files := f.(staged := None, loose := f.loose - {New}))
    case Write(change, synced) => Wrote(w, change, synced)
    case MoveAside =>
      To(w.(files := f.(binary := None, previous := f.binary, loose := Carried(f.loose, Binary, Old))), Aside)
    case MoveInto =>
      To(w.(files := f.(staged := None, binary := f.staged, loose := Carried(f.loose, New, Binary)),
            past := w.past.(gates := 0)), Leaving)
    case PutBack =>
      To(w.(files := f.(previous := None, binary := f.previous, loose := Carried(f.loose, Old, Binary))), Undone)
    case SwapFailed => To(w, Undone)
    case Probe(_) => To(w.(past := w.past.(gates := w.past.gates + 1)), Probing)
    case Gate(verdict) => Ran(w, verdict)
    case Condemn(_) => To(w, Condemned)
    case Replace =>
      To(w.(files := f.(previous := None, binary := f.previous, loose := Carried(f.loose, Old, Binary))),
         Restored(false))
    case Park =>
      To(w.(files := f.(binary := None, rejected := f.binary, loose := Carried(f.loose, Binary, Away))), Parked)
    case Reinstate =>
      To(w.(files := f.(previous := None, binary := f.previous, loose := Carried(f.loose, Old, Binary))),
         Restored(true))
    case Unpark =>
      To(w.(files := f.(rejected := None, binary := f.rejected, loose := Carried(f.loose, Away, Binary))), Ready)
    case Delete(file) =>
      w.(files := if file.Previous? then f.(previous := None, loose := f.loose - {Old})
                  else f.(rejected := None, loose := f.loose - {Away}))
  }

  // ---------------------------------------------------------------- runs

  /** A device as it leaves the factory: one binary, nothing beside it, no journal. */
  predicate Factory(w: World) {
    && w.files == Files(Some(w.past.original), None, None, None, {})
    && w.journal == EMPTY_JOURNAL && w.may == {EMPTY_JOURNAL} && w.mind == Off
    && w.past.trusted == {w.past.original} && w.past.signed == {} && w.past.gates == 0
    && !w.past.stranded && !w.past.forgotten
  }

  function Run(w: World, acts: seq<Act>): World {
    if acts == [] then w else Do(Run(w, acts[..|acts| - 1]), acts[|acts| - 1])
  }

  predicate Lawful(w: World, acts: seq<Act>) {
    acts != [] ==>
      && Lawful(w, acts[..|acts| - 1])
      && May(Run(w, acts[..|acts| - 1]), acts[|acts| - 1])
  }

  lemma Extend(w: World, acts: seq<Act>, act: Act)
    requires Lawful(w, acts) && May(Run(w, acts), act)
    ensures Lawful(w, acts + [act]) && Run(w, acts + [act]) == Do(Run(w, acts), act)
  {}

  /** A run cut short anywhere is a run. */
  lemma {:induction false} Prefix(w: World, acts: seq<Act>, k: nat)
    requires Lawful(w, acts) && k <= |acts|
    ensures Lawful(w, acts[..k])
  {
    if k < |acts| {
      Prefix(w, acts[..|acts| - 1], k);
      assert acts[..|acts| - 1][..k] == acts[..k];
    } else {
      assert acts[..k] == acts;
    }
  }

  /** One act more, and where it leads. */
  lemma Next(w: World, acts: seq<Act>, v: World, act: Act) returns (more: seq<Act>, u: World)
    requires Lawful(w, acts) && Run(w, acts) == v && May(v, act)
    ensures u == Do(v, act) && Lawful(w, more) && Run(w, more) == u && more == acts + [act]
  {
    more, u := acts + [act], Do(v, act);
    Extend(w, acts, act);
  }

  /** A power cut took the journal's directory, and with it what the journal said. */
  predicate Forgets(act: Act) {
    act.PowerCut? && !act.kept
  }

  function Forgettings(acts: seq<Act>): nat {
    if acts == [] then 0
    else Forgettings(acts[..|acts| - 1]) + if Forgets(acts[|acts| - 1]) then 1 else 0
  }
}
