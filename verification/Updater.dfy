/**
 The device's own code, step by step. Each file operation, journal write and
 observation is one act of the machine, checked against the law as it happens
 and kept in `log`; so whatever this code does is a lawful run, and so is any
 part of it a power cut leaves.

 An operation may fail: `faults` counts those that did. What a method achieves
 when nothing failed is said beside what it keeps when anything did.
 */
module Updater {
  import opened Codec
  import opened Options
  import opened Ota
  import opened OtaOnce
  import opened OtaSafety
  import opened OtaTheorems

  const TARGET := "aarch64-unknown-linux-gnu"
  const MAX_ARTIFACT: nat := 268_435_456

  datatype Announcement = Announcement(sha256: string, signature: string, target: Option<string>, secure: bool)

  /** What the artifact's url answers. `complete` is whether the body ended rather than broke off. */
  datatype Reply = Unreachable | Refused | Body(length: Option<nat>, chunks: seq<seq<Byte>>, complete: bool)

  /** How a gating probe answers. */
  datatype Outcome = Pass | Warn | Fail | Timeout | NotRegistered

  datatype Next = CarryOn | Restart

  datatype Reason =
    | WrongMachine | JournalFailed | RolledBack | StillProving | SpareInTheWay | LeftoverInTheWay
    | ParkedInTheWay | BadDigest | BadSignature | NotSigned | NotDownloaded | NotSwapped

  datatype Answer = Nothing | Restarting | Failed(reason: Reason)

  datatype Read = Missing | Unreadable | Is(sha: Sha)

  datatype Delivery = Delivery(announced: Announcement, reply: Reply, now: int)

  /** What one boot meets: its clock, its probes' answers, what is announced, and whether the power goes. */
  datatype BootConditions = BootConditions(
    now: int,
    answers: seq<Outcome>,
    deliveries: seq<Delivery>,
    powerFails: bool)

  function Joined(chunks: seq<seq<Byte>>): seq<Byte> {
    if chunks == [] then [] else Joined(chunks[..|chunks| - 1]) + chunks[|chunks| - 1]
  }

  /** What the gate concludes from its probes' answers: one fail reverts, one timeout leaves it open. */
  function VerdictOf(answers: seq<Outcome>): Verdict {
    if Fail in answers then Failing else if Timeout in answers then Quiet else Healthy
  }

  /** A candidate on trial is what boots next. */
  predicate Awaiting(w: World) {
    w.mind.Off? && w.files.binary.Some? && StandingOf(w.journal, w.files.binary.value).Proving?
  }

  /** The marker with one more boot counted. */
  function Counting(p: Probation): Probation {
    p.(attempts := Bump(p.attempts))
  }

  /** What a recorded rollback leaves. */
  predicate RolledBackTo(w: World, p: Probation, candidate: Sha) {
    && w.files.binary == Some(p.previousSha256) && w.files.previous.None?
    && w.journal.probation.None? && w.journal.rejected == Some(p.sha256)
    && (w.platform.Windows? ==>
          w.files.rejected == Some(candidate) && Leftover(Rejected, p.sha256) in w.journal.leftovers)
  }

  /** What a boot into the candidate comes to when nothing fails. `p` is its marker, this boot counted. */
  ghost predicate Proved(was: World, w: World, p: Probation, now: int, answers: seq<Outcome>, next: Next)
    requires was.mind.Up?
  {
    var me := was.mind.me;
    // No chances left, or one probe that failed.
    if p.Over(now) || Fail in answers then
      && w.past.trusted == was.past.trusted
      && if was.files.previous.Some? then next == Restart && RolledBackTo(w, p, me)
         else next == CarryOn && w.files == was.files
              && w.journal.probation.None? && w.journal.rejected == Some(p.sha256)
    // None failed, and one never answered.
    else if Timeout in answers then
      && next == CarryOn && w.files == was.files && w.journal == was.journal.(probation := Some(p))
      && w.past.trusted == was.past.trusted
    // Each passed, warned, or was not there to ask; or there was none.
    else
      && next == CarryOn && w.files.binary == Some(me) && w.files.previous.None?
      && w.journal.probation.None? && w.journal.rejected == was.journal.rejected
      && w.past.trusted == was.past.trusted + {me}
  }

  /** What settling at startup comes to when nothing fails, for each way the device can stand. */
  ghost predicate Settles(was: World, w: World, answers: seq<Outcome>, now: int, next: Next)
    requires was.mind.Up?
  {
    match StandingOf(was.journal, was.mind.me)
    case Quiescent =>
      && next == CarryOn && w.files.binary == was.files.binary && w.journal == was.journal.(leftovers := [])
      && forall file :: Spent(was, file) ==> At(w.files, file).None?
    case Abandoned(p) =>
      && next == CarryOn && w.files == Files(was.files.binary, None, None, None, {})
      && w.journal.probation.None? && w.journal.rejected == Some(p.sha256)
    case Unrecoverable => next == CarryOn && w == was.(mind := w.mind)
    case Proving(p) => Proved(was, w, Counting(p), now, answers, next)
  }

  /** What `text` names is at the path, on trial, and what it replaced is beside it. */
  predicate InPlace(w: World, replaced: Sha, text: string, now: int) {
    && w.files == Files(Named(text), None, Some(replaced), None, {})
    && w.journal.probation == Some(Fresh(text, replaced, now))
    && w.may == {w.journal}
  }

  /** The world a process starts in. */
  function Booting(w: World): World
    requires w.files.binary.Some?
  {
    w.(mind := Up(w.files.binary.value, Booted))
  }

  class Device {
    const start: World
    var world: World
    var log: seq<Act>
    var refused: Option<string>
    ghost var faults: nat
    /** Every digest announced to this device, as it was written. */
    ghost var heard: set<string>

    /** Whether a key on disk signed this digest so. */
    const signs: (Sha, seq<Byte>) -> bool
    /** The digest of a file's bytes. */
    const sha256: seq<Byte> -> Sha

    ghost predicate Genuine(sha: Sha) {
      exists signature :: signs(sha, signature)
    }

    ghost predicate Valid()
      reads this
    {
      && Factory(start) && Lawful(start, log) && world == Run(start, log)
      && (forall act :: act in log ==> Backed(act))
    }

    /** A signature that was checked is one, and what was checked or lifted a refusal was announced. */
    ghost predicate Backed(act: Act)
      reads this`heard
    {
      && (act.Verify? ==> Genuine(act.sha) && act.text in heard)
      && (act.Write? && act.change.ClearRejected? ==> act.change.announced in heard)
    }

    ghost predicate Running(phase: Phase)
      reads this
    {
      Valid() && In(world, phase)
    }

    lemma Sound()
      requires Valid()
      ensures Inv(world)
    {
      RunKeeps(start, log);
    }

    constructor (start: World, signs: (Sha, seq<Byte>) -> bool, sha256: seq<Byte> -> Sha)
      requires Factory(start)
      ensures Valid() && world == start && log == [] && heard == {}
    {
      this.start, this.world, this.log, this.refused := start, start, [], None;
      this.signs, this.sha256, this.faults, this.heard := signs, sha256, 0, {};
    }

    // ------------------------------------------------- single operations

    method Perform(act: Act)
      requires Valid() && May(world, act) && Backed(act)
      modifies this`world, this`log
      ensures Valid() && world == Do(old(world), act) && log == old(log) + [act]
    {
      Extend(start, log, act);
      world := Do(world, act);
      log := log + [act];
    }

    /** An operation on the disk. One that fails changes nothing. */
    method Attempt(act: Act) returns (ok: bool)
      requires Valid() && May(world, act) && Backed(act)
      modifies this`world, this`log, this`faults
      ensures Valid() && old(log) <= log
      ensures ok ==> world == Do(old(world), act) && faults == old(faults)
      ensures !ok ==> world == old(world) && faults == old(faults) + 1
    {
      ok := *;
      if ok {
        Perform(act);
      } else {
        faults := faults + 1;
      }
    }

    /** Nothing more to do here: back to answering announcements. */
    method Done()
      requires Valid() && world.mind.Up? && MayCarry(world.mind.phase)
      modifies this`world, this`log
      ensures Valid() && old(log) <= log && world == old(world).(mind := Up(old(world.mind.me), Ready))
    {
      Perform(Carry);
    }

    /** `Store::update`. One that fails may have landed, for as long as the power stays on. */
    method Update(change: Change) returns (ok: bool)
      requires Valid() && world.mind.Up? && MayWrite(world, change)
      requires change.ClearRejected? ==> change.announced in heard
      modifies this`world, this`log, this`faults
      ensures Valid() && old(log) <= log
      ensures ok ==> world == Wrote(old(world), change, true) && faults == old(faults)
      ensures !ok ==> faults == old(faults) + 1
                      && (world == old(world) || world == Wrote(old(world), change, false))
    {
      ok := *;
      var landed: bool := *;
      if ok || landed {
        Perform(Write(change, ok));
      }
      if !ok {
        faults := faults + 1;
      }
    }

    /** `Store::load`. */
    method Load() returns (journal: Option<Journal>)
      modifies this`faults
      ensures journal.Some? ==> journal.value == world.journal && faults == old(faults)
      ensures journal.None? ==> faults == old(faults) + 1
    {
      var readable: bool := *;
      journal := if readable then Some(world.journal) else None;
      if !readable {
        faults := faults + 1;
      }
    }

    /** `sha256_file`. */
    method Hash(file: Option<Sha>) returns (read: Read)
      modifies this`faults
      ensures read.Is? ==> file == Some(read.sha)
      ensures read.Missing? ==> file.None?
      ensures faults == old(faults) + if read.Unreadable? then 1 else 0
    {
      var readable: bool := *;
      if !readable {
        faults := faults + 1;
        return Unreadable;
      }
      return if file.None? then Missing else Is(file.value);
    }

    // ----------------------------------------------------------- download

    /** Whether the reply is the artifact `expected` names, small enough to keep. */
    predicate Delivers(secure: bool, reply: Reply, expected: Sha) {
      && secure && reply.Body? && reply.complete
      && (reply.length.Some? ==> reply.length.value <= MAX_ARTIFACT)
      && |Joined(reply.chunks)| <= MAX_ARTIFACT
      && sha256(Joined(reply.chunks)) == expected
    }

    method RemoveStaged() returns (ok: bool)
      requires Valid() && world.mind.Up?
      requires In(world, Booted) || In(world, Ready) || In(world, Undone) || world.mind.phase.Fetching?
      modifies this`world, this`log, this`faults
      ensures Valid() && old(log) <= log
      ensures ok ==> faults == old(faults) && world == old(world).(
                       files := old(world.files).(staged := None, loose := old(world.files.loose) - {New}))
      ensures !ok ==> world == old(world) && faults == old(faults) + 1
    {
      ok := Attempt(Unstage);
    }

    /** What a write leaves in the staged file: all of it, or, failing, anything; and none of it flushed. */
    method WriteStaged(content: seq<Byte>) returns (ok: bool)
      requires Valid() && world.mind.Up? && world.mind.phase.Fetching?
      modifies this`world, this`log, this`faults
      ensures Valid() && old(log) <= log
      ensures world == old(world).(
                files := old(world.files).(staged := world.files.staged, loose := old(world.files.loose) + {New}))
      ensures ok ==> world.files.staged == Some(sha256(content)) && faults == old(faults)
      ensures !ok ==> faults == old(faults) + 1
    {
      ok := Attempt(Stage(Some(sha256(content))));
      if !ok {
        var torn: Option<Sha> := *;
        Perform(Stage(torn));
      }
    }

    /** `sync_all` on the staged file. */
    method FlushStaged() returns (ok: bool)
      requires Valid() && world.mind.Up? && world.mind.phase.Fetching?
      modifies this`world, this`log, this`faults
      ensures Valid() && old(log) <= log
      ensures ok ==> faults == old(faults) && world == old(world).(
                       files := old(world.files).(loose := old(world.files.loose) - {New}))
      ensures !ok ==> world == old(world) && faults == old(faults) + 1
    {
      ok := Attempt(Flush);
    }

    /** An operation that changes nothing this machine keeps. */
    method Chance() returns (ok: bool)
      modifies this`faults
      ensures faults == old(faults) + if ok then 0 else 1
    {
      ok := *;
      if !ok {
        faults := faults + 1;
      }
    }

    /** The body into the staged file, chunk by chunk. */
    method Receive(chunks: seq<seq<Byte>>) returns (ok: bool)
      requires Valid() && world.mind.Up? && world.mind.phase.Fetching?
      modifies this`world, this`log, this`faults
      ensures Valid() && old(log) <= log && faults >= old(faults)
      ensures world == old(world).(
                files := old(world.files).(staged := world.files.staged, loose := world.files.loose))
      ensures ok ==> |Joined(chunks)| <= MAX_ARTIFACT && world.files.staged == Some(sha256(Joined(chunks)))
      ensures faults == old(faults) ==> ok == (|Joined(chunks)| <= MAX_ARTIFACT)
    {
      var received: seq<Byte> := [];
      ok := WriteStaged(received);
      for k := 0 to |chunks|
        invariant Valid() && world.mind == old(world.mind) && old(log) <= log
        invariant world == old(world).(
                    files := old(world.files).(staged := world.files.staged, loose := world.files.loose))
        invariant if ok then faults == old(faults) else faults > old(faults)
        invariant ok ==> received == Joined(chunks[..k]) && |received| <= MAX_ARTIFACT
        invariant ok ==> world.files.staged == Some(sha256(received))
      {
        if !ok {
          return;
        }
        JoinedStep(chunks, k);
        if |received| + |chunks[k]| > MAX_ARTIFACT {
          var _ := RemoveStaged();
          return false;
        }
        received := received + chunks[k];
        ok := WriteStaged(received);
      }
      assert chunks[..|chunks|] == chunks;
    }

    /** Into the staged file, hashing what arrives: kept only if it is what the signature was over. */
    method Download(secure: bool, reply: Reply, expected: Sha) returns (ok: bool)
      requires Valid() && world.mind.Up? && world.mind.phase.Fetching?
      modifies this`world, this`log, this`faults
      ensures Valid() && old(log) <= log && faults >= old(faults)
      ensures world == old(world).(
                files := old(world.files).(staged := world.files.staged, loose := world.files.loose))
      ensures ok ==> Delivers(secure, reply, expected)
                     && world.files.staged == Some(expected) && New !in world.files.loose
      ensures faults == old(faults) ==> ok == Delivers(secure, reply, expected)
    {
      if !secure {
        return false;
      }
      var gone := RemoveStaged();
      if !gone || !reply.Body? || (reply.length.Some? && reply.length.value > MAX_ARTIFACT) {
        return false;
      }
      var received := Receive(reply.chunks);
      if !received || !reply.complete {
        return false;
      }
      var flushed := FlushStaged();
      if !flushed {
        return false;
      }
      if sha256(Joined(reply.chunks)) != expected {
        var _ := RemoveStaged();
        return false;
      }
      ok := Chance(); // the running binary's mode, copied
    }

    // --------------------------------------------------------------- swap

    /** No bytes but the staged file's are ever unflushed, and they are flushed once the marker is down. */
    lemma NothingIsLoose()
      requires Valid()
      ensures world.files.loose <= {New}
      ensures In(world, Marked) || In(world, Aside) ==> world.files.loose == {}
    {
      Sound();
    }

    method MoveBinaryAside() returns (ok: bool)
      requires Running(Marked)
      modifies this`world, this`log, this`faults
      ensures Valid() && old(log) <= log
      ensures ok ==> faults == old(faults) && world == old(world).(mind := Up(old(world.mind.me), Aside),
                       files := old(world.files).(binary := None, previous := old(world.files.binary)))
      ensures !ok ==> world == old(world) && faults == old(faults) + 1
    {
      NothingIsLoose();
      ok := Attempt(MoveAside);
    }

    method MoveStagedInto() returns (ok: bool)
      requires Running(Aside)
      modifies this`world, this`log, this`faults
      ensures Valid() && old(log) <= log
      ensures ok ==> faults == old(faults) && world == old(world).(
                       mind := Up(old(world.mind.me), Leaving), past := old(world.past).(gates := 0),
                       files := old(world.files).(staged := None, binary := old(world.files.staged)))
      ensures !ok ==> world == old(world) && faults == old(faults) + 1
    {
      NothingIsLoose();
      ok := Attempt(MoveInto);
    }

    method MoveBack() returns (ok: bool)
      requires Running(Aside)
      modifies this`world, this`log, this`faults
      ensures Valid() && old(log) <= log
      ensures ok ==> faults == old(faults) && world == old(world).(mind := Up(old(world.mind.me), Undone),
                       files := old(world.files).(previous := None, binary := old(world.files.previous)))
      ensures !ok ==> world == old(world) && faults == old(faults) + 1
    {
      NothingIsLoose();
      ok := Attempt(PutBack);
    }

    method GiveUpSwap()
      requires Running(Marked) || Running(Aside)
      modifies this`world, this`log
      ensures Valid() && old(log) <= log && world == old(world).(mind := Up(old(world.mind.me), Undone))
    {
      Perform(SwapFailed);
    }

    /**
     The running binary steps aside and the staged one takes its place; if it
     cannot, the first is put back. Only when that fails too is nothing at the
     path.
     */
    method Swap() returns (ok: bool)
      requires Running(Marked)
      modifies this`world, this`log, this`faults
      ensures Valid() && old(log) <= log && faults >= old(faults) && (ok <==> faults == old(faults))
      ensures world.mind.Up? && world.mind.me == old(world.mind.me)
      ensures world.journal == old(world.journal) && world.may == old(world.may)
      ensures ok ==> In(world, Leaving) && world.files == old(world.files).(
                       staged := None, binary := old(world.files.staged), previous := old(world.files.binary))
      ensures !ok ==> In(world, Undone)
      ensures !ok ==>
                if faults == old(faults) + 1 then world.files == old(world.files)
                else && faults == old(faults) + 2
                     && world.files == old(world.files).(binary := None, previous := old(world.files.binary))
    {
      Sound();
      var aside := MoveBinaryAside();
      if !aside {
        GiveUpSwap();
        return false;
      }
      var into := MoveStagedInto();
      if into {
        return true;
      }
      var back := MoveBack();
      if !back {
        GiveUpSwap();
      }
      return false;
    }

    // --------------------------------------------------------------- tidy

    method Remove(file: Spare) returns (ok: bool)
      requires Valid() && world.mind.Up? && MayDelete(world, file)
      modifies this`world, this`log, this`faults
      ensures Valid() && old(log) <= log
      ensures ok ==> faults == old(faults) && At(world.files, file).None?
      ensures ok ==> world == old(world).(files := Lacking(old(world.files), file))
      ensures !ok ==> world == old(world) && faults == old(faults) + 1
    {
      NothingIsLoose();
      ok := Attempt(Delete(file));
    }

    lemma OneRecordEach()
      requires Valid()
      ensures Unique(world.journal.leftovers)
    {
      Sound();
      assert JournalFits(world, world.journal);
    }

    /** One record's file: deleted, or kept for the next try, or let go because it holds something else. */
    method TidyOne(record: Leftover) returns (keep: bool)
      requires Valid() && world.mind.Up? && (In(world, Booted) || In(world, Ready))
      requires world.journal.probation.None? && record in world.journal.leftovers
      modifies this`world, this`log, this`faults
      ensures Valid() && old(log) <= log && faults >= old(faults)
      ensures world == old(world) || (At(world.files, record.file).None? && Spent(old(world), record.file)
                                      && world == old(world).(files := Lacking(old(world.files), record.file)))
      ensures keep ==> faults > old(faults)
      ensures !keep ==> Unneeded(world.files, record)
    {
      var read := Hash(At(world.files, record.file));
      match read
      case Missing => keep := false;
      case Unreadable => keep := true;
      case Is(sha) =>
        keep := false;
        if Same(sha, record.sha256) {
          var deleted := Remove(record.file);
          keep := !deleted;
        }
    }

    /** Each recorded file in turn. */
    method TidyAll(records: seq<Leftover>) returns (kept: seq<Leftover>)
      requires Valid() && world.mind.Up? && (In(world, Booted) || In(world, Ready)) && world.journal.probation.None?
      requires records == world.journal.leftovers
      modifies this`world, this`log, this`faults
      ensures Valid() && old(log) <= log && faults >= old(faults)
      ensures world == old(world).(files := world.files) && Tidied(old(world), world.files)
      ensures Unique(kept) && forall l :: l in kept ==> l in records
      ensures forall l :: l in records && l !in kept ==> Unneeded(world.files, l)
      ensures faults == old(faults) ==> kept == []
    {
      OneRecordEach();
      kept := [];
      for k := 0 to |records|
        invariant Valid() && old(log) <= log && faults >= old(faults)
        invariant world == old(world).(files := world.files) && Tidied(old(world), world.files)
        invariant Unique(kept) && forall l :: l in kept ==> l in records[..k]
        invariant forall l :: l in records[..k] && l !in kept ==> Unneeded(world.files, l)
        invariant faults == old(faults) ==> kept == []
      {
        KeepOneMore(records, kept, k);
        var keep := TidyOne(records[k]);
        if keep {
          kept := kept + [records[k]];
        }
      }
      assert records[..|records|] == records;
    }

    /**
     Another try at the files this device could not delete before. One goes if
     its digest is still the recorded one; the records of those that could not be
     read or deleted are returned. With nothing failing the list ends empty.
     */
    method Tidy() returns (kept: seq<Leftover>)
      requires Valid() && world.mind.Up? && (In(world, Booted) || In(world, Ready)) && world.journal.probation.None?
      modifies this`world, this`log, this`faults
      ensures Valid() && old(log) <= log && faults >= old(faults)
      ensures world.mind == old(world.mind) && world.journal.(leftovers := []) == old(world.journal).(leftovers := [])
      ensures Tidied(old(world), world.files)
      ensures forall l :: l in kept ==> l in old(world.journal.leftovers)
      ensures faults == old(faults) ==> kept == [] && world.journal.leftovers == []
      ensures faults == old(faults) ==> forall file :: Spent(old(world), file) ==> At(world.files, file).None?
    {
      var records := world.journal.leftovers;
      kept := TidyAll(records);
      if kept != records {
        var _ := Update(Change.Tidy(kept));
      }
    }

    // ------------------------------------------------------------ install

    /** Refused, and so it will be the next time: for another machine, or rolled back here. */
    ghost predicate Lasting(w: World, announced: Announcement)
      requires w.mind.Up?
    {
      && !Same(announced.sha256, w.mind.me)
      && (Foreign(announced)
          || (w.journal.rejected.Some? && Same(w.journal.rejected.value, announced.sha256)))
    }

    /** What `install` asks of the device before it looks at the signature. */
    ghost predicate Timely(w: World, announced: Announcement)
      requires w.mind.Up?
    {
      && !Same(announced.sha256, w.mind.me)
      && !Foreign(announced)
      && (w.journal.rejected.Some? ==> !Same(w.journal.rejected.value, announced.sha256))
      && w.journal.probation.None?
      && (w.files.previous.Some? ==> Spent(w, Previous))
      && (w.files.rejected.Some? ==> Spent(w, Rejected))
    }

    /** And of the announcement. */
    predicate Signed(announced: Announcement) {
      && Named(announced.sha256).Some? && Decoded(announced.signature).Ok?
      && signs(Named(announced.sha256).value, Decoded(announced.signature).value)
    }

    /** Everything `install` asks before a byte is fetched. */
    ghost predicate Acceptable(w: World, announced: Announcement)
      requires w.mind.Up?
    {
      Timely(w, announced) && Signed(announced)
    }

    method Accepts(text: string, sha: Sha)
      requires Running(Ready) && Genuine(sha) && text in heard && MayProceed(world, Verify(text, sha))
      modifies this`world, this`log
      ensures Valid() && old(log) <= log
      ensures world == old(world).(past := old(world.past).(signed := old(world.past.signed) + {sha}),
                                   mind := Up(old(world.mind.me), Fetching(text, sha)))
    {
      Perform(Verify(text, sha));
    }

    /** A refusal the next delivery could only repeat is not repeated straight away. */
    method SayRefused(text: string, reason: Reason) returns (answer: Answer)
      modifies this`refused
      ensures refused == Some(text)
      ensures answer == if old(refused) == Some(text) then Nothing else Failed(reason)
    {
      if refused == Some(text) {
        return Nothing;
      }
      refused := Some(text);
      return Failed(reason);
    }

    /** The journal, with a refusal of some other build lifted. */
    method LoadFor(text: string) returns (journal: Option<Journal>)
      requires Running(Ready) && !Same(text, world.mind.me) && text in heard
      modifies this`world, this`log, this`faults, this`refused
      ensures Valid() && old(log) <= log && faults >= old(faults)
      ensures world.journal.(rejected := None) == old(world.journal).(rejected := None)
      ensures world == old(world).(journal := world.journal, may := world.may)
      ensures journal.Some? ==>
                && journal.value == world.journal && faults == old(faults)
                && (world.journal.rejected.Some? ==>
                      Same(world.journal.rejected.value, text) && world == old(world) && refused == old(refused))
                && (world.journal.rejected.None? ==>
                      old(world.journal).rejected.Some? ==> !Same(old(world.journal).rejected.value, text))
      ensures journal.None? ==> faults > old(faults)
      ensures old(world.journal).rejected.Some? && Same(old(world.journal).rejected.value, text) ==>
                world == old(world)
    {
      journal := Load();
      if journal.None? {
        return;
      }
      if journal.value.rejected.Some? && !Same(journal.value.rejected.value, text) {
        var cleared := Update(ClearRejected(text));
        if !cleared {
          return None;
        }
        journal := Some(world.journal);
        refused := None;
      }
    }

    /** The files an update needs out of its way, once what this device finished with has been tried again. */
    method MakeRoom() returns (inTheWay: Option<Reason>)
      requires Running(Ready) && world.journal.probation.None?
      modifies this`world, this`log, this`faults
      ensures Valid() && old(log) <= log && faults >= old(faults)
      ensures world.mind == old(world.mind) && world.files.binary == old(world.files.binary)
      ensures world.journal.(leftovers := []) == old(world.journal).(leftovers := [])
      ensures inTheWay.None? <==> world.files.previous.None? && world.files.rejected.None?
      ensures inTheWay == Some(ParkedInTheWay) <==> world.files.previous.None? && world.files.rejected.Some?
      ensures inTheWay == Some(LeftoverInTheWay) ==> exists l :: l in old(world.journal).leftovers && l.file == Previous
      ensures faults == old(faults) ==> inTheWay != Some(LeftoverInTheWay)
      ensures inTheWay.None? || inTheWay.value in {SpareInTheWay, LeftoverInTheWay, ParkedInTheWay}
      ensures faults == old(faults) ==>
                (inTheWay.None? <==>
                  && (old(world).files.previous.Some? ==> Spent(old(world), Previous))
                  && (old(world).files.rejected.Some? ==> Spent(old(world), Rejected)))
      ensures inTheWay.None? ==>
                && (old(world).files.previous.Some? ==> Spent(old(world), Previous))
                && (old(world).files.rejected.Some? ==> Spent(old(world), Rejected))
    {
      var left: seq<Leftover> := [];
      if world.journal.leftovers != [] {
        left := Tidy();
      }
      assert At(world.files, Previous) == world.files.previous && At(world.files, Rejected) == world.files.rejected;
      if world.files.previous.Some? {
        return Some(if exists l :: l in left && l.file == Previous then LeftoverInTheWay else SpareInTheWay);
      }
      if world.files.rejected.Some? {
        return Some(ParkedInTheWay);
      }
      return None;
    }

    /** The journal's say: `None` if it has nothing against this digest, or what to answer instead. */
    method AskJournal(text: string) returns (answer: Option<Answer>)
      requires Running(Ready) && !Same(text, world.mind.me) && text in heard
      modifies this`world, this`log, this`faults, this`refused
      ensures Valid() && old(log) <= log && faults >= old(faults)
      ensures world.journal.(rejected := None) == old(world.journal).(rejected := None)
      ensures world == old(world).(journal := world.journal, may := world.may)
      ensures answer.None? ==> world.journal.rejected.None? && world.journal.probation.None?
      ensures answer.None? && old(world.journal).rejected.Some? ==> !Same(old(world.journal).rejected.value, text)
      ensures answer != Some(Restarting)
      ensures faults == old(faults) ==>
                (answer.None? <==>
                  && old(world.journal).probation.None?
                  && (old(world.journal).rejected.Some? ==> !Same(old(world.journal).rejected.value, text)))
      ensures faults == old(faults) && old(world.journal).probation.Some?
              && (old(world.journal).rejected.Some? ==> !Same(old(world.journal).rejected.value, text)) ==>
                answer == Some(Failed(StillProving))
      ensures old(world.journal).rejected.Some? && Same(old(world.journal).rejected.value, text) ==>
                && world == old(world)
                && (faults == old(faults) ==>
                      && refused == Some(text)
                      && answer == Some(if old(refused) == Some(text) then Nothing else Failed(RolledBack)))
    {
      var held := LoadFor(text);
      if held.None? {
        return Some(Failed(JournalFailed));
      }
      if held.value.rejected.Some? {
        var said := SayRefused(text, RolledBack);
        return Some(said);
      }
      return if held.value.probation.Some? then Some(Failed(StillProving)) else None;
    }

    /** Whether this is the moment for it: `None` if it is, or what to answer instead. */
    method Screen(announced: Announcement) returns (answer: Option<Answer>)
      requires Running(Ready) && announced.sha256 in heard
      modifies this`world, this`log, this`faults, this`refused
      ensures Valid() && old(log) <= log && faults >= old(faults)
      ensures world.mind == old(world.mind) && world.files.binary == old(world.files.binary)
      ensures world.journal.probation == old(world.journal.probation)
      ensures answer.None? ==>
                && Timely(old(world), announced)
                && world.journal.probation.None? && world.journal.rejected.None?
                && world.files.previous.None? && world.files.rejected.None?
      ensures answer != Some(Restarting)
      ensures faults == old(faults) ==> (answer.None? <==> Timely(old(world), announced))
      ensures Same(announced.sha256, old(world.mind.me)) ==>
                answer == Some(Nothing) && world == old(world) && faults == old(faults) && refused == old(refused)
      ensures Lasting(old(world), announced) && faults == old(faults) ==>
                && world == old(world) && refused == Some(announced.sha256)
                && answer == Some(if old(refused) == Some(announced.sha256) then Nothing
                                  else Failed(if Foreign(announced) then WrongMachine else RolledBack))
      ensures Foreign(announced) ==> world == old(world) && faults == old(faults)
      ensures old(world.journal).rejected.Some? && Same(old(world.journal).rejected.value, announced.sha256) ==>
                world == old(world)
    {
      if Same(announced.sha256, world.mind.me) {
        return Some(Nothing);
      }
      if Foreign(announced) {
        var said := SayRefused(announced.sha256, WrongMachine);
        return Some(said);
      }
      answer := AskJournal(announced.sha256);
      if answer.Some? {
        return;
      }
      var inTheWay := MakeRoom();
      return if inTheWay.Some? then Some(Failed(inTheWay.value)) else None;
    }

    /** Whether a key on this device signed it: `None`, and on with it; or what to answer instead. */
    method CheckSignature(announced: Announcement) returns (answer: Option<Answer>)
      requires Running(Ready) && announced.sha256 in heard && !Same(announced.sha256, world.mind.me)
      requires world.journal.probation.None? && world.journal.rejected.None?
      requires world.files.previous.None? && world.files.rejected.None?
      modifies this`world, this`log
      ensures Valid() && old(log) <= log
      ensures answer.None? <==> Signed(announced)
      ensures answer.None? ==> world == old(world).(
                past := old(world.past).(signed := old(world.past.signed) + {Named(announced.sha256).value}),
                mind := Up(old(world.mind.me), Fetching(announced.sha256, Named(announced.sha256).value)))
      ensures answer.Some? ==> world == old(world)
      ensures answer.Some? ==>
                answer.value == Failed(if Named(announced.sha256).None? then BadDigest
                                       else if Decoded(announced.signature).Err? then BadSignature else NotSigned)
    {
      var digest := Named(announced.sha256);
      if digest.None? {
        return Some(Failed(BadDigest));
      }
      var signature := Unbase64(announced.signature);
      if signature.Err? {
        return Some(Failed(BadSignature));
      }
      if !signs(digest.value, signature.value) {
        return Some(Failed(NotSigned));
      }
      Accepts(announced.sha256, digest.value);
      return None;
    }

    /** Whether to go ahead: `None`, with the signature checked; or what to say instead. */
    method Consider(announced: Announcement) returns (answer: Option<Answer>)
      requires Running(Ready) && announced.sha256 in heard
      modifies this`world, this`log, this`faults, this`refused
      ensures Valid() && old(log) <= log && faults >= old(faults)
      ensures world.mind.Up? && world.mind.me == old(world.mind.me) && world.files.binary == old(world.files.binary)
      ensures world.journal.probation == old(world.journal.probation)
      ensures answer.None? ==>
                && Acceptable(old(world), announced)
                && In(world, Fetching(announced.sha256, Named(announced.sha256).value))
      ensures answer.Some? ==> In(world, Ready) && answer != Some(Restarting)
      ensures faults == old(faults) ==> (answer.None? <==> Acceptable(old(world), announced))
      ensures Same(announced.sha256, old(world.mind.me)) ==>
                answer == Some(Nothing) && world == old(world) && faults == old(faults) && refused == old(refused)
      ensures Lasting(old(world), announced) && faults == old(faults) ==>
                && world == old(world) && refused == Some(announced.sha256)
                && answer == Some(if old(refused) == Some(announced.sha256) then Nothing
                                  else Failed(if Foreign(announced) then WrongMachine else RolledBack))
      ensures Foreign(announced) ==> world == old(world) && faults == old(faults)
      ensures old(world.journal).rejected.Some? && Same(old(world.journal).rejected.value, announced.sha256) ==>
                world == old(world)
    {
      answer := Screen(announced);
      if answer.None? {
        answer := CheckSignature(announced);
      }
    }

    /** The marker, before anything moves; without it, nothing does. */
    method PutDownMarker(now: int) returns (ok: bool)
      requires Valid() && world.mind.Up? && world.mind.phase.Fetching?
      requires world.files.staged == Some(world.mind.phase.sha) && New !in world.files.loose
      modifies this`world, this`log, this`faults
      ensures Valid() && old(log) <= log && world.mind.Up? && world.mind.me == old(world.mind.me)
      ensures world.files == old(world.files)
      ensures ok ==>
                && In(world, Marked) && faults == old(faults) && world.may == {world.journal}
                && world.journal.probation == Some(Fresh(old(world.mind.phase.text), world.mind.me, now))
      ensures !ok ==> In(world, Ready) && faults > old(faults)
    {
      ok := Update(Mark(Fresh(world.mind.phase.text, world.mind.me, now)));
      if !ok {
        Done();
      }
    }

    /** The swap did not happen, so the marker comes down and the staged file goes. */
    method Forget()
      requires Running(Undone)
      modifies this`world, this`log, this`faults
      ensures Running(Ready) && old(log) <= log && faults >= old(faults)
      ensures world.mind.me == old(world.mind.me)
      ensures world.files.binary == old(world.files.binary) && world.files.previous == old(world.files.previous)
      ensures faults == old(faults) ==> world.journal.probation.None? && world.files.staged.None?
    {
      var _ := Update(Unmark);
      Done();
      var _ := RemoveStaged();
    }

    /** What a completed installation leaves, whatever was there before. */
    ghost predicate Installed(me: Sha, text: string, now: int)
      reads this
    {
      Running(Leaving) && world.mind.me == me && InPlace(world, me, text, now)
    }

    lemma FetchingFacts()
      requires Valid() && world.mind.Up? && world.mind.phase.Fetching?
      ensures world.files.binary == Some(world.mind.me)
      ensures world.files.previous.None? && world.files.rejected.None?
      ensures Named(world.mind.phase.text) == Some(world.mind.phase.sha)
    {
      Sound();
    }

    /** From the staged bytes to the new binary in place: the marker first, then the swap. */
    method PutInPlace(now: int) returns (answer: Answer)
      requires Valid() && world.mind.Up? && world.mind.phase.Fetching?
      requires world.files.staged == Some(world.mind.phase.sha) && New !in world.files.loose
      modifies this`world, this`log, this`faults
      ensures Valid() && old(log) <= log && faults >= old(faults)
      ensures world.mind.Up? && world.mind.me == old(world.mind.me)
      ensures answer == Restarting ==> Installed(old(world.mind.me), old(world.mind.phase.text), now)
      ensures answer != Restarting ==>
                && In(world, Ready)
                && (world.files.binary == old(world.files.binary)
                    || (answer == Failed(NotSwapped) && world.files.binary.None?
                        && world.files.previous == Some(old(world.mind.me))))
      ensures faults == old(faults) ==> answer == Restarting
    {
      FetchingFacts();
      var marked := PutDownMarker(now);
      if !marked {
        return Failed(JournalFailed);
      }
      NothingIsLoose();
      var swapped := Swap();
      if !swapped {
        Forget();
        return Failed(NotSwapped);
      }
      return Restarting;
    }

    /** From a checked signature to the new binary in place. */
    method Apply(secure: bool, reply: Reply, now: int) returns (answer: Answer)
      requires Valid() && world.mind.Up? && world.mind.phase.Fetching?
      modifies this`world, this`log, this`faults
      ensures Valid() && old(log) <= log && faults >= old(faults)
      ensures world.mind.Up? && world.mind.me == old(world.mind.me)
      ensures answer == Restarting ==>
                && Installed(old(world.mind.me), old(world.mind.phase.text), now)
                && Delivers(secure, reply, old(world.mind.phase.sha))
      ensures answer != Restarting ==>
                && In(world, Ready)
                && (world.files.binary == old(world.files.binary)
                    || (answer == Failed(NotSwapped) && world.files.binary.None?
                        && world.files.previous == Some(old(world.mind.me))))
      ensures faults == old(faults) ==>
                (answer == Restarting <==> Delivers(secure, reply, old(world.mind.phase.sha)))
    {
      var downloaded := Download(secure, reply, world.mind.phase.sha);
      if !downloaded {
        Done();
        return Failed(NotDownloaded);
      }
      answer := PutInPlace(now);
    }

    /**
     Answer an announcement. Either the announced build is in place, with its
     marker down and the running binary beside it; or the running binary has
     not moved; or a swap failed twice and it is at `.old`.
     */
    method Install(announced: Announcement, reply: Reply, now: int) returns (answer: Answer)
      requires Running(Ready)
      modifies this`world, this`log, this`faults, this`refused, this`heard
      ensures Valid() && old(log) <= log && faults >= old(faults) && heard == old(heard) + {announced.sha256}
      ensures world.mind.Up? && world.mind.me == old(world.mind.me)
      ensures answer == Restarting ==>
                && Acceptable(old(world), announced)
                && Delivers(announced.secure, reply, Named(announced.sha256).value)
                && Installed(old(world.mind.me), announced.sha256, now)
      ensures answer != Restarting ==>
                && In(world, Ready)
                && (world.files.binary == old(world.files.binary)
                    || (answer == Failed(NotSwapped) && world.files.binary.None?
                        && world.files.previous == Some(old(world.mind.me))))
      ensures faults == old(faults) ==>
                (answer == Restarting <==>
                  && Acceptable(old(world), announced)
                  && Delivers(announced.secure, reply, Named(announced.sha256).value))
      ensures Same(announced.sha256, old(world.mind.me)) ==>
                answer == Nothing && world == old(world) && refused == old(refused)
      ensures Lasting(old(world), announced) && faults == old(faults) ==>
                && world == old(world) && refused == Some(announced.sha256)
                && answer == if old(refused) == Some(announced.sha256) then Nothing
                             else Failed(if Foreign(announced) then WrongMachine else RolledBack)
    {
      heard := heard + {announced.sha256};
      var said := Consider(announced);
      if said.Some? {
        return said.value;
      }
      answer := Apply(announced.secure, reply, now);
    }

    /**
     Announcements of builds for another machine, or of the one that was rolled
     back, one after another, while the journal can be read: each is reported
     unless the one just before it was for the same digest.
     */
    method RefuseAll(deliveries: seq<Delivery>) returns (reported: seq<bool>)
      requires Running(Ready) && forall d :: d in deliveries ==> Lasting(world, d.announced)
      modifies this`world, this`log, this`faults, this`refused, this`heard
      ensures Valid() && |reported| == |deliveries| && faults >= old(faults)
      ensures faults == old(faults) ==>
                world == old(world) && NewsReported(old(refused), Texts(deliveries), reported)
    {
      reported := [];
      ghost var texts := Texts(deliveries);
      for k := 0 to |deliveries|
        invariant Running(Ready) && |reported| == k && faults >= old(faults)
        invariant faults == old(faults) ==>
                    && world == old(world) && refused == Before(old(refused), texts, k)
                    && NewsReported(old(refused), texts, reported)
      {
        assert deliveries[k] in deliveries && texts[k] == deliveries[k].announced.sha256;
        var answer := RefuseOne(deliveries[k]);
        if answer == Restarting {
          reported := seq(|deliveries|, i => false);
          return;
        }
        NewsAgain(old(refused), texts, reported, answer.Failed?);
        reported := reported + [answer.Failed?];
      }
    }

    method RefuseOne(d: Delivery) returns (answer: Answer)
      requires Running(Ready)
      modifies this`world, this`log, this`faults, this`refused, this`heard
      ensures Valid() && faults >= old(faults) && (answer != Restarting ==> In(world, Ready))
      ensures faults == old(faults) && Lasting(old(world), d.announced) ==>
                && world == old(world) && refused == Some(d.announced.sha256)
                && answer != Restarting && (answer.Failed? <==> old(refused) != Some(d.announced.sha256))
    {
      answer := Install(d.announced, d.reply, d.now);
    }

    // ------------------------------------------------------------- settle

    /** `commit`: the binary this update replaced goes, or on Windows is recorded, and the marker comes down. */
    method Commit() returns (ghost written: bool)
      requires Running(Passed)
      modifies this`world, this`log, this`faults
      ensures Running(Ready) && old(log) <= log && faults >= old(faults)
      ensures world.mind.me == old(world.mind.me) && world.files.binary == old(world.files.binary)
      ensures world.past == old(world.past)
      ensures world.journal.probation in {None, old(world.journal.probation)}
      ensures old(world.journal.probation).Some? && (world.files.previous.Some? ==> faults > old(faults))
      ensures written ==>
                && world.journal.probation.None?
                && (world.platform.Windows? && world.files.previous.Some? ==>
                      Leftover(Previous, old(world.journal.probation).value.previousSha256)
                      in world.journal.leftovers)
      ensures !written ==> faults > old(faults) + if world.files.previous.Some? then 1 else 0
      ensures faults == old(faults) ==> world.files.previous.None? && world.journal.probation.None?
                                        && world.journal.rejected == old(world.journal.rejected)
    {
      Sound();
      var left := false;
      var deleted := Remove(Previous);
      if !deleted {
        left := world.platform == Windows;
      }
      LeaveRecords(world.journal.leftovers, Previous, world.journal.probation.value.previousSha256);
      var ok := Update(Keep(left));
      written := ok;
      Done();
    }

    method ReplaceCandidate() returns (ok: bool)
      requires Running(Condemned) && world.platform.Unix? && Checked(world)
      modifies this`world, this`log, this`faults
      ensures Valid() && old(log) <= log
      ensures ok ==> faults == old(faults) && world == old(world).(mind := Up(old(world.mind.me), Restored(false)),
                       files := old(world.files).(previous := None, binary := old(world.files.previous)))
      ensures !ok ==> world == old(world) && faults == old(faults) + 1
    {
      NothingIsLoose();
      ok := Attempt(Replace);
    }

    method ParkCandidate() returns (ok: bool)
      requires Running(Condemned) && world.platform.Windows? && Checked(world)
      modifies this`world, this`log, this`faults
      ensures Valid() && old(log) <= log
      ensures ok ==> faults == old(faults) && world == old(world).(mind := Up(old(world.mind.me), Parked),
                       files := old(world.files).(binary := None, rejected := old(world.files.binary)))
      ensures !ok ==> world == old(world) && faults == old(faults) + 1
    {
      NothingIsLoose();
      ok := Attempt(Park);
    }

    method ReinstatePrevious() returns (ok: bool)
      requires Running(Parked)
      modifies this`world, this`log, this`faults
      ensures Valid() && old(log) <= log
      ensures ok ==> faults == old(faults) && world == old(world).(mind := Up(old(world.mind.me), Restored(true)),
                       files := old(world.files).(previous := None, binary := old(world.files.previous)))
      ensures !ok ==> world == old(world) && faults == old(faults) + 1
    {
      NothingIsLoose();
      ok := Attempt(Reinstate);
    }

    method UnparkCandidate() returns (ok: bool)
      requires Running(Parked)
      modifies this`world, this`log, this`faults
      ensures Valid() && old(log) <= log
      ensures ok ==> faults == old(faults) && world == old(world).(mind := Up(old(world.mind.me), Ready),
                       files := old(world.files).(rejected := None, binary := old(world.files.rejected)))
      ensures !ok ==> world == old(world) && faults == old(faults) + 1
    {
      NothingIsLoose();
      ok := Attempt(Unpark);
    }

    /**
     Bring the recorded binary back: one rename on Unix, and on Windows
     two with the candidate parked in between, the first undone when the second
     fails.
     */
    method Restore() returns (ok: bool)
      requires Running(Condemned) && Checked(world)
      modifies this`world, this`log, this`faults
      ensures Valid() && old(log) <= log && faults >= old(faults) && (ok <==> faults == old(faults))
      ensures world.mind.Up? && world.mind.me == old(world.mind.me) && world.platform == old(world.platform)
      ensures world.journal == old(world.journal) && world.past == old(world.past)
      ensures ok ==> In(world, Restored(world.platform.Windows?))
      ensures ok ==> world.files == old(world.files).(
                       previous := None, binary := old(world.files.previous),
                       rejected := if world.platform.Windows? then old(world.files.binary)
                                   else old(world.files.rejected))
      ensures !ok ==> In(world, Ready) && world.files.previous == old(world.files.previous)
      ensures !ok ==>
                if faults == old(faults) + 1 then world.files.binary == old(world.files.binary)
                else && faults == old(faults) + 2 && world.platform.Windows?
                     && world.files.binary.None? && world.files.rejected == old(world.files.binary)
    {
      match world.platform
      case Unix =>
        ok := ReplaceCandidate();
        if !ok {
          Done();
        }
      case Windows =>
        ok := ParkCandidate();
        if !ok {
          Done();
          return;
        }
        ok := ReinstatePrevious();
        if !ok {
          var back := UnparkCandidate();
          Done();
        }
    }

    /** `revert`: back to the recorded binary, if `.old` is it; otherwise the refusal is recorded and nothing moves. */
    method Revert() returns (next: Next)
      requires Running(Condemned)
      modifies this`world, this`log, this`faults
      ensures Valid() && old(log) <= log && faults >= old(faults)
      ensures world.mind.Up?
      ensures old(world.journal.probation).Some? && world.past.trusted == old(world.past.trusted)
      ensures world.journal.probation in {None, old(world.journal.probation)}
      ensures var p := old(world.journal.probation).value;
              && (next == Restart ==> world.files.binary == Some(p.previousSha256) && world.files.previous.None?)
              && (next == CarryOn ==> In(world, Ready) && world.mind.me == old(world.mind.me))
              && (next == CarryOn ==> world.files.previous == old(world.files.previous))
              && (faults == old(faults) ==>
                    if old(world.files.previous).Some?
                    then next == Restart && RolledBackTo(world, p, old(world.mind.me))
                    else next == CarryOn && world.files == old(world.files)
                         && world.journal.probation.None? && world.journal.rejected == Some(p.sha256))
    {
      OnTrialFacts();
      var p := world.journal.probation.value;
      var held := Hash(world.files.previous);
      if !held.Is? || !Same(held.sha, p.previousSha256) {
        var _ := Update(Refuse);
        Done();
        return CarryOn;
      }
      var restored := Restore();
      if !restored {
        return CarryOn;
      }
      LeaveRecords(world.journal.leftovers, Rejected, p.sha256);
      var _ := Update(RollBack);
      return Restart;
    }

    lemma OnTrialFacts()
      requires Running(Condemned) || Running(Passed) || Running(Booted)
      ensures world.files.binary == Some(world.mind.me)
      ensures Running(Condemned) || Running(Passed) ==> OnTrial(world)
      ensures OnTrial(world) ==>
                && world.files.rejected.None?
                && (world.files.previous.Some? ==>
                      world.files.previous.value == world.journal.probation.value.previousSha256)
    {
      Sound();
      assert JournalFits(world, world.journal);
      if OnTrial(world) {
        MatchIsCanonical(world.journal.probation.value.sha256, world.mind.me);
      }
    }

    /** This boot on disk, before anything is run. */
    method CountBoot() returns (ok: bool)
      requires Running(Booted) && OnTrial(world)
      modifies this`world, this`log, this`faults
      ensures Valid() && old(log) <= log && world.mind.Up? && world.mind.me == old(world.mind.me)
      ensures world.files == old(world.files) && world.past == old(world.past)
      ensures ok ==> In(world, Counted) && OnTrial(world) && faults == old(faults)
      ensures ok ==> world.journal == old(world.journal).(
                       probation := Some(Counting(old(world.journal).probation.value)))
      ensures !ok ==> In(world, Ready) && faults > old(faults)
    {
      ok := Update(CountAttempt);
      if !ok {
        Done();
      }
    }

    method RunGate(now: int, answers: seq<Outcome>)
      requires Running(Counted) && OnTrial(world) && !world.journal.probation.value.Over(now)
      modifies this`world, this`log
      ensures Valid() && old(log) <= log
      ensures world == old(world).(mind := world.mind, past := world.past)
      ensures world.mind == Up(old(world.mind.me), if Fail in answers then Condemned
                                                   else if Timeout in answers then Ready else Passed)
      ensures world.past == old(world.past).(gates := old(world.past.gates) + 1, trusted := world.past.trusted)
      ensures world.past.trusted ==
              old(world.past.trusted) + if Fail in answers || Timeout in answers then {} else {old(world.mind.me)}
    {
      Perform(Probe(now));
      Perform(Gate(VerdictOf(answers)));
    }

    method RunOut(now: int)
      requires Running(Counted) && OnTrial(world) && world.journal.probation.value.Over(now)
      modifies this`world, this`log
      ensures Valid() && old(log) <= log && world == old(world).(mind := Up(old(world.mind.me), Condemned))
    {
      Perform(Condemn(now));
    }

    /**
     `prove`: count this boot, run the gate, and keep the candidate or put the
     last good binary back. Whatever else fails, every boot into a candidate that
     could be counted ends its probation or leaves it one chance fewer.
     */
    method Prove(answers: seq<Outcome>, now: int) returns (next: Next, ghost counted: bool)
      requires Running(Booted) && OnTrial(world)
      modifies this`world, this`log, this`faults
      ensures Valid() && old(log) <= log && faults >= old(faults)
      ensures world.mind.Up?
      ensures var p := Counting(old(world.journal).probation.value);
              && (next == Restart ==> world.files.binary == Some(p.previousSha256) && world.files.previous.None?)
              && (next == CarryOn ==> In(world, Ready))
              && (counted ==> world.journal.probation in {None, Some(p)})
              && (faults == old(faults) ==> Proved(old(world), world, p, now, answers, next))
      ensures !counted ==> faults > old(faults) && next == CarryOn
    {
      var ok := CountBoot();
      counted := ok;
      if !ok {
        return CarryOn, counted;
      }
      if world.journal.probation.value.Over(now) {
        RunOut(now);
        next := Revert();
        return;
      }
      RunGate(now, answers);
      OnTrialIfPassed();
      match VerdictOf(answers)
      case Failing => next := Revert();
      case Quiet => next := CarryOn;
      case Healthy =>
        ghost var written := Commit();
        next := CarryOn;
    }

    lemma OnTrialIfPassed()
      requires Valid() && world.mind.Up?
      ensures world.mind.phase.Passed? ==> world.files.binary == Some(world.mind.me)
    {
      Sound();
    }

    /** `.old` goes if it holds the very binary that booted, and on Windows is recorded if it will not go. */
    method DropCopy() returns (left: bool, ghost unread: bool)
      requires Running(Booted) && NeverTook(world)
      modifies this`world, this`log, this`faults
      ensures Running(Booted) && NeverTook(world) && old(log) <= log && faults >= old(faults)
      ensures world == old(world).(files := old(world.files).(previous := world.files.previous))
      ensures left ==> world.platform.Windows? && world.files.previous == Some(world.mind.me)
      ensures world.platform.Windows? && world.files.previous.Some? && !unread ==> left
      ensures unread ==> faults > old(faults)
      ensures faults == old(faults) ==> !left && world.files.previous.None?
    {
      left, unread := false, false;
      CopyFacts();
      if world.files.previous.Some? {
        var read := Hash(world.files.previous);
        unread := read.Unreadable?;
        if read.Is? && Same(read.sha, world.mind.me) {
          var deleted := Remove(Previous);
          left := !deleted && world.platform == Windows;
        }
      }
    }

    /** A candidate parked by an interrupted rollback goes, or is recorded if it cannot be read or deleted yet. */
    method DropParked() returns (left: bool)
      requires Running(Booted) && NeverTook(world)
      modifies this`world, this`log, this`faults
      ensures Running(Booted) && NeverTook(world) && old(log) <= log && faults >= old(faults)
      ensures world == old(world).(files := old(world.files).(rejected := world.files.rejected))
      ensures left ==> world.platform.Windows?
      ensures Interrupted(world) ==> left
      ensures faults == old(faults) ==> !left && world.files.rejected.None?
    {
      left := false;
      CopyFacts();
      if world.platform == Windows && world.files.rejected.Some? {
        var read := Hash(world.files.rejected);
        match read
        case Missing =>
        case Unreadable => left := true;
        case Is(sha) =>
          if Same(sha, world.journal.probation.value.sha256) {
            var deleted := Remove(Rejected);
            left := !deleted;
          }
      }
    }

    lemma CopyFacts()
      requires Running(Booted) && NeverTook(world)
      ensures world.files.binary == Some(world.mind.me)
      ensures world.files.previous.Some? ==> world.files.previous.value == world.mind.me
      ensures world.files.rejected.Some? ==>
                world.platform.Windows?
                && Same(world.files.rejected.value, world.journal.probation.value.sha256)
      ensures world.journal.probation.value.previousSha256 == world.mind.me
    {
      Sound();
      assert JournalFits(world, world.journal);
    }

    /** What an update that never booted left beside the binary goes, and what will not go is returned. */
    method ClearAway() returns (leftPrevious: bool, leftRejected: bool)
      requires Running(Booted) && NeverTook(world)
      modifies this`world, this`log, this`faults
      ensures Running(Booted) && NeverTook(world) && old(log) <= log && faults >= old(faults)
      ensures world == old(world).(files := world.files) && world.files.binary == Some(world.mind.me)
      ensures MayWrite(world, Abandon(leftPrevious, leftRejected))
      ensures faults == old(faults) ==>
                !leftPrevious && !leftRejected && world.files == Files(Some(world.mind.me), None, None, None, {})
    {
      CopyFacts();
      NothingIsLoose();
      var _ := RemoveStaged();
      ghost var unread;
      leftPrevious, unread := DropCopy();
      leftRejected := DropParked();
    }

    /** An update that never booted: cleared away, and refused from here on. */
    method Abandoning()
      requires Running(Booted) && NeverTook(world)
      modifies this`world, this`log, this`faults
      ensures Running(Ready) && old(log) <= log && faults >= old(faults)
      ensures world.mind.me == old(world.mind.me) && world.files.binary == Some(world.mind.me)
      ensures faults == old(faults) ==>
                && world.files == Files(Some(world.mind.me), None, None, None, {})
                && world.journal == old(world.journal).(
                     probation := None, rejected := Some(old(world.journal).probation.value.sha256))
    {
      var leftPrevious, leftRejected := ClearAway();
      var _ := Update(Abandon(leftPrevious, leftRejected));
      Done();
    }

    /** `settle`: what starting up does about an update the last process did not finish. */
    method SettleUpdate(answers: seq<Outcome>, now: int) returns (next: Next)
      requires Running(Booted)
      modifies this`world, this`log, this`faults
      ensures Valid() && old(log) <= log && faults >= old(faults)
      ensures world.mind.Up?
      ensures next == Restart ==>
                && OnTrial(old(world))
                && world.files.binary == Some(old(world.journal).probation.value.previousSha256)
      ensures next == CarryOn ==> In(world, Ready)
      ensures faults == old(faults) ==> Settles(old(world), world, answers, now, next)
    {
      next := CarryOn;
      var held := Load();
      if held.None? {
        Done();
        return;
      }
      match StandingOf(held.value, world.mind.me)
      case Quiescent =>
        if held.value.leftovers != [] {
          var _ := Tidy();
        }
        Done();
      case Unrecoverable =>
        Done();
      case Abandoned(_) =>
        CopyFacts();
        Abandoning();
      case Proving(_) =>
        ghost var counted;
        next, counted := Prove(answers, now);
    }

    // --------------------------------------------------------------- life

    method Begin()
      requires Valid() && world.mind.Off? && world.files.binary.Some?
      modifies this`world, this`log, this`refused
      ensures Running(Booted) && log == old(log) + [Boot] && refused == None
      ensures world == old(world).(mind := Up(old(world.files.binary).value, Booted))
    {
      Perform(Boot);
      refused := None;
    }

    method End()
      requires Valid() && world.mind.Up?
      modifies this`world, this`log
      ensures Valid() && log == old(log) + [Die] && world == old(world).(mind := Off)
    {
      Perform(Die);
    }

    /** The world was so, that far into the log. */
    ghost predicate Happened(moment: Moment, log: seq<Act>) {
      moment.at <= |log| && moment.world == Run(start, log[..moment.at])
    }

    ghost predicate AllHappened(moments: seq<Moment>, log: seq<Act>) {
      forall k :: 0 <= k < |moments| ==> Happened(moments[k], log)
    }

    /** This delivery is to be installed, and its artifact arrives. */
    ghost predicate ToInstall(w: World, d: Delivery)
      requires w.mind.Up?
    {
      Acceptable(w, d.announced) && Delivers(d.announced.secure, d.reply, Named(d.announced.sha256).value)
    }

    /** A delivery was answered as it should be, from one moment to another. */
    ghost predicate Responds(d: Delivery, answer: Answer, before: Moment, after: Moment) {
      && In(before.world, Ready)
      && (answer == Restarting ==>
            ToInstall(before.world, d)
            && InPlace(after.world, before.world.mind.me, d.announced.sha256, d.now))
      && (after.faults == before.faults ==> (answer == Restarting <==> ToInstall(before.world, d)))
    }

    /** So many deliveries were answered, one after another. */
    ghost predicate Serving(deliveries: seq<Delivery>, answers: seq<Answer>, moments: seq<Moment>) {
      && |answers| <= |deliveries| && |moments| == |answers| + 1
      && forall k {:trigger answers[k]} :: 0 <= k < |answers| ==>
           Responds(deliveries[k], answers[k], moments[k], moments[k + 1])
    }

    /** Every delivery was answered, up to the first that ended the process if one did. */
    ghost predicate Served(deliveries: seq<Delivery>, answers: seq<Answer>, moments: seq<Moment>) {
      && Serving(deliveries, answers, moments)
      && (forall k :: 0 <= k < |answers| - 1 ==> answers[k] != Restarting)
      && (|answers| < |deliveries| ==> answers != [] && answers[|answers| - 1] == Restarting)
    }

    lemma ServedOneMore(
      deliveries: seq<Delivery>, answers: seq<Answer>, moments: seq<Moment>, answer: Answer, after: Moment)
      requires Serving(deliveries, answers, moments) && |answers| < |deliveries| && Restarting !in answers
      requires Responds(deliveries[|answers|], answer, moments[|answers|], after)
      ensures Serving(deliveries, answers + [answer], moments + [after])
      ensures if answer == Restarting then Served(deliveries, answers + [answer], moments + [after])
              else Restarting !in answers + [answer]
    {}

    /** How it went so far, up to now. */
    ghost predicate Recounted(deliveries: seq<Delivery>, answers: seq<Answer>, moments: seq<Moment>)
      reads this
    {
      && Serving(deliveries, answers, moments) && AllHappened(moments, log)
      && moments[|answers|] == Moment(|log|, world, faults)
    }

    /** One announcement at a time, until one ends the process. */
    method Answer(deliveries: seq<Delivery>) returns (answers: seq<Answer>, ghost moments: seq<Moment>)
      requires Running(Ready)
      modifies this
      ensures Valid() && old(log) <= log && world.mind.Up? && faults >= old(faults)
      ensures Served(deliveries, answers, moments) && heard == old(heard) + Announced(deliveries, |answers|)
      ensures moments[0] == Moment(|old(log)|, old(world), old(faults))
      ensures Recounted(deliveries, answers, moments)
    {
      answers, moments := [], [Moment(|log|, world, faults)];
      HappensNow(moments[0]);
      for k := 0 to |deliveries|
        invariant Running(Ready) && old(log) <= log && |answers| == k && faults >= old(faults)
        invariant Recounted(deliveries, answers, moments) && Restarting !in answers
        invariant heard == old(heard) + Announced(deliveries, k)
        invariant moments[0] == Moment(|old(log)|, old(world), old(faults))
      {
        var answer := Respond(deliveries, answers, moments);
        answers, moments := answers + [answer], moments + [Moment(|log|, world, faults)];
        if answer == Restarting {
          return;
        }
      }
    }

    /** The next delivery. */
    method Respond(deliveries: seq<Delivery>, answers: seq<Answer>, ghost moments: seq<Moment>)
      returns (answer: Answer)
      requires Running(Ready) && |answers| < |deliveries| && Restarting !in answers
      requires Recounted(deliveries, answers, moments)
      modifies this
      ensures Valid() && old(log) <= log && world.mind.Up? && faults >= old(faults)
      ensures heard == old(heard) + {deliveries[|answers|].announced.sha256}
      ensures Recounted(deliveries, answers + [answer], moments + [Moment(|log|, world, faults)])
      ensures if answer == Restarting
              then Served(deliveries, answers + [answer], moments + [Moment(|log|, world, faults)])
              else Running(Ready) && Restarting !in answers + [answer]
    {
      answer := InstallNext(deliveries[|answers|], moments[|answers|]);
      ghost var now := Moment(|log|, world, faults);
      StillHappened(moments, old(log), log);
      HappensNow(now);
      ServedOneMore(deliveries, answers, moments, answer, now);
    }

    /** One delivery. */
    method InstallNext(d: Delivery, ghost before: Moment) returns (answer: Answer)
      requires Running(Ready) && before == Moment(|log|, world, faults)
      modifies this
      ensures Valid() && old(log) <= log && world.mind.Up? && faults >= old(faults)
      ensures heard == old(heard) + {d.announced.sha256}
      ensures Responds(d, answer, before, Moment(|log|, world, faults))
      ensures answer != Restarting ==> In(world, Ready)
    {
      answer := Install(d.announced, d.reply, d.now);
    }

    lemma HappensNow(moment: Moment)
      requires Valid() && moment.at == |log| && moment.world == world
      ensures Happened(moment, log)
    {
      assert log[..|log|] == log;
    }

    lemma StillHappened(moments: seq<Moment>, behind: seq<Act>, log: seq<Act>)
      requires behind <= log && AllHappened(moments, behind)
      ensures AllHappened(moments, log)
    {
      forall k | 0 <= k < |moments| ensures Happened(moments[k], log) {
        assert log[..moments[k].at] == behind[..moments[k].at];
      }
    }

    /** One process, from its boot to its end: it settled, and, unless that ended it, answered what came. */
    ghost predicate WentOn(boot: BootConditions, life: Life, log: seq<Act>) {
      && life.began.world.files.binary.Some? && Happened(life.settled, log)
      && (life.settled.faults == life.began.faults ==>
            Settles(Booting(life.began.world), life.settled.world, boot.answers, boot.now, life.next))
      && (life.next == Restart ==> life.answers == [] && life.moments == [life.settled])
      && (life.next == CarryOn ==> In(life.settled.world, Ready) && Served(boot.deliveries, life.answers, life.moments))
      && |life.moments| == |life.answers| + 1 && life.moments[0] == life.settled && AllHappened(life.moments, log)
      && life.moments[|life.answers|].at < |log| && log[life.moments[|life.answers|].at] == Die
    }

    /** A boot, and all that follows unless the power goes. */
    ghost predicate Lived(boot: BootConditions, life: Life, log: seq<Act>) {
      && Happened(life.began, log) && life.began.at < |log| && log[life.began.at] == Boot
      && life.began.world.mind.Off? && life.began.world.files.binary.Some?
      && (!boot.powerFails ==> life.began.at < life.settled.at && WentOn(boot, life, log))
    }

    lemma StillLived(boot: BootConditions, life: Life, behind: seq<Act>, log: seq<Act>)
      requires behind <= log && Lived(boot, life, behind)
      ensures Lived(boot, life, log)
    {
      assert log[..life.began.at] == behind[..life.began.at];
      if !boot.powerFails {
        StillHappened(life.moments, behind, log);
        assert life.moments[0] == life.settled;
      }
    }

    /** One life after another. */
    ghost predicate AllLived(boots: seq<BootConditions>, lives: seq<Life>, log: seq<Act>) {
      && |lives| <= |boots|
      && (forall k :: 0 <= k < |lives| ==> Lived(boots[k], lives[k], log))
      && (forall j, k :: 0 <= j < k < |lives| ==> lives[j].began.at < lives[k].began.at)
    }

    /** The start of a process: whatever there is to settle is settled before anything else. */
    method StartUp(answers: seq<Outcome>, now: int) returns (next: Next)
      requires Valid() && world.mind.Off? && world.files.binary.Some?
      modifies this`world, this`log, this`faults, this`refused
      ensures Valid() && old(log) + [Boot] <= log && world.mind.Up? && faults >= old(faults)
      ensures next == CarryOn ==> In(world, Ready)
      ensures faults == old(faults) ==> Settles(Booting(old(world)), world, answers, now, next)
    {
      Begin();
      next := SettleUpdate(answers, now);
    }

    /**
     One process, from boot to exit: settle first, and then, unless settling
     ended it, one announcement at a time until one does.
     */
    method Process(boot: BootConditions) returns (answers: seq<Answer>, ghost life: Life)
      requires Valid() && world.mind.Off? && world.files.binary.Some?
      modifies this
      ensures Valid() && old(log) + [Boot] < log && LastAct(log) == Die
      ensures world.mind.Off? && faults >= old(faults)
      ensures |answers| <= |boot.deliveries| && heard == old(heard) + Announced(boot.deliveries, |answers|)
      ensures life.began == Moment(|old(log)|, old(world), old(faults)) && life.answers == answers
      ensures life.began.at < life.settled.at && WentOn(boot, life, log)
      ensures |log| == life.moments[|answers|].at + 1 && faults == life.moments[|answers|].faults
    {
      var next := StartUp(boot.answers, boot.now);
      ghost var settled, moments := Moment(|log|, world, faults), [Moment(|log|, world, faults)];
      answers := [];
      HappensNow(settled);
      if next == CarryOn {
        answers, moments := Answer(boot.deliveries);
      }
      life := Life(Moment(|old(log)|, old(world), old(faults)), settled, next, answers, moments);
      ghost var behind := log;
      End();
      StillHappened(moments, behind, log);
      assert moments[0] == settled;
    }

    /** One boot that settles what there is to settle, and ends. */
    method Settle(answers: seq<Outcome>, now: int) returns (ghost next: Next)
      requires Valid() && Awaiting(world)
      modifies this
      ensures Valid() && world.mind.Off? && faults >= old(faults)
      ensures faults == old(faults) ==>
                var p := Counting(old(world.journal).probation.value);
                Proved(Booting(old(world)), world, p, now, answers, next)
    {
      next := StartUp(answers, now);
      End();
    }

    /**
     However its gate answers, and whatever the clock says, a candidate's trial
     is over within three boots on which nothing fails.
     */
    method SeeThrough(boots: seq<(seq<Outcome>, int)>)
      requires Valid() && Awaiting(world) && |boots| >= PROBATION_ATTEMPTS
      modifies this
      ensures Valid() && world.mind.Off? && faults >= old(faults)
      ensures faults == old(faults) ==> world.journal.probation.None?
    {
      var k := 0;
      while k < PROBATION_ATTEMPTS && Awaiting(world)
        invariant k <= PROBATION_ATTEMPTS && Valid() && world.mind.Off? && faults >= old(faults)
        invariant faults == old(faults) && world.journal.probation.Some? ==>
                    Awaiting(world) && k <= world.journal.probation.value.attempts && k < PROBATION_ATTEMPTS
        decreases PROBATION_ATTEMPTS - k
      {
        ghost var _ := Settle(boots[k].0, boots[k].1);
        k := k + 1;
      }
    }

    /** The power goes, at any point since `booted`. */
    method LosePower(booted: seq<Act>)
      requires Valid() && booted <= log
      modifies this`world, this`log
      ensures Valid() && world.mind.Off? && booted < log && LastAct(log).PowerCut?
    {
      var k: nat :| |booted| <= k <= |log|;
      Prefix(start, log, k);
      log := log[..k];
      world := Run(start, log);
      GoDark();
    }

    /** And what the disk may then hold, it holds. */
    method GoDark()
      requires Valid()
      modifies this`world, this`log
      ensures Valid() && world.mind.Off? && old(log) <= log && |log| == |old(log)| + 1 && log[|old(log)|].PowerCut?
      ensures old(world).settled ==> world.journal in old(world).may
    {
      Sound();
      var left: Files := *;
      if !Survives(world.files, left) {
        left := world.files.(loose := {});
      }
      var journal :| journal in world.may;
      var kept: bool := *;
      if world.settled || kept {
        Perform(PowerCut(journal, left, true));
      } else {
        Perform(PowerCut(EMPTY_JOURNAL, left, false));
      }
    }

    /** One boot, and the power with it if it goes. */
    method LiveOnce(boot: BootConditions) returns (ghost life: Life)
      requires Valid() && world.mind.Off? && world.files.binary.Some?
      modifies this
      ensures Valid() && world.mind.Off? && old(log) < log
      ensures LastAct(log) == Die || LastAct(log).PowerCut?
      ensures LastAct(log).PowerCut? <==> boot.powerFails
      ensures life.began.at == |old(log)| && Lived(boot, life, log)
      ensures heard <= old(heard) + AllAnnounced([boot])
    {
      var was := log;
      var answers;
      answers, life := Process(boot);
      AnnouncedSome(boot, |answers|);
      if boot.powerFails {
        LosePower(was + [Boot]);
      }
      BeganThere(was, life.began, log);
    }

    lemma BeganThere(was: seq<Act>, began: Moment, log: seq<Act>)
      requires was + [Boot] <= log && began.at == |was| && began.world == Run(start, was)
      ensures Happened(began, log) && log[began.at] == Boot
    {
      assert log[..|was|] == was && (was + [Boot])[|was|] == Boot;
    }

    /** Boots, announcements, probes, and the power going wherever it likes, while something is there to boot. */
    method LiveThrough(boots: seq<BootConditions>) returns (ghost lives: seq<Life>)
      requires Valid() && world.mind.Off?
      modifies this
      ensures Valid() && world.mind.Off?
      ensures heard <= old(heard) + AllAnnounced(boots)
      ensures AllLived(boots, lives, log) && (world.files.binary.Some? ==> |lives| == |boots|)
    {
      lives := [];
      for k := 0 to |boots|
        invariant Valid() && world.mind.Off?
        invariant heard <= old(heard) + AllAnnounced(boots)
        invariant |lives| <= k && (world.files.binary.Some? ==> |lives| == k)
        invariant AllLived(boots, lives, log)
      {
        if world.files.binary.None? {
          break;
        }
        ghost var behind := log;
        ghost var life := LiveOnce(boots[k]);
        assert boots[k] in boots;
        OneMoreLife(boots, lives, life, behind, log);
        lives := lives + [life];
      }
    }

    lemma OneMoreLife(
      boots: seq<BootConditions>, lives: seq<Life>, life: Life, behind: seq<Act>, log: seq<Act>)
      requires behind <= log && AllLived(boots, lives, behind) && |lives| < |boots|
      requires Lived(boots[|lives|], life, log) && life.began.at == |behind|
      ensures AllLived(boots, lives + [life], log)
    {
      forall k | 0 <= k < |lives| ensures Lived(boots[k], lives[k], log) {
        StillLived(boots[k], lives[k], behind, log);
      }
    }

    /** What was ever in place is genuine. */
    lemma ImagesAreGenuine(k: nat)
      requires Valid() && k <= |log|
      ensures GenuineImages(k)
    {
      Prefix(start, log, k);
      var files := Run(start, log[..k]).files;
      forall sha | Some(sha) in {files.binary, files.previous, files.rejected}
        ensures sha == start.past.original || Genuine(sha)
      {
        OnlySignedImages(start, log[..k], sha);
        if sha != start.past.original {
          var j, text :| 0 <= j < k && log[..k][j] == Verify(text, sha);
          assert log[j] in log && Backed(log[j]);
        }
      }
    }

    /** Every image at the path, or beside it, was there first or has a signature that checks out. */
    ghost predicate GenuineImages(k: nat)
      requires k <= |log|
      reads this
    {
      var files := Run(start, log[..k]).files;
      forall sha :: Some(sha) in {files.binary, files.previous, files.rejected} ==>
                      sha == start.past.original || Genuine(sha)
    }

    /** Announced only as 64 digits, no update leaves a boot beyond understanding. */
    lemma PlainDigestsAreUnderstood()
      requires Valid() && forall text :: text in heard ==> Canonical(text)
      ensures OnlyCanonical(log)
      ensures May(world, Boot) ==> !StandingOf(world.journal, world.files.binary.value).Unrecoverable?
    {
      forall k | 0 <= k < |log| && log[k].Write? && log[k].change.Mark?
        ensures Canonical(log[k].change.marker.sha256)
      {
        var j, sha := MarkedWasVerified(start, log, k);
        assert log[j] in log && Backed(log[j]);
      }
      if May(world, Boot) {
        NoBootIsUnrecoverable(start, log);
      }
    }

    /** Announced only `x`, the device installs it once, and once more for each journal lost with its directory. */
    lemma OneDigestIsInstalledOnce(x: string)
      requires Valid() && forall text :: text in heard ==> Same(text, x)
      ensures OnlyAbout(log, x) && Installations(start, log, x) <= 1 + Forgettings(log)
      ensures start.settled ==> Installations(start, log, x) <= 1
    {
      forall k | 0 <= k < |log| ensures About(log[k], x) {
        assert log[k] in log && Backed(log[k]);
      }
      InstalledAtMostOnce(start, log, x);
      if start.settled {
        SettledForgetsNothing(start, log);
      }
    }

    /**
     A life of boots and power cuts. At every point of it, between any two
     writes, the binary's path or `.old` holds an image that was there first or
     has passed its gate, and nothing there is without its signature. Announced
     only in plain digits, it never boots into what it cannot understand;
     announced one digest, it installs it once.
     */
    method Live(boots: seq<BootConditions>) returns (ghost lives: seq<Life>)
      requires Valid() && world.mind.Off?
      modifies this
      ensures Valid() && world.mind.Off?
      ensures AllLived(boots, lives, log) && (world.files.binary.Some? ==> |lives| == |boots|)
      ensures forall k :: 0 <= k <= |log| ==> GoodImage(start, log[..k]) && GenuineImages(k)
      ensures (forall text :: text in old(heard) + AllAnnounced(boots) ==> Canonical(text)) ==>
                OnlyCanonical(log)
                && (May(world, Boot) ==> !StandingOf(world.journal, world.files.binary.value).Unrecoverable?)
      ensures forall x :: (forall text :: text in old(heard) + AllAnnounced(boots) ==> Same(text, x)) ==>
                            Installations(start, log, x) <= 1 + Forgettings(log)
    {
      lives := LiveThrough(boots);
      forall k | 0 <= k <= |log| ensures GoodImage(start, log[..k]) && GenuineImages(k) {
        Prefix(start, log, k);
        GoodImageSurvives(start, log[..k]);
        ImagesAreGenuine(k);
      }
      if forall text :: text in old(heard) + AllAnnounced(boots) ==> Canonical(text) {
        PlainDigestsAreUnderstood();
      }
      forall x | forall text :: text in old(heard) + AllAnnounced(boots) ==> Same(text, x)
        ensures Installations(start, log, x) <= 1 + Forgettings(log)
      {
        OneDigestIsInstalledOnce(x);
      }
    }
  }

  /** So many acts behind, so many operations failed, and the world as it then was. */
  datatype Moment = Moment(at: nat, world: World, faults: nat)

  /** A process: where it began, where settling left it, and where each announcement found and left it. */
  datatype Life = Life(began: Moment, settled: Moment, next: Next, answers: seq<Answer>, moments: seq<Moment>)

  /** Built for another machine. */
  predicate Foreign(announced: Announcement) {
    announced.target.Some? && announced.target.value != TARGET
  }

  // ------------------------------------------------------ what is reported

  function Texts(deliveries: seq<Delivery>): seq<string> {
    seq(|deliveries|, k requires 0 <= k < |deliveries| => deliveries[k].announced.sha256)
  }

  /** What the first `k` deliveries announce. */
  function Announced(deliveries: seq<Delivery>, k: nat): set<string>
    requires k <= |deliveries|
  {
    if k == 0 then {} else Announced(deliveries, k - 1) + {deliveries[k - 1].announced.sha256}
  }

  function LastAct(acts: seq<Act>): Act
    requires acts != []
  {
    acts[|acts| - 1]
  }

  function AllAnnounced(boots: seq<BootConditions>): set<string> {
    set boot, d | boot in boots && d in boot.deliveries :: d.announced.sha256
  }

  lemma {:induction false} AnnouncedSome(boot: BootConditions, k: nat)
    requires k <= |boot.deliveries|
    ensures Announced(boot.deliveries, k) <= AllAnnounced([boot])
  {
    if k == 0 {
    } else {
      AnnouncedSome(boot, k - 1);
      assert boot in [boot] && boot.deliveries[k - 1] in boot.deliveries;
    }
  }

  /** What was refused just before. `refused` is what was when all this began. */
  function Before(refused: Option<string>, texts: seq<string>, k: nat): Option<string>
    requires k <= |texts|
  {
    if k == 0 then refused else Some(texts[k - 1])
  }

  predicate IsNews(refused: Option<string>, texts: seq<string>, k: nat)
    requires k < |texts|
  {
    Before(refused, texts, k) != Some(texts[k])
  }

  /** So far, what was reported is what was not refused just before. */
  ghost predicate NewsReported(refused: Option<string>, texts: seq<string>, reported: seq<bool>) {
    && |reported| <= |texts|
    && forall k {:trigger reported[k]} :: 0 <= k < |reported| ==> (reported[k] <==> IsNews(refused, texts, k))
  }

  lemma NewsAgain(refused: Option<string>, texts: seq<string>, reported: seq<bool>, news: bool)
    requires |reported| < |texts|
    ensures NewsReported(refused, texts, reported) && (news <==> IsNews(refused, texts, |reported|)) ==>
              NewsReported(refused, texts, reported + [news])
  {}

  /** How often `x` is reported in a process that has refused nothing yet. */
  function Reports(texts: seq<string>, x: string): nat {
    if texts == [] then 0
    else
      var n := |texts| - 1;
      Reports(texts[..n], x) + if texts[n] == x && IsNews(None, texts, n) then 1 else 0
  }

  /** Its deliveries come in one stretch. */
  predicate Together(texts: seq<string>, x: string) {
    forall i, j, k :: 0 <= i < j < k < |texts| && texts[i] == x && texts[k] == x ==> texts[j] == x
  }

  lemma StillTogether(front: seq<string>, last: string, x: string)
    requires last != x || (front != [] && front[|front| - 1] == x)
    ensures Together(front + [last], x) <==> Together(front, x)
  {
    var texts, n := front + [last], |front|;
    if Together(texts, x) {
      forall i, j, k | 0 <= i < j < k < n && front[i] == x && front[k] == x ensures front[j] == x {
        assert texts[i] == x && texts[k] == x && texts[j] == front[j];
      }
    }
    if Together(front, x) {
      forall i, j, k | 0 <= i < j < k <= n && texts[i] == x && texts[k] == x ensures texts[j] == x {
        var upTo := if k < n then k else n - 1;
        assert j == upTo || (front[i] == x && front[upTo] == x);
      }
    }
  }

  lemma ApartAgain(front: seq<string>, x: string)
    requires front == [] || front[|front| - 1] != x
    ensures Together(front + [x], x) <==> x !in front
  {
    var texts, n := front + [x], |front|;
    if x in front {
      var i :| 0 <= i < n && front[i] == x;
      assert texts[i] == x && texts[n - 1] != x && texts[n] == x && i < n - 1 < n;
    }
  }

  /** However often it is delivered, a refusal is reported once if and only if nothing else comes between. */
  lemma {:induction false} ReportedOnceIfTogether(texts: seq<string>, x: string)
    ensures Reports(texts, x) <= 1 <==> Together(texts, x)
    ensures Reports(texts, x) == 0 <==> x !in texts
  {
    if texts == [] {
    } else {
      var n := |texts| - 1;
      var front := texts[..n];
      assert texts == front + [texts[n]];
      ReportedOnceIfTogether(front, x);
      if texts[n] == x && IsNews(None, texts, n) {
        ApartAgain(front, x);
      } else {
        StillTogether(front, texts[n], x);
      }
    }
  }

  /** Two digests by turns: the first is reported again when it comes back. */
  lemma ReportedAgain(a: string, b: string)
    requires a != b
    ensures Reports([a, b, a], a) == 2
  {
    assert [a, b, a][..2] == [a, b] && [a, b][..1] == [a] && [a][..0] == [];
    ReportedOnceIfTogether([a], a);
  }

  /** Nothing this record is for is left: its file is gone, or holds something else. */
  ghost predicate Unneeded(files: Files, record: Leftover) {
    At(files, record.file).None? || !Same(At(files, record.file).value, record.sha256)
  }

  function Lacking(files: Files, file: Spare): Files {
    match file
    case Previous => files.(previous := None)
    case Rejected => files.(rejected := None)
  }

  /** Nothing moved; a file that went was one this device had finished with. */
  ghost predicate Tidied(w: World, files: Files) {
    && files.binary == w.files.binary && files.staged == w.files.staged && files.loose == w.files.loose
    && forall file :: At(files, file) == At(w.files, file)
                      || (At(files, file).None? && Spent(w, file))
  }

  lemma {:induction false} JoinedStep(chunks: seq<seq<Byte>>, k: nat)
    requires k < |chunks|
    ensures Joined(chunks[..k + 1]) == Joined(chunks[..k]) + chunks[k]
    ensures |Joined(chunks[..k])| + |chunks[k]| <= |Joined(chunks)|
    decreases |chunks|
  {
    assert chunks[..k + 1][..k] == chunks[..k];
    if k + 1 < |chunks| {
      JoinedStep(chunks[..|chunks| - 1], k);
      assert chunks[..|chunks| - 1][..k] == chunks[..k];
    } else {
      assert chunks[..k + 1] == chunks;
    }
  }

  lemma LeaveRecords(leftovers: seq<Leftover>, file: Spare, sha256: string)
    ensures Leftover(file, sha256) in Leave(leftovers, file, sha256)
  {}

  /** The next record names a file none of the kept ones do. */
  lemma KeepOneMore(records: seq<Leftover>, kept: seq<Leftover>, k: nat)
    requires k < |records| && Unique(records) && Unique(kept)
    requires forall l :: l in kept ==> l in records[..k]
    ensures Unique(kept + [records[k]]) && records[k] !in kept
    ensures forall l :: l in records[..k + 1] <==> l in records[..k] || l == records[k]
  {
    forall l | l in kept ensures l.file != records[k].file {
      var i :| 0 <= i < k && records[i] == l;
    }
    assert records[..k + 1] == records[..k] + [records[k]];
    forall i | 0 <= i < |kept| ensures kept[i].file != records[k].file {
      assert kept[i] in kept;
    }
  }
}
