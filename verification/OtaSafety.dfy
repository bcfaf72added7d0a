/**
 What the law implies on every run, whatever is announced, whatever fails and
 wherever the power goes.
 */
module OtaSafety {
  import Durable
  import opened Codec
  import opened Options
  import opened Ota

  // ------------------------------------------------------------- the text

  /** A text that matches a digest is canonical, and it is that digest it names. */
  lemma MatchIsCanonical(text: string, sha: Sha)
    ensures Same(text, sha) ==> Canonical(text) && Named(text) == Some(sha)
    ensures Canonical(text) ==> Named(text).Some? && Same(text, Named(text).value)
  {
    if Same(text, sha) {
      FoldedDigits(text, sha);
    }
    if Canonical(text) {
      CanonicalIsRead(text);
      HexInvertsUnhexIffCanonical(text);
    }
  }

  // -------------------------------------------------------- the invariant

  predicate Holds(file: Option<Sha>, shas: set<Sha>) {
    file.Some? && file.value in shas
  }

  predicate Known(w: World, file: Option<Sha>) {
    file.Some? ==> file.value in w.past.signed + {w.past.original}
  }

  /** The files a marker can stand beside. */
  predicate MarkerFits(w: World, p: Probation) {
    var f := w.files;
    && Named(p.sha256).Some?
    && var candidate := Named(p.sha256).value;
    && p.previousSha256 in w.past.trusted
    && (Canonical(p.sha256) ==> candidate != p.previousSha256)
    && (f.previous.Some? ==> f.previous.value == p.previousSha256)
    && (f.rejected.Some? ==> Same(p.sha256, f.rejected.value))
    && (Canonical(p.sha256) && (f.binary == Some(candidate) || f.rejected.Some?) ==> w.past.gates <= p.attempts)
    && match f.binary
       case None => f.previous.Some?
       case Some(running) =>
         || (running == p.previousSha256 && (candidate != p.previousSha256 ==> f.previous.None?))
         || (&& running == candidate && candidate != p.previousSha256
             && (f.previous.None? ==> candidate in w.past.trusted)
             && f.rejected.None?)
  }

  /** The files a journal with no marker can stand beside. */
  predicate RecordsFit(w: World, j: Journal) {
    var f := w.files;
    && (w.platform.Windows? && !w.past.forgotten ==>
          && (f.rejected.Some? ==> Recorded(j.leftovers, Rejected, f.rejected.value))
          && (f.previous.Some? && !w.past.stranded ==> Recorded(j.leftovers, Previous, f.previous.value)))
    && (f.previous.Some? && Recorded(j.leftovers, Previous, f.previous.value) ==> Holds(f.binary, w.past.trusted))
  }

  predicate JournalFits(w: World, j: Journal) {
    && Unique(j.leftovers)
    && (j.probation.Some? ==> MarkerFits(w, j.probation.value) && forall l :: l in j.leftovers ==> l.file != Previous)
    && (j.probation.None? ==> RecordsFit(w, j))
  }

  /** The candidate the process can read about is in place, or was put aside. */
  predicate InTrial(w: World) {
    && w.journal.probation.Some?
    && var text := w.journal.probation.value.sha256;
    || (w.files.binary.Some? && Same(text, w.files.binary.value))
    || (w.files.rejected.Some? && Same(text, w.files.rejected.value))
  }

  predicate SameMarker(j: Journal, k: Journal) {
    && j.probation.Some? && k.probation.Some?
    && j.probation.value.sha256 == k.probation.value.sha256
    && j.probation.value.previousSha256 == k.probation.value.previousSha256
  }

  /** This process's own marker, on disk for good, over files that have not reached their end yet. */
  predicate Swapping(w: World, me: Sha) {
    && w.may == {w.journal} && w.journal.probation.Some? && w.files.rejected.None?
    && w.journal.probation.value.previousSha256 == me
  }

  predicate Staged(w: World, me: Sha) {
    && Swapping(w, me)
    && w.journal.probation.value.attempts == 0
    && w.files.staged.Some? && w.files.staged.value in w.past.signed
    && w.files.staged == Named(w.journal.probation.value.sha256) && New !in w.files.loose
  }

  predicate PhaseFits(w: World, me: Sha, phase: Phase) {
    var f, j := w.files, w.journal;
    match phase
    case Booted => f.binary == Some(me)
    case Counted =>
      f.binary == Some(me) && OnTrial(w) && w.may == {j} && w.past.gates < j.probation.value.attempts
    case Probing => f.binary == Some(me) && OnTrial(w)
    case Passed => f.binary == Some(me) && OnTrial(w) && me in w.past.trusted
    case Condemned => f.binary == Some(me) && OnTrial(w)
    case Parked =>
      w.platform.Windows? && OnTrial(w) && f.binary.None? && f.rejected == Some(me)
    case Restored(parked) =>
      && j.probation.Some? && f.binary == Some(j.probation.value.previousSha256) && f.previous.None?
      && (parked ==> OnTrial(w) && f.rejected == Some(me))
      && (!parked ==> f.rejected.None?)
    case Ready => f.binary == Some(me) || (f.binary.None? && f.previous.Some?)
    case Fetching(text, sha) =>
      && f.binary == Some(me) && f.previous.None? && f.rejected.None?
      && j.probation.None? && j.rejected.None?
      && Named(text) == Some(sha) && !Same(text, me) && sha in w.past.signed
    case Marked => Staged(w, me) && f.binary == Some(me) && f.previous.None?
    case Aside => Staged(w, me) && f.binary.None? && f.previous == Some(me)
    case Undone =>
      && Swapping(w, me)
      && ((f.binary == Some(me) && f.previous.None?) || (f.binary.None? && f.previous == Some(me)))
    case Leaving => true
  }

  predicate Inv(w: World) {
    && w.journal in w.may
    && (Holds(w.files.binary, w.past.trusted) || Holds(w.files.previous, w.past.trusted))
    && Known(w, w.files.binary) && Known(w, w.files.previous) && Known(w, w.files.rejected)
    && (w.platform.Unix? ==> w.files.rejected.None?)
    && w.past.gates < PROBATION_ATTEMPTS && w.files.loose <= {New}
    && (forall j :: j in w.may ==> JournalFits(w, j))
    && (InTrial(w) ==> forall j :: j in w.may ==> SameMarker(w.journal, j))
    && (w.mind.Up? ==> PhaseFits(w, w.mind.me, w.mind.phase))
  }

  // ------------------------------------------------- what each act keeps

  /** Everything a journal is held against, but not the journal. */
  predicate Alike(w: World, v: World) {
    && w.platform == v.platform && w.past.trusted == v.past.trusted
    && w.past.gates == v.past.gates
    && w.past.stranded == v.past.stranded && w.past.forgotten == v.past.forgotten
    && w.files.binary == v.files.binary && w.files.previous == v.files.previous
    && w.files.rejected == v.files.rejected
  }

  lemma AlikeFits(w: World, v: World)
    requires Alike(w, v)
    ensures forall j :: JournalFits(w, j) <==> JournalFits(v, j)
  {}

  lemma BootKeeps(w: World)
    requires Inv(w) && May(w, Boot)
    ensures Inv(Do(w, Boot))
  {
    AlikeFits(w, Do(w, Boot));
  }

  lemma PowerCutKeeps(w: World, journal: Journal, left: Files)
    requires Inv(w) && May(w, PowerCut(journal, left, true))
    ensures Inv(Do(w, PowerCut(journal, left, true)))
  {
    AlikeFits(w, Do(w, PowerCut(journal, left, true)));
  }

  /** The journal's directory goes with the power: what is left is a journal that records nothing. */
  lemma ForgettingKeeps(w: World, journal: Journal, left: Files)
    requires Inv(w) && May(w, PowerCut(journal, left, false))
    ensures Inv(Do(w, PowerCut(journal, left, false)))
  {}

  lemma DieKeeps(w: World)
    requires Inv(w) && May(w, Die)
    ensures Inv(Do(w, Die))
  {
    AlikeFits(w, Do(w, Die));
  }

  lemma CarryKeeps(w: World)
    requires Inv(w) && May(w, Carry)
    ensures Inv(Do(w, Carry))
  {
    AlikeFits(w, Do(w, Carry));
  }

  lemma VerifyKeeps(w: World, text: string, sha: Sha)
    requires Inv(w) && May(w, Verify(text, sha))
    ensures Inv(Do(w, Verify(text, sha)))
  {
    AlikeFits(w, Do(w, Verify(text, sha)));
  }

  lemma FetchKeeps(w: World, act: Act)
    requires Inv(w) && May(w, act) && (act.Stage? || act.Flush? || act.Unstage?)
    ensures Inv(Do(w, act))
  {
    AlikeFits(w, Do(w, act));
  }

  lemma SwapFailedKeeps(w: World)
    requires Inv(w) && May(w, SwapFailed)
    ensures Inv(Do(w, SwapFailed))
  {
    AlikeFits(w, Do(w, SwapFailed));
  }

  lemma CondemnKeeps(w: World, now: int)
    requires Inv(w) && May(w, Condemn(now))
    ensures Inv(Do(w, Condemn(now)))
  {
    AlikeFits(w, Do(w, Condemn(now)));
  }

  lemma ProbeKeeps(w: World, now: int)
    requires Inv(w) && May(w, Probe(now))
    ensures Inv(Do(w, Probe(now)))
  {
    assert w.may == {w.journal} && JournalFits(w, w.journal);
  }

  lemma GateKeeps(w: World, verdict: Verdict)
    requires Inv(w) && May(w, Gate(verdict))
    ensures Inv(Do(w, Gate(verdict)))
  {}

  lemma MoveAsideKeeps(w: World)
    requires Inv(w) && May(w, MoveAside)
    ensures Inv(Do(w, MoveAside))
  {
    assert w.may == {w.journal} && JournalFits(w, w.journal);
  }

  lemma MoveIntoKeeps(w: World)
    requires Inv(w) && May(w, MoveInto)
    ensures Inv(Do(w, MoveInto))
  {
    assert w.may == {w.journal} && JournalFits(w, w.journal);
  }

  lemma PutBackKeeps(w: World)
    requires Inv(w) && May(w, PutBack)
    ensures Inv(Do(w, PutBack))
  {
    assert w.may == {w.journal} && JournalFits(w, w.journal);
  }

  /** Every marker a power cut may leave is the one under trial, so all of them fit after a restore. */
  lemma TrialFits(w: World, j: Journal)
    requires Inv(w) && InTrial(w) && j in w.may
    ensures j.probation.Some? && MarkerFits(w, j.probation.value)
    ensures j.probation.value.previousSha256 == w.journal.probation.value.previousSha256
    ensures Named(j.probation.value.sha256) == Named(w.journal.probation.value.sha256)
    ensures forall l :: l in j.leftovers ==> l.file != Previous
  {}

  lemma RestoreKeeps(w: World, act: Act)
    requires Inv(w) && May(w, act) && (act.Replace? || act.Reinstate?)
    ensures Inv(Do(w, act))
  {
    var v := Do(w, act);
    MatchIsCanonical(w.journal.probation.value.sha256, w.mind.me);
    forall j | j in w.may ensures JournalFits(v, j) && SameMarker(w.journal, j) {
      TrialFits(w, j);
      assert JournalFits(w, j);
    }
    TrialFits(w, w.journal);
  }

  lemma ParkFits(w: World, j: Journal)
    requires Inv(w) && May(w, Park) && j in w.may
    ensures JournalFits(Do(w, Park), j)
  {
    MatchIsCanonical(w.journal.probation.value.sha256, w.mind.me);
    TrialFits(w, j);
    TrialFits(w, w.journal);
    assert JournalFits(w, j);
  }

  lemma ParkKeeps(w: World)
    requires Inv(w) && May(w, Park)
    ensures Inv(Do(w, Park))
  {
    MatchIsCanonical(w.journal.probation.value.sha256, w.mind.me);
    forall j | j in w.may ensures JournalFits(Do(w, Park), j) {
      ParkFits(w, j);
    }
  }

  lemma UnparkFits(w: World, j: Journal)
    requires Inv(w) && May(w, Unpark) && j in w.may
    ensures JournalFits(Do(w, Unpark), j)
  {
    MatchIsCanonical(w.journal.probation.value.sha256, w.mind.me);
    TrialFits(w, j);
    TrialFits(w, w.journal);
    assert JournalFits(w, j);
  }

  lemma UnparkKeeps(w: World)
    requires Inv(w) && May(w, Unpark)
    ensures Inv(Do(w, Unpark))
  {
    MatchIsCanonical(w.journal.probation.value.sha256, w.mind.me);
    forall j | j in w.may ensures JournalFits(Do(w, Unpark), j) {
      UnparkFits(w, j);
    }
  }

  lemma DeletePreviousKeeps(w: World)
    requires Inv(w) && May(w, Delete(Previous))
    ensures Inv(Do(w, Delete(Previous)))
  {
    var v := Do(w, Delete(Previous));
    forall j | j in v.may ensures JournalFits(v, j) {
      assert JournalFits(w, j) && JournalFits(w, w.journal);
    }
  }

  lemma DeleteRejectedKeeps(w: World)
    requires Inv(w) && May(w, Delete(Rejected))
    ensures Inv(Do(w, Delete(Rejected)))
  {
    var v := Do(w, Delete(Rejected));
    forall j | j in v.may ensures JournalFits(v, j) {
      assert JournalFits(w, j) && JournalFits(w, w.journal);
    }
  }

  lemma WithoutIsUnique(leftovers: seq<Leftover>, file: Spare)
    requires Unique(leftovers)
    ensures Unique(Without(leftovers, file))
  {}

  lemma LeaveKeepsOne(leftovers: seq<Leftover>, file: Spare, sha256: string)
    requires Unique(leftovers)
    ensures Unique(Leave(leftovers, file, sha256))
    ensures forall l :: l in Leave(leftovers, file, sha256) <==>
                          l == Leftover(file, sha256) || (l in leftovers && l.file != file)
  {
    WithoutIsUnique(leftovers, file);
    var without := Without(leftovers, file);
    forall i | 0 <= i < |without| ensures without[i].file != file {
      assert without[i] in without;
    }
  }

  /** A write moves no file, and at worst gives up on one. */
  lemma WritingMovesNothing(w: World, change: Change, synced: bool)
    requires w.mind.Up?
    ensures var v := Do(w, Write(change, synced));
            && v.files == w.files && v.platform == w.platform && v.mind == Up(w.mind.me, v.mind.phase)
            && v.past == w.past.(stranded := v.past.stranded) && (w.past.stranded ==> v.past.stranded)
            && v.may == Durable.Keeping(w.may, v.journal, synced)
  {}

  lemma GivingUpFits(w: World, v: World, j: Journal)
    requires JournalFits(w, j) && v.files == w.files && v.platform == w.platform
    requires v.past == w.past.(stranded := v.past.stranded) && (w.past.stranded ==> v.past.stranded)
    ensures JournalFits(v, j)
  {}

  /** A journal write keeps the invariant once what it writes fits the files. */
  lemma WriteKeepsIf(w: World, change: Change, synced: bool)
    requires Inv(w) && w.mind.Up? && MayWrite(w, change)
    requires var v := Do(w, Write(change, synced));
             && JournalFits(v, v.journal)
             && (InTrial(v) ==> SameMarker(v.journal, w.journal) || synced)
             && PhaseFits(v, w.mind.me, v.mind.phase)
    ensures Inv(Do(w, Write(change, synced)))
  {
    var v := Do(w, Write(change, synced));
    WritingMovesNothing(w, change, synced);
    forall j | j in v.may ensures JournalFits(v, j) {
      if j != v.journal {
        GivingUpFits(w, v, j);
      }
    }
  }

  lemma NoteKeeps(w: World, change: Change, synced: bool)
    requires Inv(w) && May(w, Write(change, synced)) && (change.ClearRejected? || change.Answer?)
    ensures Inv(Do(w, Write(change, synced)))
  {
    assert JournalFits(w, w.journal);
    WriteKeepsIf(w, change, synced);
  }

  lemma UnmarkKeeps(w: World, synced: bool)
    requires Inv(w) && May(w, Write(Unmark, synced))
    ensures Inv(Do(w, Write(Unmark, synced)))
  {
    assert JournalFits(w, w.journal);
    WriteKeepsIf(w, Unmark, synced);
  }

  lemma RefuseKeeps(w: World, synced: bool)
    requires Inv(w) && May(w, Write(Refuse, synced))
    ensures Inv(Do(w, Write(Refuse, synced)))
  {
    MatchIsCanonical(w.journal.probation.value.sha256, w.mind.me);
    assert JournalFits(w, w.journal);
    WriteKeepsIf(w, Refuse, synced);
  }

  lemma MarkKeeps(w: World, marker: Probation, synced: bool)
    requires Inv(w) && May(w, Write(Mark(marker), synced))
    ensures Inv(Do(w, Write(Mark(marker), synced)))
  {
    WithoutIsUnique(w.journal.leftovers, Previous);
    MatchIsCanonical(marker.sha256, w.mind.me);
    WriteKeepsIf(w, Mark(marker), synced);
  }

  lemma CountKeeps(w: World, synced: bool)
    requires Inv(w) && May(w, Write(CountAttempt, synced))
    ensures Inv(Do(w, Write(CountAttempt, synced)))
  {
    MatchIsCanonical(w.journal.probation.value.sha256, w.mind.me);
    WriteKeepsIf(w, CountAttempt, synced);
  }

  lemma KeepKeeps(w: World, left: bool, synced: bool)
    requires Inv(w) && May(w, Write(Keep(left), synced))
    ensures Inv(Do(w, Write(Keep(left), synced)))
  {
    var p := w.journal.probation.value;
    MatchIsCanonical(p.sha256, w.mind.me);
    LeaveKeepsOne(w.journal.leftovers, Previous, p.previousSha256);
    assert JournalFits(w, w.journal);
    assert Leftover(Previous, p.previousSha256) in Leave(w.journal.leftovers, Previous, p.previousSha256);
    WriteKeepsIf(w, Keep(left), synced);
  }

  lemma RollBackFits(w: World, synced: bool)
    requires Inv(w) && May(w, Write(RollBack, synced))
    ensures var v := Do(w, Write(RollBack, synced)); JournalFits(v, v.journal)
  {
    var p := w.journal.probation.value;
    LeaveKeepsOne(w.journal.leftovers, Rejected, p.sha256);
    assert JournalFits(w, w.journal);
    assert Leftover(Rejected, p.sha256) in Leave(w.journal.leftovers, Rejected, p.sha256);
  }

  lemma RollBackKeeps(w: World, synced: bool)
    requires Inv(w) && May(w, Write(RollBack, synced))
    ensures Inv(Do(w, Write(RollBack, synced)))
  {
    RollBackFits(w, synced);
    WriteKeepsIf(w, RollBack, synced);
  }

  /** The records an abandoned update leaves fit its files. */
  lemma AbandonFits(w: World, leftPrevious: bool, leftRejected: bool, synced: bool)
    requires Inv(w) && May(w, Write(Abandon(leftPrevious, leftRejected), synced))
    ensures var v := Do(w, Write(Abandon(leftPrevious, leftRejected), synced)); JournalFits(v, v.journal)
  {
    var p, ls, me := w.journal.probation.value, w.journal.leftovers, w.mind.me;
    assert JournalFits(w, w.journal);
    LeaveKeepsOne(ls, Previous, me);
    LeaveKeepsOne(ls, Rejected, p.sha256);
    LeaveKeepsOne(Leave(ls, Previous, me), Rejected, p.sha256);
  }

  lemma AbandonKeeps(w: World, leftPrevious: bool, leftRejected: bool, synced: bool)
    requires Inv(w) && May(w, Write(Abandon(leftPrevious, leftRejected), synced))
    ensures Inv(Do(w, Write(Abandon(leftPrevious, leftRejected), synced)))
  {
    AbandonFits(w, leftPrevious, leftRejected, synced);
    WriteKeepsIf(w, Abandon(leftPrevious, leftRejected), synced);
  }

  lemma TidyKeeps(w: World, kept: seq<Leftover>, synced: bool)
    requires Inv(w) && May(w, Write(Tidy(kept), synced))
    ensures Inv(Do(w, Write(Tidy(kept), synced)))
  {
    assert JournalFits(w, w.journal);
    WriteKeepsIf(w, Tidy(kept), synced);
  }

  // ------------------------------------------------------- the invariant

  lemma WriteKeeps(w: World, change: Change, synced: bool)
    requires Inv(w) && May(w, Write(change, synced))
    ensures Inv(Do(w, Write(change, synced)))
  {
    match change
    case ClearRejected(_) => NoteKeeps(w, change, synced);
    case Mark(marker) => MarkKeeps(w, marker, synced);
    case Unmark => UnmarkKeeps(w, synced);
    case CountAttempt => CountKeeps(w, synced);
    case Keep(left) => KeepKeeps(w, left, synced);
    case Refuse => RefuseKeeps(w, synced);
    case RollBack => RollBackKeeps(w, synced);
    case Abandon(leftPrevious, leftRejected) => AbandonKeeps(w, leftPrevious, leftRejected, synced);
    case Tidy(kept) => TidyKeeps(w, kept, synced);
    case Answer(_) => NoteKeeps(w, change, synced);
  }

  predicate Moves(act: Act) {
    || act.MoveAside? || act.MoveInto? || act.PutBack? || act.Replace? || act.Park? || act.Reinstate?
    || act.Unpark? || act.Delete?
  }

  lemma MovingKeeps(w: World, act: Act)
    requires Inv(w) && May(w, act) && Moves(act)
    ensures Inv(Do(w, act))
  {
    match act
    case MoveAside => MoveAsideKeeps(w);
    case MoveInto => MoveIntoKeeps(w);
    case PutBack => PutBackKeeps(w);
    case Replace => RestoreKeeps(w, act);
    case Park => ParkKeeps(w);
    case Reinstate => RestoreKeeps(w, act);
    case Unpark => UnparkKeeps(w);
    case Delete(Previous) => DeletePreviousKeeps(w);
    case Delete(Rejected) => DeleteRejectedKeeps(w);
  }

  lemma EndingKeeps(w: World, act: Act)
    requires Inv(w) && May(w, act) && (act.Boot? || act.Die? || act.PowerCut? || act.Carry?)
    ensures Inv(Do(w, act))
  {
    match act
    case Boot => BootKeeps(w);
    case Die => DieKeeps(w);
    case PowerCut(journal, left, kept) =>
      if kept {
        PowerCutKeeps(w, journal, left);
      } else {
        ForgettingKeeps(w, journal, left);
      }
    case Carry => CarryKeeps(w);
  }

  lemma JudgingKeeps(w: World, act: Act)
    requires Inv(w) && May(w, act) && (act.SwapFailed? || act.Probe? || act.Gate? || act.Condemn?)
    ensures Inv(Do(w, act))
  {
    match act
    case SwapFailed => SwapFailedKeeps(w);
    case Probe(now) => ProbeKeeps(w, now);
    case Gate(verdict) => GateKeeps(w, verdict);
    case Condemn(now) => CondemnKeeps(w, now);
  }

  lemma StepKeeps(w: World, act: Act)
    requires Inv(w) && May(w, act)
    ensures Inv(Do(w, act))
  {
    if Moves(act) {
      MovingKeeps(w, act);
    } else if act.Write? {
      WriteKeeps(w, act.change, act.synced);
    } else if act.Verify? {
      VerifyKeeps(w, act.text, act.sha);
    } else if act.Stage? || act.Flush? || act.Unstage? {
      FetchKeeps(w, act);
    } else if act.SwapFailed? || act.Probe? || act.Gate? || act.Condemn? {
      JudgingKeeps(w, act);
    } else {
      EndingKeeps(w, act);
    }
  }

  /** Every world a lawful run reaches keeps the invariant. */
  lemma {:induction false} RunKeeps(w: World, acts: seq<Act>)
    requires Inv(w) && Lawful(w, acts)
    ensures Inv(Run(w, acts))
  {
    if acts == [] {
    } else {
      var front := acts[..|acts| - 1];
      RunKeeps(w, front);
      StepKeeps(Run(w, front), acts[|acts| - 1]);
    }
  }
}
