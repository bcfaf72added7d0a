/**
 The promises the update machine makes, over every run from the factory: any
 announcements, any failures, power cuts anywhere, boots without bound.
 */
module OtaTheorems {
  import opened Codec
  import opened Options
  import opened Ota
  import opened OtaSafety

  // ------------------------------------------------ a good image survives

  /** The images a run has shown to be good: the first one, and each that finished a gate. */
  function Earned(w: World, acts: seq<Act>): set<Sha> {
    if acts == [] then {w.past.original}
    else
      var front, last := acts[..|acts| - 1], acts[|acts| - 1];
      var before := Run(w, front);
      Earned(w, front)
      + if last.Gate? && last.verdict == Healthy && before.mind.Up? then {before.mind.me} else {}
  }

  /** What one act adds to the record of what has happened. */
  lemma StepHistory(w: World, act: Act)
    ensures Do(w, act).past.original == w.past.original && Do(w, act).platform == w.platform
    ensures Do(w, act).past.trusted ==
            w.past.trusted + if act.Gate? && act.verdict == Healthy && w.mind.Up? then {w.mind.me} else {}
    ensures Do(w, act).past.signed == w.past.signed + if act.Verify? then {act.sha} else {}
    ensures Do(w, act).past.gates == if act.MoveInto? then 0 else w.past.gates + if act.Probe? then 1 else 0
  {}

  lemma {:induction false} TrustIsEarned(w: World, acts: seq<Act>)
    requires Factory(w)
    ensures Run(w, acts).past.trusted == Earned(w, acts)
  {
    if acts == [] {
    } else {
      TrustIsEarned(w, acts[..|acts| - 1]);
      StepHistory(Run(w, acts[..|acts| - 1]), acts[|acts| - 1]);
    }
  }

  /** The binary's path or `.old` holds an image shown to be good. */
  ghost predicate GoodImage(w: World, acts: seq<Act>) {
    Holds(Run(w, acts).files.binary, Earned(w, acts)) || Holds(Run(w, acts).files.previous, Earned(w, acts))
  }

  /** Every point of every run has a good image to boot or to put back. */
  lemma GoodImageSurvives(w: World, acts: seq<Act>)
    requires Factory(w) && Lawful(w, acts)
    ensures GoodImage(w, acts)
  {
    RunKeeps(w, acts);
    TrustIsEarned(w, acts);
  }

  // ----------------------------------------------- only signed bytes boot

  /** A signature over `sha` was checked in this run. */
  ghost predicate Checks(acts: seq<Act>, sha: Sha) {
    exists k, text :: 0 <= k < |acts| && acts[k] == Verify(text, sha)
  }

  lemma {:induction false} SignedWasChecked(w: World, acts: seq<Act>, sha: Sha)
    requires Factory(w) && sha in Run(w, acts).past.signed
    ensures Checks(acts, sha)
  {
    var front, last := acts[..|acts| - 1], acts[|acts| - 1];
    if last.Verify? && last.sha == sha {
      assert acts[|acts| - 1] == Verify(last.text, sha);
    } else {
      StepHistory(Run(w, front), last);
      SignedWasChecked(w, front, sha);
      var k, text :| 0 <= k < |front| && front[k] == Verify(text, sha);
      assert acts[k] == Verify(text, sha);
    }
  }

  /**
   What sits at the binary's path, or beside it to be put back, is the original
   or an image whose digest had its signature checked.
   */
  lemma OnlySignedImages(w: World, acts: seq<Act>, sha: Sha)
    requires Factory(w) && Lawful(w, acts)
    requires var files := Run(w, acts).files;
             Some(sha) in {files.binary, files.previous, files.rejected}
    ensures sha == w.past.original || Checks(acts, sha)
  {
    RunKeeps(w, acts);
    OriginalStays(w, acts);
    if sha != w.past.original {
      SignedWasChecked(w, acts, sha);
    }
  }

  lemma {:induction false} OriginalStays(w: World, acts: seq<Act>)
    ensures Run(w, acts).past.original == w.past.original && Run(w, acts).platform == w.platform
  {
    if acts == [] {
    } else {
      OriginalStays(w, acts[..|acts| - 1]);
      StepHistory(Run(w, acts[..|acts| - 1]), acts[|acts| - 1]);
    }
  }

  /**
   Bytes are staged only after the signature over the announced digest was
   checked, and they move into place only once they have that digest and are
   flushed. What an interrupted download left is never what moves.
   */
  lemma StagedIsWhatWasSigned(w: World, act: Act)
    requires Inv(w) && May(w, act)
    ensures act.Stage? ==> w.mind.phase.Fetching? && w.mind.phase.sha in w.past.signed
    ensures act.MoveInto? ==>
              && w.journal.probation.Some? && w.files.staged.Some?
              && w.files.staged == Named(w.journal.probation.value.sha256)
              && w.files.staged.value in w.past.signed && New !in w.files.loose
  {}

  /** So no power cut tears an image: what was at the path, or beside it to be put back, still is. */
  lemma NoCutTearsAnImage(w: World, acts: seq<Act>, cut: Act)
    requires Factory(w) && Lawful(w, acts) && May(Run(w, acts), cut) && cut.PowerCut?
    ensures var before, after := Run(w, acts).files, Run(w, acts + [cut]).files;
            && after.binary == before.binary && after.previous == before.previous && after.rejected == before.rejected
  {
    RunKeeps(w, acts);
    Extend(w, acts, cut);
  }

  // ------------------------------------------------------ nothing is lost

  /**
   No rename replaces a file, but for the one that puts the last good binary
   over the candidate on trial; and every rename finds what it moves.
   */
  lemma NoRenameClobbers(w: World, act: Act)
    requires Inv(w) && May(w, act)
    ensures act.MoveAside? ==> w.files.binary.Some? && w.files.previous.None?
    ensures act.MoveInto? ==> w.files.staged.Some? && w.files.binary.None?
    ensures act.PutBack? ==> w.files.previous.Some? && w.files.binary.None?
    ensures act.Park? ==> w.files.binary.Some? && w.files.rejected.None?
    ensures act.Reinstate? ==> w.files.previous.Some? && w.files.binary.None?
    ensures act.Unpark? ==> w.files.rejected.Some? && w.files.binary.None?
    ensures act.Replace? ==> OnTrial(w) && w.files.binary == Some(w.mind.me) && w.files.previous.Some?
    ensures act.Replace? || act.Park? ==>
              w.files.previous == Some(w.journal.probation.value.previousSha256)
  {
    if act.Replace? || act.Park? || act.Reinstate? || act.Unpark? {
      assert JournalFits(w, w.journal);
      MatchIsCanonical(w.journal.probation.value.sha256, w.mind.me);
    }
  }

  // ------------------------------------------------- what boots can tell

  /**
   Whatever a power cut leaves, the marker and the binary that boots agree
   enough to act on, exactly unless the announced digest was not written as 64
   hexadecimal digits and the candidate it named is what boots.
   */
  lemma BootIsUnderstood(w: World)
    requires Inv(w) && May(w, Boot)
    ensures StandingOf(w.journal, w.files.binary.value).Unrecoverable? <==>
            && w.journal.probation.Some?
            && !Canonical(w.journal.probation.value.sha256)
            && w.files.binary.value != w.journal.probation.value.previousSha256
  {
    assert JournalFits(w, w.journal);
    if w.journal.probation.Some? {
      var p := w.journal.probation.value;
      MatchIsCanonical(p.sha256, w.files.binary.value);
    }
  }

  ghost predicate OnlyCanonical(acts: seq<Act>) {
    forall k :: 0 <= k < |acts| && acts[k].Write? && acts[k].change.Mark? ==>
      Canonical(acts[k].change.marker.sha256)
  }

  ghost predicate CanonicalMarkers(w: World) {
    forall j :: j in w.may && j.probation.Some? ==> Canonical(j.probation.value.sha256)
  }

  lemma StepStaysCanonical(w: World, act: Act)
    requires w.journal in w.may && CanonicalMarkers(w)
    requires act.Write? && act.change.Mark? ==> Canonical(act.change.marker.sha256)
    requires act.PowerCut? ==> act.journal in w.may || act.journal == EMPTY_JOURNAL
    ensures CanonicalMarkers(Do(w, act))
  {}

  lemma {:induction false} MarkersStayCanonical(w: World, acts: seq<Act>)
    requires Factory(w) && Lawful(w, acts) && OnlyCanonical(acts)
    ensures CanonicalMarkers(Run(w, acts))
  {
    if acts == [] {
    } else {
      var front, last := acts[..|acts| - 1], acts[|acts| - 1];
      MarkersStayCanonical(w, front);
      RunKeeps(w, front);
      StepStaysCanonical(Run(w, front), last);
    }
  }

  lemma {:induction false} FetchingWasVerified(w: World, acts: seq<Act>) returns (j: nat)
    requires Factory(w) && Lawful(w, acts) && Run(w, acts).mind.Up? && Run(w, acts).mind.phase.Fetching?
    ensures var phase := Run(w, acts).mind.phase; j < |acts| && acts[j] == Verify(phase.text, phase.sha)
  {
    var front, last := acts[..|acts| - 1], acts[|acts| - 1];
    if last.Verify? {
      j := |front|;
    } else {
      StaysFetching(Run(w, front), last);
      j := FetchingWasVerified(w, front);
    }
  }

  lemma StaysFetching(w: World, act: Act)
    requires Do(w, act).mind.Up? && Do(w, act).mind.phase.Fetching? && !act.Verify?
    ensures w.mind == Do(w, act).mind
  {}

  /** A marker carries a text whose signature was checked earlier in the run. */
  lemma MarkedWasVerified(w: World, acts: seq<Act>, k: nat) returns (j: nat, sha: Sha)
    requires Factory(w) && Lawful(w, acts) && k < |acts| && acts[k].Write? && acts[k].change.Mark?
    ensures j < k && acts[j] == Verify(acts[k].change.marker.sha256, sha)
  {
    Prefix(w, acts, k + 1);
    var front := acts[..k + 1][..k];
    assert acts[..k + 1][k] == acts[k];
    j := FetchingWasVerified(w, front);
    sha := Run(w, front).mind.phase.sha;
  }

  /** With digests announced as 64 hexadecimal digits, no boot is ever beyond understanding. */
  lemma NoBootIsUnrecoverable(w: World, acts: seq<Act>)
    requires Factory(w) && Lawful(w, acts) && OnlyCanonical(acts) && May(Run(w, acts), Boot)
    ensures !StandingOf(Run(w, acts).journal, Run(w, acts).files.binary.value).Unrecoverable?
  {
    RunKeeps(w, acts);
    MarkersStayCanonical(w, acts);
    BootIsUnderstood(Run(w, acts));
  }

  // ------------------------------------------------- a swap that failed

  /**
   A swap that did not happen takes its marker down as if it had put itself
   back. It has, exactly unless both its second rename and the rename that
   undoes the first one failed: then nothing is at the path.
   */
  lemma UnmarkingAssumesPutBack(w: World, synced: bool)
    requires Inv(w) && May(w, Write(Unmark, synced))
    ensures var v := Do(w, Write(Unmark, synced));
            && v.journal.probation.None?
            && (v.files.binary.Some? <==> w.files.previous.None?)
            && (v.files.binary.None? ==> v.files.previous == Some(w.mind.me))
  {}

  // ---------------------------------------------------- chances run out

  /** Times the gate began, whether or not it came to answer. */
  function GateRuns(acts: seq<Act>): nat {
    if acts == [] then 0
    else GateRuns(acts[..|acts| - 1]) + if acts[|acts| - 1].Probe? then 1 else 0
  }

  lemma {:induction false} GatesAddUp(w: World, acts: seq<Act>)
    requires Lawful(w, acts) && forall k :: 0 <= k < |acts| ==> !acts[k].MoveInto?
    ensures Run(w, acts).past.gates == w.past.gates + GateRuns(acts)
  {
    if acts == [] {
    } else {
      GatesAddUp(w, acts[..|acts| - 1]);
      StepHistory(Run(w, acts[..|acts| - 1]), acts[|acts| - 1]);
    }
  }

  /**
   Between two completed swaps the gate begins at most twice, over any number
   of boots, and crashes and power cuts while its probes run.
   */
  lemma GateRunsAtMostTwice(w: World, acts: seq<Act>)
    requires Inv(w) && Lawful(w, acts) && forall k :: 0 <= k < |acts| ==> !acts[k].MoveInto?
    ensures GateRuns(acts) <= PROBATION_ATTEMPTS - 1
  {
    RunKeeps(w, acts);
    GatesAddUp(w, acts);
  }

  // ------------------------------------------------- nothing is forgotten

  function Records(leftovers: seq<Leftover>, file: Spare): nat {
    if leftovers == [] then 0
    else (if leftovers[0].file == file then 1 else 0) + Records(leftovers[1..], file)
  }

  lemma {:induction false} UniqueRecord(leftovers: seq<Leftover>, l: Leftover)
    requires Unique(leftovers)
    ensures Records(leftovers, l.file) <= 1
    ensures l in leftovers ==> Records(leftovers, l.file) == 1
  {
    if leftovers == [] {
    } else {
      var rest := leftovers[1..];
      forall i, j | 0 <= i < j < |rest| ensures rest[i].file != rest[j].file {
        assert leftovers[i + 1].file != leftovers[j + 1].file;
      }
      UniqueRecord(rest, l);
      if leftovers[0].file == l.file {
        forall i | 0 <= i < |rest| ensures rest[i].file != l.file {
          assert leftovers[0].file != leftovers[i + 1].file;
        }
        NoRecord(rest, l.file);
      }
    }
  }

  lemma {:induction false} NoRecord(leftovers: seq<Leftover>, file: Spare)
    requires forall i :: 0 <= i < |leftovers| ==> leftovers[i].file != file
    ensures Records(leftovers, file) == 0
  {
    if leftovers == [] {
    } else {
      NoRecord(leftovers[1..], file);
    }
  }

  /** Exactly one record names `file`, and it is the digest `file` holds. */
  ghost predicate Accounted(w: World, j: Journal, file: Spare) {
    At(w.files, file).Some? ==>
      && Records(j.leftovers, file) == 1
      && Recorded(j.leftovers, file, At(w.files, file).value)
  }

  lemma StepForgets(w: World, act: Act)
    ensures Do(w, act).past.forgotten <==> w.past.forgotten || Forgets(act)
    ensures w.settled && May(w, act) ==> Do(w, act).settled && !Forgets(act)
  {}

  lemma {:induction false} ForgottenIsCounted(w: World, acts: seq<Act>)
    ensures Run(w, acts).past.forgotten <==> w.past.forgotten || Forgettings(acts) > 0
  {
    if acts == [] {
    } else {
      ForgottenIsCounted(w, acts[..|acts| - 1]);
      StepForgets(Run(w, acts[..|acts| - 1]), acts[|acts| - 1]);
    }
  }

  /** Where the journal's directory was there for good to begin with, nothing is ever forgotten. */
  lemma {:induction false} SettledForgetsNothing(w: World, acts: seq<Act>)
    requires w.settled && Lawful(w, acts)
    ensures Run(w, acts).settled && Forgettings(acts) == 0
  {
    if acts == [] {
    } else {
      SettledForgetsNothing(w, acts[..|acts| - 1]);
      StepForgets(Run(w, acts[..|acts| - 1]), acts[|acts| - 1]);
    }
  }

  /**
   On Windows, once no marker stands in a journal the disk may hold, a parked
   candidate has its one record there; and so has `.old`, unless it was given
   up on: a rollback refused it, a swap failed twice, or an abandoned update's
   could not be read. A power cut that takes the journal's directory takes the
   records with it.
   */
  lemma LeftoversAreRecorded(w: World, acts: seq<Act>, j: Journal)
    requires Factory(w) && Lawful(w, acts) && w.platform.Windows?
    requires j in Run(w, acts).may && j.probation.None?
    ensures Accounted(Run(w, acts), j, Rejected) || Forgettings(acts) > 0
    ensures Accounted(Run(w, acts), j, Previous) || GaveUp(w, acts) || Forgettings(acts) > 0
  {
    ForgottenIsCounted(w, acts);
    var v := Run(w, acts);
    RunKeeps(w, acts);
    OriginalStays(w, acts);
    assert JournalFits(v, j);
    forall l | l in j.leftovers ensures Records(j.leftovers, l.file) == 1 {
      UniqueRecord(j.leftovers, l);
    }
    if v.past.stranded {
      StrandedGaveUp(w, acts);
    }
  }

  /** Somewhere in the run `.old` was left behind by a write that clears the marker. */
  ghost predicate GaveUp(w: World, acts: seq<Act>) {
    exists k :: 0 <= k < |acts| && GivesUp(Run(w, acts[..k]), acts[k])
  }

  ghost predicate GivesUp(w: World, act: Act) {
    && act.Write? && w.files.previous.Some?
    && match act.change
       case Refuse => true
       case Unmark => w.files.binary.None?
       case Abandon(leftPrevious, _) =>
         && !leftPrevious && w.journal.probation.Some?
         && !Canonical(w.journal.probation.value.sha256)
       case _ => false
  }

  lemma {:induction false} StrandedGaveUp(w: World, acts: seq<Act>)
    requires Factory(w) && Lawful(w, acts) && Run(w, acts).past.stranded
    ensures GaveUp(w, acts)
  {
    var front, last := acts[..|acts| - 1], acts[|acts| - 1];
    var before := Run(w, front);
    assert acts[..|front|] == front;
    if before.past.stranded {
      StrandedGaveUp(w, front);
      var k :| 0 <= k < |front| && GivesUp(Run(w, front[..k]), front[k]);
      assert acts[..k] == front[..k] && acts[k] == front[k];
    } else {
      RunKeeps(w, front);
      assert JournalFits(before, before.journal);
      StrandingGivesUp(before, last);
    }
  }

  lemma StrandingGivesUp(w: World, act: Act)
    requires Inv(w) && May(w, act) && !w.past.stranded && Do(w, act).past.stranded
    ensures GivesUp(w, act)
  {
    assert act.Write? && Strands(w, act.change);
    assert JournalFits(w, w.journal);
    match act.change
    case Unmark => assert PhaseFits(w, w.mind.me, Undone);
    case Abandon(_, _) => MatchIsCanonical(w.journal.probation.value.sha256, w.mind.me);
    case _ =>
  }
}
