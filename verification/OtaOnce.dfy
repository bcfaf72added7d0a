/**
 The announcement is retained, so a build this device rolled back from is
 announced again on every connect. Here is why it is not installed again.
 */
module OtaOnce {
  import opened Codec
  import opened Options
  import opened Ota
  import opened OtaSafety

  /** Nothing but `x` is announced: every signature checked, and every refusal lifted, is for it. */
  predicate About(act: Act, x: string) {
    && (act.Verify? ==> Same(act.text, x))
    && (act.Write? && act.change.ClearRejected? ==> Same(act.change.announced, x))
  }

  predicate OnlyAbout(acts: seq<Act>, x: string) {
    forall k :: 0 <= k < |acts| ==> About(acts[k], x)
  }

  /** The swap for `x` completes: the second of its two renames. */
  predicate Installs(w: World, act: Act, x: string) {
    act.MoveInto? && w.journal.probation.Some? && Same(w.journal.probation.value.sha256, x)
  }

  function Installations(w: World, acts: seq<Act>, x: string): nat {
    if acts == [] then 0
    else
      var front := acts[..|acts| - 1];
      Installations(w, front, x) + if Installs(Run(w, front), acts[|acts| - 1], x) then 1 else 0
  }

  /** A journal that stands in the way of `x`: on probation, refused, or already running. */
  predicate StandsInTheWay(w: World, j: Journal, x: string) {
    match j.probation
    case Some(p) => Same(p.sha256, x)
    case None =>
      || (j.rejected.Some? && Same(j.rejected.value, x))
      || (w.files.binary.Some? && Same(x, w.files.binary.value))
  }

  predicate Tried(w: World, x: string) {
    && (forall j :: j in w.may ==> StandsInTheWay(w, j, x))
    && (w.mind.Up? ==>
          && !w.mind.phase.Fetching? && !w.mind.phase.Marked?
          && !w.mind.phase.Aside? && !w.mind.phase.Undone?)
  }

  lemma InstallingIsTrying(w: World, act: Act, x: string)
    requires Inv(w) && May(w, act) && Installs(w, act, x)
    ensures Tried(Do(w, act), x)
  {}

  lemma RestoringLeavesItTried(w: World, act: Act, x: string)
    requires Inv(w) && May(w, act) && Tried(w, x)
    requires act.Replace? || act.Park? || act.Reinstate? || act.Unpark?
    ensures Tried(Do(w, act), x)
  {
    assert InTrial(w);
    forall j | j in w.may ensures StandsInTheWay(Do(w, act), j, x) {
      assert SameMarker(w.journal, j) && StandsInTheWay(w, j, x);
    }
  }

  lemma WritingLeavesItTried(w: World, change: Change, synced: bool, x: string)
    requires Inv(w) && May(w, Write(change, synced)) && Tried(w, x) && About(Write(change, synced), x)
    ensures Tried(Do(w, Write(change, synced)), x)
  {
    assert StandsInTheWay(w, w.journal, x);
    var v := Do(w, Write(change, synced));
    assert StandsInTheWay(v, v.journal, x);
    forall j | j in v.may ensures StandsInTheWay(v, j, x) {
      if j != v.journal {
        assert StandsInTheWay(w, j, x);
      }
    }
  }

  lemma VerifyingIsOver(w: World, act: Act, x: string)
    requires Inv(w) && May(w, act) && Tried(w, x) && About(act, x)
    ensures !act.Verify?
  {}

  lemma PowerCutLeavesItTried(w: World, act: Act, x: string)
    requires Inv(w) && May(w, act) && Tried(w, x) && act.PowerCut? && act.kept
    ensures Tried(Do(w, act), x)
  {
    assert StandsInTheWay(w, act.journal, x);
  }

  lemma OtherwiseStaysTried(w: World, act: Act, x: string)
    requires Inv(w) && May(w, act) && Tried(w, x) && !act.Verify? && !act.Write? && !act.PowerCut?
    requires !act.Replace? && !act.Park? && !act.Reinstate? && !act.Unpark?
    ensures Tried(Do(w, act), x)
  {
    forall j | j in Do(w, act).may ensures StandsInTheWay(Do(w, act), j, x) {
      assert StandsInTheWay(w, j, x);
    }
  }

  lemma StaysTried(w: World, act: Act, x: string)
    requires Inv(w) && May(w, act) && Tried(w, x) && About(act, x) && !Forgets(act)
    ensures Tried(Do(w, act), x) && !act.MoveInto?
  {
    VerifyingIsOver(w, act, x);
    if act.Write? {
      WritingLeavesItTried(w, act.change, act.synced, x);
    } else if act.Replace? || act.Park? || act.Reinstate? || act.Unpark? {
      RestoringLeavesItTried(w, act, x);
    } else if act.PowerCut? {
      PowerCutLeavesItTried(w, act, x);
    } else {
      OtherwiseStaysTried(w, act, x);
    }
  }

  /** What one act adds to the count. */
  lemma CountingOn(w: World, acts: seq<Act>, act: Act, x: string)
    ensures Installations(w, acts + [act], x) ==
            Installations(w, acts, x) + if Installs(Run(w, acts), act, x) then 1 else 0
    ensures Forgettings(acts + [act]) == Forgettings(acts) + if Forgets(act) then 1 else 0
    ensures Run(w, acts + [act]) == Do(Run(w, acts), act)
  {
    assert (acts + [act])[..|acts|] == acts;
  }

  /**
   However it starts, whatever fails and however often the power goes: while
   nothing but `x` is announced, `x` is put in place at most once, and once more
   for each power cut that takes the journal's directory.
   */
  lemma {:induction false} InstalledAtMostOnce(w: World, acts: seq<Act>, x: string)
    requires Inv(w) && Lawful(w, acts) && OnlyAbout(acts, x)
    ensures var bound := Forgettings(acts) + if Tried(w, x) then 0 else 1;
            && Installations(w, acts, x) <= bound
            && (Installations(w, acts, x) == bound ==> Tried(Run(w, acts), x))
  {
    if acts == [] {
    } else {
      var front, last := acts[..|acts| - 1], acts[|acts| - 1];
      assert front + [last] == acts;
      CountingOn(w, front, last, x);
      InstalledAtMostOnce(w, front, x);
      RunKeeps(w, front);
      var before := Run(w, front);
      if Tried(before, x) && !Forgets(last) {
        StaysTried(before, last, x);
      } else if Installs(before, last, x) {
        InstallingIsTrying(before, last, x);
      }
    }
  }
}
