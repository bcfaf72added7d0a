/**
 Runs that end badly. Each is lawful, so each is something the device's code
 can do, with the world it meets.
 */
module OtaRuns {
  import opened Codec
  import opened Options
  import opened Ota
  import opened OtaSafety
  import opened OtaOnce

  /** Nothing beside the binary, nothing in the journal, nothing running. */
  predicate Idle(v: World, me: Sha) {
    && v.mind.Off? && v.files.binary == Some(me) && v.files.previous.None? && v.files.rejected.None?
    && v.files.loose == {} && v.journal == EMPTY_JOURNAL && v.may == {EMPTY_JOURNAL}
  }

  /** What an act of a run for `x` adds to it. */
  lemma Then(w: World, before: seq<Act>, v: World, act: Act, x: string) returns (acts: seq<Act>, u: World)
    requires Lawful(w, before) && Run(w, before) == v && May(v, act)
    ensures u == Do(v, act) && Lawful(w, acts) && Run(w, acts) == u
    ensures Installations(w, acts, x) == Installations(w, before, x) + if Installs(v, act, x) then 1 else 0
    ensures OnlyAbout(before, x) && About(act, x) ==> OnlyAbout(acts, x)
  {
    acts, u := Next(w, before, v, act);
    CountingOn(w, before, act, x);
  }

  /** Announced: the signature is checked, and nothing is fetched yet. */
  lemma AnnouncedIsAccepted(w: World, before: seq<Act>, v: World, text: string, me: Sha)
    returns (acts: seq<Act>, u: World)
    requires Lawful(w, before) && Run(w, before) == v && Idle(v, me)
    requires Named(text).Some? && !Same(text, me)
    ensures Lawful(w, acts) && Run(w, acts) == u && Installations(w, acts, text) == Installations(w, before, text)
    ensures OnlyAbout(before, text) ==> OnlyAbout(acts, text)
    ensures u == v.(mind := Up(me, Fetching(text, Named(text).value)),
                    past := v.past.(signed := v.past.signed + {Named(text).value}))
  {
    acts, u := Then(w, before, v, Boot, text);
    acts, u := Then(w, acts, u, Carry, text);
    acts, u := Then(w, acts, u, Verify(text, Named(text).value), text);
  }

  /** Fetched: the announced image is staged and flushed. */
  lemma AcceptedIsStaged(w: World, before: seq<Act>, v: World, text: string) returns (acts: seq<Act>, u: World)
    requires Lawful(w, before) && Run(w, before) == v && v.mind.Up? && v.mind.phase.Fetching?
    requires v.files.loose == {}
    ensures Lawful(w, acts) && Run(w, acts) == u && Installations(w, acts, text) == Installations(w, before, text)
    ensures OnlyAbout(before, text) ==> OnlyAbout(acts, text)
    ensures u == v.(files := v.files.(staged := Some(v.mind.phase.sha)))
  {
    acts, u := Then(w, before, v, Stage(Some(v.mind.phase.sha)), text);
    acts, u := Then(w, acts, u, Flush, text);
    assert {} + {New} - {New} == {};
  }

  /** An announcement of another image gets as far as its marker. */
  lemma AnnouncedIsMarked(w: World, before: seq<Act>, v: World, text: string, me: Sha, now: int)
    returns (acts: seq<Act>, u: World)
    requires Lawful(w, before) && Run(w, before) == v && Idle(v, me)
    requires Named(text).Some? && !Same(text, me)
    ensures Lawful(w, acts) && Run(w, acts) == u && Installations(w, acts, text) == Installations(w, before, text)
    ensures OnlyAbout(before, text) ==> OnlyAbout(acts, text)
    ensures u.files == v.files.(staged := Named(text)) && u.mind == Up(me, Marked)
    ensures u.journal == EMPTY_JOURNAL.(probation := Some(Fresh(text, me, now))) && u.may == {u.journal}
    ensures u.platform == v.platform && u.settled == v.settled
  {
    acts, u := AnnouncedIsAccepted(w, before, v, text, me);
    acts, u := AcceptedIsStaged(w, acts, u, text);
    acts, u := Then(w, acts, u, Write(Mark(Fresh(text, me, now)), true), text);
  }

  /** From its marker on, with nothing failing, the swap goes through and the process ends. */
  lemma MarkedIsInstalled(w: World, before: seq<Act>, v: World, text: string) returns (acts: seq<Act>, u: World)
    requires Lawful(w, before) && Run(w, before) == v && In(v, Marked) && v.files.loose == {}
    requires v.journal.probation.Some? && v.journal.probation.value.sha256 == text
    ensures Lawful(w, acts) && Run(w, acts) == u
    ensures Installations(w, acts, text) == Installations(w, before, text) + 1
    ensures OnlyAbout(before, text) ==> OnlyAbout(acts, text)
    ensures u.mind.Off? && u.journal == v.journal && u.may == v.may
    ensures u.files == Files(v.files.staged, None, v.files.binary, v.files.rejected, {})
    ensures u.platform == v.platform && u.settled == v.settled
  {
    acts, u := Then(w, before, v, MoveAside, text);
    acts, u := Then(w, acts, u, MoveInto, text);
    acts, u := Then(w, acts, u, Die, text);
  }

  lemma FactoryIsIdle(w: World)
    requires Factory(w)
    ensures Idle(w, w.past.original) && Lawful(w, []) && Run(w, []) == w
  {}

  // --------------------------------------------------------- loose texts

  /**
   Any text that names another image without being its 64 digits, however it is
   spelled, can be announced, accepted and installed from the factory, and what
   boots then matches neither side of its marker.
   */
  lemma LooseTextIsNotUnderstood(w: World, text: string, now: int) returns (acts: seq<Act>)
    requires Factory(w) && Named(text).Some? && !Canonical(text) && Named(text).value != w.past.original
    ensures Lawful(w, acts) && May(Run(w, acts), Boot)
    ensures StandingOf(Run(w, acts).journal, Run(w, acts).files.binary.value).Unrecoverable?
  {
    var me := w.past.original;
    MatchIsCanonical(text, me);
    FactoryIsIdle(w);
    var v: World;
    acts, v := AnnouncedIsMarked(w, [], w, text, me, now);
    acts, v := MarkedIsInstalled(w, acts, v, text);
    MatchIsCanonical(text, Named(text).value);
    assert Fold(Named(text).value) != Fold(me);
  }

  /** Such a text exists for every image: its digits with a space before them. */
  lemma LooseTextExists(sha: Sha)
    ensures !Canonical(" " + sha) && Named(" " + sha) == Some(sha)
  {
    MatchIsCanonical(sha, sha);
    TrimNothing(sha);
    assert (" " + sha)[1..] == sha;
  }

  // ------------------------------------------------- a swap failing twice

  /** Nothing is left to boot, and no marker says what to put back. */
  lemma SwapThatFailsTwice(w: World, text: string, now: int) returns (acts: seq<Act>)
    requires Factory(w) && Named(text).Some? && !Same(text, w.past.original)
    ensures Lawful(w, acts) && Run(w, acts).mind.Off? && !May(Run(w, acts), Boot)
    ensures Run(w, acts).files.previous == Some(w.past.original)
    ensures Run(w, acts).journal == w.journal
  {
    FactoryIsIdle(w);
    var v: World;
    acts, v := AnnouncedIsMarked(w, [], w, text, w.past.original, now);
    acts, v := Next(w, acts, v, MoveAside);
    acts, v := Next(w, acts, v, SwapFailed);
    acts, v := Next(w, acts, v, Write(Unmark, true));
    acts, v := Next(w, acts, v, Die);
  }

  // --------------------------------------------------- a journal forgotten

  /** A candidate's first boot is counted. */
  lemma CandidateIsCounted(w: World, before: seq<Act>, v: World, text: string) returns (acts: seq<Act>, u: World)
    requires Lawful(w, before) && Run(w, before) == v && v.mind.Off?
    requires Named(text).Some? && Same(text, Named(text).value) && v.files.binary == Named(text)
    requires v.journal.probation.Some? && v.journal.probation.value.sha256 == text
    ensures Lawful(w, acts) && Run(w, acts) == u && Installations(w, acts, text) == Installations(w, before, text)
    ensures OnlyAbout(before, text) ==> OnlyAbout(acts, text)
    ensures u.mind == Up(Named(text).value, Counted) && u.files == v.files
    ensures var p := v.journal.probation.value;
            u.journal == v.journal.(probation := Some(p.(attempts := Bump(p.attempts))))
    ensures u.platform == v.platform && u.settled == v.settled
  {
    acts, u := Then(w, before, v, Boot, text);
    acts, u := Then(w, acts, u, Write(CountAttempt, true), text);
  }

  /** And on it the gate fails. */
  lemma CandidateIsCondemned(w: World, before: seq<Act>, v: World, text: string, me: Sha, now: int)
    returns (acts: seq<Act>, u: World)
    requires Lawful(w, before) && Run(w, before) == v && v.mind.Off?
    requires Named(text).Some? && Same(text, Named(text).value)
    requires v.journal == EMPTY_JOURNAL.(probation := Some(Fresh(text, me, now)))
    requires v.files.binary == Named(text)
    ensures Lawful(w, acts) && Run(w, acts) == u && Installations(w, acts, text) == Installations(w, before, text)
    ensures OnlyAbout(before, text) ==> OnlyAbout(acts, text)
    ensures u.mind == Up(Named(text).value, Condemned) && u.files == v.files
    ensures u.journal == EMPTY_JOURNAL.(probation := Some(Fresh(text, me, now).(attempts := 1)))
    ensures u.platform == v.platform && u.settled == v.settled
  {
    acts, u := CandidateIsCounted(w, before, v, text);
    acts, u := Then(w, acts, u, Probe(now), text);
    acts, u := Then(w, acts, u, Gate(Failing), text);
  }

  /** On Unix it is replaced by what it replaced, and refused. */
  lemma CondemnedIsRefused(w: World, before: seq<Act>, v: World, text: string, me: Sha)
    returns (acts: seq<Act>, u: World)
    requires Lawful(w, before) && Run(w, before) == v && In(v, Condemned) && v.platform.Unix? && Checked(v)
    requires v.journal.probation.value.sha256 == text
    requires v.journal == EMPTY_JOURNAL.(probation := v.journal.probation)
    requires v.files == Files(v.files.binary, None, Some(me), None, {})
    ensures Lawful(w, acts) && Run(w, acts) == u && Installations(w, acts, text) == Installations(w, before, text)
    ensures OnlyAbout(before, text) ==> OnlyAbout(acts, text)
    ensures u.journal == EMPTY_JOURNAL.(rejected := Some(text)) && u.may == {u.journal}
    ensures u.files == Files(Some(me), None, None, None, {})
    ensures u.platform == v.platform && u.settled == v.settled
  {
    acts, u := Then(w, before, v, Replace, text);
    acts, u := Then(w, acts, u, Write(RollBack, true), text);
  }

  /**
   A build installed, failed, rolled back and refused, for good as far as
   the code can tell; and a power cut that takes the directory the refusal was
   written in. The announcement is retained, and the build is installed again.
   */
  lemma ReinstalledOnceForgotten(w: World, text: string, now: int) returns (acts: seq<Act>)
    requires Factory(w) && w.platform.Unix? && !w.settled
    requires Canonical(text) && !Same(text, w.past.original)
    ensures Lawful(w, acts) && OnlyAbout(acts, text) && Installations(w, acts, text) == 2
  {
    var me := w.past.original;
    MatchIsCanonical(text, me);
    var v: World;
    acts, v := InstalledAndRefused(w, text, now);
    acts, v := Then(w, acts, v, PowerCut(EMPTY_JOURNAL, v.files, false), text);
    acts, v := AnnouncedIsMarked(w, acts, v, text, me, now);
    acts, v := MarkedIsInstalled(w, acts, v, text);
  }

  lemma InstalledAndRefused(w: World, text: string, now: int) returns (acts: seq<Act>, v: World)
    requires Factory(w) && w.platform.Unix? && Canonical(text) && !Same(text, w.past.original)
    ensures Lawful(w, acts) && Run(w, acts) == v && OnlyAbout(acts, text) && Installations(w, acts, text) == 1
    ensures v.journal == EMPTY_JOURNAL.(rejected := Some(text)) && v.may == {v.journal} && v.settled == w.settled
    ensures v.files == Files(Some(w.past.original), None, None, None, {})
  {
    var me := w.past.original;
    MatchIsCanonical(text, me);
    FactoryIsIdle(w);
    acts, v := AnnouncedIsMarked(w, [], w, text, me, now);
    acts, v := MarkedIsInstalled(w, acts, v, text);
    acts, v := CandidateIsCondemned(w, acts, v, text, me, now);
    acts, v := CondemnedIsRefused(w, acts, v, text, me);
  }

  // ---------------------------------------------------- bytes not flushed

  /**
   What the flush before the marker is for: had the staged bytes not been
   flushed when they moved into place, a power cut could leave any others there.
   */
  lemma UnflushedMayTear(w: World, junk: Sha) returns (cut: Act)
    requires w.journal in w.may && May(w, MoveInto) && New in w.files.loose && w.files.staged.Some?
    ensures cut.PowerCut? && May(Do(w, MoveInto), cut)
    ensures Do(Do(w, MoveInto), cut).files.binary == Some(junk)
  {
    var moved := Do(w, MoveInto);
    cut := PowerCut(w.journal, moved.files.(binary := Some(junk), loose := {}), true);
  }
}
