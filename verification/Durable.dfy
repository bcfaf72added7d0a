/**
 One file, replaced whole. A power cut leaves one generation of it or another,
 never a mixture.

 A disk has what a process reads now and what a power cut may leave instead.
 A directory operation is atomic, and they survive in order, so a power cut
 leaves the directory as it was at some moment since it was last flushed. The
 bytes of a file survive for certain only once they are flushed: until then a
 power cut may leave anything in it. And a directory that was made and whose
 parent was not flushed may be gone altogether.
 */
module Durable {
  import opened Options

  type Bytes = seq<int>
  type Inode = nat

  /** The two names a replacement uses. What else is in the directory stays out of it. */
  datatype Directory = Directory(target: Option<Inode>, temporary: Option<Inode>)

  const EMPTY := Directory(None, None)

  datatype Disk = Disk(
    present: bool,             // the directory is there
    settled: bool,             // and so it is after any power cut
    directory: Directory,
    behind: set<Directory>,    // the directories a power cut may leave
    bodies: map<Inode, Bytes>,
    flushed: set<Inode>,       // files whose bytes survive
    next: Inode)               // no file has this number or a later one

  predicate Names(disk: Disk, directory: Directory) {
    && (directory.target.Some? ==> directory.target.value in disk.bodies)
    && (directory.temporary.Some? ==> directory.temporary.value in disk.bodies)
  }

  predicate Sane(disk: Disk) {
    && disk.directory in disk.behind
    && (forall directory :: directory in disk.behind ==> Names(disk, directory))
    && (!disk.present ==> disk.behind == {EMPTY} && !disk.settled)
    && (forall i :: i in disk.bodies ==> i < disk.next)
    // No name but `.new` ever reaches a file that is being written, nor will after a power cut.
    && (forall directory :: directory in disk.behind && disk.directory.temporary.Some?
                            ==> directory.target != disk.directory.temporary)
    && (forall directory :: directory in disk.behind && directory.temporary.Some?
                            ==> directory.target != directory.temporary)
  }

  /** What reading the target gives. */
  function Reads(disk: Disk): Option<Bytes>
    requires Sane(disk)
  {
    if disk.directory.target.None? then None else Some(disk.bodies[disk.directory.target.value])
  }

  /** Whether a power cut now may leave `left` to be read at the target. */
  predicate MayLeave(disk: Disk, left: Option<Bytes>)
    requires Sane(disk)
  {
    || (!disk.settled && left.None?)
    || exists directory :: directory in disk.behind && Leaves(disk, directory, left)
  }

  predicate Leaves(disk: Disk, directory: Directory, left: Option<Bytes>)
    requires Names(disk, directory)
  {
    match directory.target
    case None => left.None?
    case Some(i) => left.Some? && (i in disk.flushed ==> left.value == disk.bodies[i])
  }

  // --------------------------------------------------------------- steps

  function Now(disk: Disk, directory: Directory): Disk {
    disk.(directory := directory, behind := disk.behind + {directory})
  }

  function MadeDirectory(disk: Disk): Disk {
    disk.(present := true)
  }

  function Removed(disk: Disk): Disk {
    Now(disk, disk.directory.(temporary := None))
  }

  function Created(disk: Disk): Disk {
    var i := disk.next;
    Now(disk.(bodies := disk.bodies[i := []], flushed := disk.flushed - {i}, next := i + 1),
        disk.directory.(temporary := Some(i)))
  }

  function Written(disk: Disk, i: Inode, body: Bytes): Disk {
    disk.(bodies := disk.bodies[i := body], flushed := disk.flushed - {i})
  }

  function FlushedFile(disk: Disk, i: Inode): Disk {
    disk.(flushed := disk.flushed + {i})
  }

  function Renamed(disk: Disk): Disk {
    Now(disk, Directory(disk.directory.temporary, None))
  }

  function FlushedDirectory(disk: Disk): Disk {
    disk.(behind := {disk.directory})
  }

  // ------------------------------------------------------------ power cuts

  /** `after` is a disk a power cut may leave of `disk`. */
  predicate Cut(disk: Disk, after: Disk) {
    && after.next == disk.next && after.bodies.Keys == disk.bodies.Keys == after.flushed
    && (forall i :: i in disk.bodies && i in disk.flushed ==> after.bodies[i] == disk.bodies[i])
    && after.behind == {after.directory} && after.settled == after.present
    && if after.present then disk.present && after.directory in disk.behind
       else !disk.settled && after.directory == EMPTY
  }

  /** What is read after a power cut is what it was said it may leave; and then nothing else can be. */
  lemma CutLeaves(disk: Disk, after: Disk)
    requires Sane(disk) && Cut(disk, after)
    ensures Sane(after) && MayLeave(disk, Reads(after))
    ensures forall left :: MayLeave(after, left) <==> left == Reads(after)
    ensures after.present || (!disk.settled && Reads(after).None?)
  {
    if after.present {
      assert Leaves(disk, after.directory, Reads(after));
    }
    assert Leaves(after, after.directory, Reads(after));
  }

  /** And everything it was said it may leave, some power cut does. */
  lemma EveryLeavingHasItsCut(disk: Disk, left: Option<Bytes>) returns (after: Disk)
    requires Sane(disk) && MayLeave(disk, left)
    ensures Cut(disk, after) && Sane(after) && Reads(after) == left
  {
    if !disk.settled && left.None? {
      after := Disk(false, false, EMPTY, {EMPTY}, disk.bodies, disk.bodies.Keys, disk.next);
    } else {
      var d :| d in disk.behind && Leaves(disk, d, left);
      var bodies := if d.target.Some? then disk.bodies[d.target.value := left.value] else disk.bodies;
      after := Disk(true, true, d, {d}, bodies, bodies.Keys, disk.next);
    }
  }

  // --------------------------------------------------- what a step may do

  /** Nothing at the target is different, now or after any power cut. */
  ghost predicate Unseen(before: Disk, disk: Disk) {
    && Sane(before) && Sane(disk) && disk.settled == before.settled
    && Reads(disk) == Reads(before)
    && forall left :: MayLeave(disk, left) ==> MayLeave(before, left)
  }

  /** The whole new body is there to be read, and at worst a power cut brings back what it might have before. */
  ghost predicate Landed(before: Disk, disk: Disk, body: Bytes) {
    && Sane(before) && Sane(disk) && disk.settled == before.settled
    && Reads(disk) == Some(body)
    && forall left :: MayLeave(disk, left) ==> MayLeave(before, left) || left == Some(body)
  }

  /** All that a replacement may do to the target, at any moment of it. */
  ghost predicate Atomic(before: Disk, disk: Disk, body: Bytes) {
    Unseen(before, disk) || Landed(before, disk, body)
  }

  /** A disk on which nothing but `body` can be read, whatever happens to the power. */
  ghost predicate Replaced(disk: Disk, body: Bytes) {
    && Sane(disk) && Reads(disk) == Some(body)
    && forall left :: MayLeave(disk, left) ==> left == Some(body)
  }

  lemma AtomicChains(before: Disk, between: Disk, disk: Disk, body: Bytes)
    requires Atomic(before, between, body) && Atomic(between, disk, body)
    ensures Atomic(before, disk, body)
  {}

  /** The bytes under every name a power cut may leave to the target are what they were. */
  ghost predicate TargetsAlike(before: Disk, disk: Disk) {
    forall d :: d in disk.behind && d.target.Some? ==>
      var i := d.target.value;
      && i in before.bodies && i in disk.bodies && disk.bodies[i] == before.bodies[i]
      && (i in before.flushed ==> i in disk.flushed)
  }

  /** A step that leaves the target's name and bytes alone cannot be seen at the target. */
  lemma UnseenStep(before: Disk, disk: Disk)
    requires Sane(before) && Sane(disk) && disk.settled == before.settled
    requires disk.directory.target == before.directory.target
    requires forall d :: d in disk.behind ==> d in before.behind || d.target == before.directory.target
    requires TargetsAlike(before, disk)
    ensures Unseen(before, disk)
  {
    forall left | MayLeave(disk, left) ensures MayLeave(before, left) {
      if disk.settled || left.Some? {
        var d :| d in disk.behind && Leaves(disk, d, left);
        var e := if d in before.behind then d else before.directory;
        assert Leaves(before, e, left);
      }
    }
  }

  lemma MakeDirectoryStep(disk: Disk)
    requires Sane(disk) && !disk.present
    ensures Unseen(disk, MadeDirectory(disk))
  {
    UnseenStep(disk, MadeDirectory(disk));
  }

  lemma RemoveStep(disk: Disk)
    requires Sane(disk) && disk.present
    ensures Unseen(disk, Removed(disk))
  {
    UnseenStep(disk, Removed(disk));
  }

  lemma CreateStep(disk: Disk)
    requires Sane(disk) && disk.present
    ensures Unseen(disk, Created(disk))
  {
    UnseenStep(disk, Created(disk));
  }

  lemma WriteStep(disk: Disk, some: Bytes)
    requires Sane(disk) && disk.present && disk.directory.temporary.Some?
    ensures Unseen(disk, Written(disk, disk.directory.temporary.value, some))
  {
    UnseenStep(disk, Written(disk, disk.directory.temporary.value, some));
  }

  lemma FlushFileStep(disk: Disk)
    requires Sane(disk) && disk.present && disk.directory.temporary.Some?
    ensures Unseen(disk, FlushedFile(disk, disk.directory.temporary.value))
  {
    UnseenStep(disk, FlushedFile(disk, disk.directory.temporary.value));
  }

  /** The rename, once the bytes under it are flushed. */
  lemma RenameStep(disk: Disk, i: Inode, body: Bytes)
    requires Sane(disk) && disk.present && disk.directory.temporary == Some(i)
    requires i in disk.bodies && disk.bodies[i] == body && i in disk.flushed
    ensures Landed(disk, Renamed(disk), body)
  {
    var after := Renamed(disk);
    forall left | MayLeave(after, left) ensures MayLeave(disk, left) || left == Some(body) {
      if disk.settled || left.Some? {
        var d :| d in after.behind && Leaves(after, d, left);
        if d in disk.behind {
          assert Leaves(disk, d, left);
        }
      }
    }
  }

  /** The directory flush: what is read is all a power cut can leave, but for a directory that is not settled. */
  lemma DirectoryStep(disk: Disk, i: Inode, body: Bytes)
    requires Sane(disk) && disk.present && disk.directory.target == Some(i)
    requires disk.bodies[i] == body && i in disk.flushed
    ensures var after := FlushedDirectory(disk);
            && Unseen(disk, after)
            && (forall left :: MayLeave(after, left) <==> left == Some(body) || (!disk.settled && left.None?))
            && (Replaced(after, body) <==> disk.settled)
  {
    var after := FlushedDirectory(disk);
    UnseenStep(disk, after);
    assert Leaves(after, after.directory, Some(body));
    if !disk.settled {
      assert MayLeave(after, None);
    }
  }

  /** Renaming before the bytes are flushed: a power cut may leave anything at all. */
  lemma RenamedTooSoon(disk: Disk, i: Inode, junk: Bytes)
    requires Sane(disk) && disk.present && disk.directory.temporary == Some(i) && i !in disk.flushed
    ensures MayLeave(Renamed(disk), Some(junk))
  {
    assert Leaves(Renamed(disk), Directory(Some(i), None), Some(junk));
  }

  /** Not flushing the directory: whatever a power cut might have left, it still may. */
  lemma RenameNotFlushed(disk: Disk, left: Option<Bytes>)
    requires Sane(disk) && disk.present && disk.directory.temporary.Some? && MayLeave(disk, left)
    ensures MayLeave(Renamed(disk), left)
  {
    if disk.settled || left.Some? {
      var d :| d in disk.behind && Leaves(disk, d, left);
      assert Leaves(Renamed(disk), d, left);
    }
  }

  // ------------------------------------------------ a record kept in a file

  /** What a power cut may leave of a record once `value` was written, flushed or only landed. */
  function Keeping<T>(may: set<T>, value: T, synced: bool): set<T> {
    if synced then {value} else may + {value}
  }

  /**
   The disk holds a record: `now` to be read, and one of `may` after a power
   cut, or none at all after one that takes the directory, unless it is settled.
   */
  ghost predicate Shows<T(!new)>(disk: Disk, read: Option<Bytes> -> T, now: T, may: set<T>, settled: bool) {
    && Sane(disk) && read(Reads(disk)) == now && (settled ==> disk.settled)
    && forall left :: MayLeave(disk, left) ==> read(left) in may || (!settled && left.None?)
  }

  /** A write that returned Ok leaves its record; one that failed left things alone, or landed. */
  lemma WriteShows<T(!new)>(before: Disk, disk: Disk, body: Bytes, ok: bool,
                            read: Option<Bytes> -> T, now: T, may: set<T>, settled: bool)
    requires Shows(before, read, now, may, settled) && Atomic(before, disk, body)
    requires ok ==> Reads(disk) == Some(body)
    requires ok ==> forall left :: MayLeave(disk, left) ==> left == Some(body) || (!disk.settled && left.None?)
    ensures var value := read(Some(body));
            if ok then Shows(disk, read, value, Keeping(may, value, true), settled)
            else Shows(disk, read, now, may, settled)
                 || Shows(disk, read, value, Keeping(may, value, false), settled)
  {
    var value := read(Some(body));
    if !ok && !Unseen(before, disk) {
      forall left | MayLeave(disk, left)
        ensures read(left) in Keeping(may, value, false) || (!settled && left.None?)
      {
        assert MayLeave(before, left) || left == Some(body);
      }
    }
  }

  /** A power cut leaves one of them and nothing else; or, of a directory not settled, nothing. */
  lemma CutShows<T(!new)>(disk: Disk, after: Disk, read: Option<Bytes> -> T, now: T, may: set<T>, settled: bool)
    requires Shows(disk, read, now, may, settled) && Cut(disk, after)
    ensures Sane(after)
    ensures var left := Reads(after);
            && (read(left) in may || (!settled && left.None?))
            && Shows(after, read, read(left), {read(left)}, settled || left.Some?)
  {
    CutLeaves(disk, after);
  }

  // ----------------------------------------------------- the file system

  class FileSystem {
    var disk: Disk
    /** Every state the disk has been in. */
    var history: seq<Disk>
    /** How many operations have failed. */
    var faults: nat

    ghost predicate Valid()
      reads this
    {
      Sane(disk) && history != [] && history[|history| - 1] == disk
    }

    /** From `was` on, the disk passed through nothing but states atomic with respect to `before`. */
    ghost predicate Kept(was: seq<Disk>, before: Disk, body: Bytes)
      reads this
    {
      && Valid() && was <= history && Atomic(before, disk, body)
      && forall k :: |was| <= k < |history| ==> Atomic(before, history[k], body)
    }

    constructor (disk: Disk)
      requires Sane(disk)
      ensures Valid() && this.disk == disk && history == [disk] && faults == 0
    {
      this.disk, this.history, this.faults := disk, [disk], 0;
    }

    /** A step, or a failure that changes nothing. */
    method Try(next: Disk, ghost was: seq<Disk>, ghost before: Disk, ghost body: Bytes) returns (ok: bool)
      requires Kept(was, before, body) && Atomic(disk, next, body)
      modifies this
      ensures Kept(was, before, body)
      ensures ok ==> disk == next && faults == old(faults)
      ensures !ok ==> disk == old(disk) && faults == old(faults) + 1
    {
      ok := *;
      if ok {
        AtomicChains(before, disk, next, body);
        disk, history := next, history + [next];
      } else {
        faults := faults + 1;
      }
    }

    /** The directory, made if it is missing. Nothing flushes its parent. */
    method EnsureDirectory(ghost was: seq<Disk>, ghost before: Disk, ghost body: Bytes) returns (ok: bool)
      requires Kept(was, before, body)
      modifies this
      ensures Kept(was, before, body) && Unseen(old(disk), disk)
      ensures ok ==> disk == old(disk).(present := true)
      ensures faults >= old(faults) && (ok <==> faults == old(faults))
    {
      if !disk.present {
        MakeDirectoryStep(disk);
        ok := Try(MadeDirectory(disk), was, before, body);
      } else {
        ok := *; // its mode, tightened
        if !ok {
          faults := faults + 1;
        }
      }
    }

    /** An empty `.new`, and nothing left of an earlier one. */
    method StartAfresh(ghost was: seq<Disk>, ghost before: Disk, ghost body: Bytes) returns (ok: bool)
      requires Kept(was, before, body) && disk.present
      modifies this
      ensures Kept(was, before, body) && disk.present && Unseen(old(disk), disk)
      ensures ok ==>
                && disk.directory.temporary.Some? && disk.directory.target == old(disk.directory.target)
                && disk.directory.temporary.value !in old(disk.bodies)
                && disk.bodies[disk.directory.temporary.value] == []
      ensures faults >= old(faults) && (ok <==> faults == old(faults))
    {
      if disk.directory.temporary.Some? {
        RemoveStep(disk);
        ok := Try(Removed(disk), was, before, body);
        if !ok {
          return;
        }
      }
      CreateStep(disk);
      ok := Try(Created(disk), was, before, body);
    }

    /** `write_all`, in as many writes as it takes: a failure part way leaves any part of the body behind. */
    method WriteAll(ghost was: seq<Disk>, ghost before: Disk, body: Bytes) returns (ok: bool)
      requires Kept(was, before, body) && disk.present && disk.directory.temporary.Some?
      requires disk.bodies[disk.directory.temporary.value] == []
      modifies this
      ensures Kept(was, before, body) && disk.present && Unseen(old(disk), disk)
      ensures disk.directory == old(disk.directory)
      ensures ok ==> disk.bodies[disk.directory.temporary.value] == body
      ensures faults >= old(faults) && (ok <==> faults == old(faults))
    {
      var i := disk.directory.temporary.value;
      var written: nat := 0;
      ok := true;
      while ok && written < |body|
        invariant Kept(was, before, body) && disk.present && Unseen(old(disk), disk)
        invariant disk.directory == old(disk.directory)
        invariant written <= |body| && (ok ==> disk.bodies[i] == body[..written])
        invariant faults >= old(faults) && (ok <==> faults == old(faults))
        decreases |body| - written, ok
      {
        var more: nat :| written < more <= |body|;
        WriteStep(disk, body[..more]);
        ok := Try(Written(disk, i, body[..more]), was, before, body);
        written := more;
      }
      assert body[..|body|] == body;
    }

    /** `write_all` and `sync_all`. Whatever fails, the target does not show it. */
    method Fill(ghost was: seq<Disk>, ghost before: Disk, body: Bytes) returns (ok: bool)
      requires Kept(was, before, body) && disk.present && disk.directory.temporary.Some?
      requires disk.bodies[disk.directory.temporary.value] == []
      modifies this
      ensures Kept(was, before, body) && disk.present && Unseen(old(disk), disk)
      ensures disk.directory == old(disk.directory)
      ensures ok ==> var i := disk.directory.temporary.value; disk.bodies[i] == body && i in disk.flushed
      ensures faults >= old(faults) && (ok <==> faults == old(faults))
    {
      ok := WriteAll(was, before, body);
      if !ok {
        return;
      }
      FlushFileStep(disk);
      ok := Try(FlushedFile(disk, disk.directory.temporary.value), was, before, body);
    }

    /** The rename and the directory's flush, once the bytes are there. */
    method MoveInto(ghost was: seq<Disk>, ghost before: Disk, body: Bytes) returns (ok: bool)
      requires Kept(was, before, body) && disk.present && disk.directory.temporary.Some?
      requires var i := disk.directory.temporary.value; disk.bodies[i] == body && i in disk.flushed
      modifies this
      ensures Kept(was, before, body)
      ensures ok ==>
                && Reads(disk) == Some(body) && disk.settled == old(disk.settled)
                && forall left :: MayLeave(disk, left) <==> left == Some(body) || (!disk.settled && left.None?)
      ensures ok ==> (Replaced(disk, body) <==> disk.settled)
      ensures faults >= old(faults) && (ok <==> faults == old(faults))
    {
      var i := disk.directory.temporary.value;
      RenameStep(disk, i, body);
      ok := Try(Renamed(disk), was, before, body);
      if !ok {
        return;
      }
      DirectoryStep(disk, i, body);
      ok := Try(FlushedDirectory(disk), was, before, body);
    }

    /**
     `write_private`: the new body goes into a file of its own, which is flushed
     and takes the name; then the directory is flushed. At every step in between,
     what is read, and what a power cut leaves, is a whole generation. Once it
     returns Ok no power cut can take the new one back, exactly if the directory
     was there for good to begin with.
     */
    method WritePrivate(body: Bytes) returns (ok: bool)
      requires Valid()
      modifies this
      ensures Kept(old(history), old(disk), body)
      ensures ok ==>
                && Reads(disk) == Some(body) && disk.settled == old(disk.settled)
                && forall left :: MayLeave(disk, left) <==> left == Some(body) || (!disk.settled && left.None?)
      ensures ok ==> (Replaced(disk, body) <==> old(disk.settled))
      ensures faults >= old(faults) && (ok <==> faults == old(faults))
    {
      ghost var was, before := history, disk;
      ok := EnsureDirectory(was, before, body);
      if !ok {
        return;
      }
      ok := StartAfresh(was, before, body);
      if !ok {
        return;
      }
      ok := Fill(was, before, body);
      if !ok {
        return;
      }
      ok := MoveInto(was, before, body);
    }

    /** `Store::save`: what a record in this file comes to, as the machines that keep one take it. */
    method Record<T(!new)>(body: Bytes, ghost read: Option<Bytes> -> T, ghost now: T, ghost may: set<T>,
                           ghost settled: bool) returns (ok: bool)
      requires Valid() && Shows(disk, read, now, may, settled)
      modifies this
      ensures Valid()
      ensures var value := read(Some(body));
              if ok then Shows(disk, read, value, Keeping(may, value, true), settled)
              else Shows(disk, read, now, may, settled)
                   || Shows(disk, read, value, Keeping(may, value, false), settled)
      ensures faults >= old(faults) && (ok <==> faults == old(faults))
    {
      ghost var before := disk;
      ok := WritePrivate(body);
      WriteShows(before, disk, body, ok, read, now, may, settled);
    }

    /** The power goes, on the disk as it was at some moment since `since`. */
    method LosePower(since: nat, ghost was: seq<Disk>, ghost before: Disk, ghost body: Bytes)
      requires Kept(was, before, body) && was != [] && was[|was| - 1] == before && |was| - 1 <= since < |history|
      modifies this
      ensures Valid() && disk.settled == disk.present && (before.settled ==> disk.settled)
      ensures exists k :: since <= k < |old(history)| && MayLeave(old(history)[k], Reads(disk))
      ensures forall left :: MayLeave(disk, left) <==> left == Reads(disk)
      ensures faults == old(faults)
    {
      var k: nat :| since <= k < |history|;
      var moment := history[k];
      assert Sane(moment) by {
        assert k == |was| - 1 || Atomic(before, history[k], body);
      }
      var after: Disk := *;
      if !Cut(moment, after) {
        after := Intact(moment);
      }
      CutLeaves(moment, after);
      disk, history := after, history + [after];
    }

    /**
     Saves that succeed, fail, or are cut short by the power, which may also go
     between them; with whatever an interrupted one left behind for the next.
     What is read is always one whole body: the last one that returned Ok, or
     one whose saving was tried since. Nothing at all is read only until a power
     cut has spared the file once, or it was there for good to begin with.
     A save that is not cut short returns Ok exactly if none of its operations
     failed, whatever was left behind.
     */
    method Live(saves: seq<Save>, ghost whole: set<Option<Bytes>>) returns (outcomes: seq<Outcome>)
      requires Valid() && Only(disk, whole)
      modifies this
      ensures Valid() && |outcomes| == |saves|
      ensures Only(disk, Generations(whole, old(disk.settled), saves, outcomes))
      ensures forall k :: 0 <= k < |saves| ==> Concluded(saves[k], outcomes[k])
      ensures faults == old(faults) + Failures(outcomes)
    {
      outcomes := [];
      ghost var settled := disk.settled;
      for k := 0 to |saves|
        invariant Valid() && |outcomes| == k && (SettledBy(settled, outcomes) ==> disk.settled)
        invariant Only(disk, Generations(whole, settled, saves[..k], outcomes))
        invariant forall j :: 0 <= j < k ==> Concluded(saves[j], outcomes[j])
        invariant faults == old(faults) + Failures(outcomes)
      {
        ghost var allowed := Generations(whole, settled, saves[..k], outcomes);
        var outcome := Undergo(saves[k], allowed, SettledBy(settled, outcomes));
        assert saves[..k + 1][..k] == saves[..k] && (outcomes + [outcome])[..k] == outcomes;
        outcomes := outcomes + [outcome];
      }
      assert saves[..|saves|] == saves;
    }

    /** One save, and the power with it. */
    method Undergo(save: Save, ghost allowed: set<Option<Bytes>>, ghost settled: bool) returns (outcome: Outcome)
      requires Valid() && Only(disk, allowed) && (settled ==> disk.settled)
      modifies this
      ensures Valid() && (settled || outcome.spared ==> disk.settled)
      ensures Only(disk, Since(allowed, settled, save.body, outcome))
      ensures Concluded(save, outcome) && faults == old(faults) + outcome.failed
      ensures outcome.spared <==> save.cut != Never && Reads(disk).Some?
    {
      ghost var was, before := history, disk;
      var started, failed := |history| - 1, faults;
      var ok := WritePrivate(save.body);
      failed := faults - failed;
      match save.cut
      case Never =>
        outcome := Outcome(ok, false, failed);
      case During =>
        LosePower(started, was, before, save.body);
        outcome := Outcome(false, Reads(disk).Some?, failed);
      case Afterwards =>
        LosePower(|history| - 1, was, before, save.body);
        outcome := Outcome(ok, Reads(disk).Some?, failed);
    }
  }

  /** When the power goes, if it does. */
  datatype Moment = Never | During | Afterwards

  datatype Save = Save(body: Bytes, cut: Moment)

  /** Whether the save returned Ok, whether the power went and spared the file, and how many operations failed. */
  datatype Outcome = Outcome(ok: bool, spared: bool, failed: nat)

  /** A save returns Ok if no operation of it failed and the power stayed, and only then. */
  predicate Concluded(save: Save, outcome: Outcome) {
    outcome.ok <==> save.cut != During && outcome.failed == 0
  }

  function Failures(outcomes: seq<Outcome>): nat {
    if outcomes == [] then 0 else Failures(outcomes[..|outcomes| - 1]) + outcomes[|outcomes| - 1].failed
  }

  /** Everything that was on the disk is on it for good. */
  function Intact(disk: Disk): Disk {
    var directory := if disk.present then disk.directory else EMPTY;
    Disk(disk.present, disk.present, directory, {directory}, disk.bodies, disk.bodies.Keys, disk.next)
  }

  /** Nothing but these is read, or can be left by a power cut. */
  ghost predicate Only(disk: Disk, whole: set<Option<Bytes>>) {
    Sane(disk) && Reads(disk) in whole && forall left :: MayLeave(disk, left) ==> left in whole
  }

  /** What may be read after one more save: its body alone if it returned Ok. */
  function Since(whole: set<Option<Bytes>>, settled: bool, body: Bytes, outcome: Outcome): set<Option<Bytes>> {
    var all := Keeping(whole, Some(body), outcome.ok) + if settled then {} else {None};
    if outcome.spared then all - {None} else all
  }

  /** A directory is there for good once a power cut has spared it. */
  predicate SettledBy(settled: bool, outcomes: seq<Outcome>) {
    settled || exists k :: 0 <= k < |outcomes| && outcomes[k].spared
  }

  function Generations(whole: set<Option<Bytes>>, settled: bool, saves: seq<Save>, outcomes: seq<Outcome>)
    : set<Option<Bytes>>
    requires |outcomes| == |saves|
  {
    if saves == [] then whole
    else
      var n := |saves| - 1;
      Since(Generations(whole, settled, saves[..n], outcomes[..n]), SettledBy(settled, outcomes[..n]),
            saves[n].body, outcomes[n])
  }
}
