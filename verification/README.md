# A device that keeps itself alive

This project models the parts of the OpenQTT device crate that decide whether a
machine in the field stays reachable: the firmware update machine and its
journal, the rotating enrollment token, crash-safe file replacement, the log
queue, the handover to a renewed certificate, the renewal schedule, and the
small exact codecs and sizes those rest on. Each is proved for every input,
every failure and every power cut, not for chosen ones.

| file | what it is about |
|---|---|
| `Ota.dfy` | the files beside the binary, the journal, the process; every act that can happen; the law the code keeps |
| `OtaSafety.dfy` | the invariant of the whole machine, act by act |
| `OtaTheorems.dfy`, `OtaOnce.dfy` | what the invariant is for |
| `OtaRuns.dfy` | whole runs that end badly, where a promise has its limits |
| `Updater.dfy` | the updater's own code, step by step, each step checked against the law |
| `Durable.dfy` | replacing a file on a disk that may lose what was not flushed, and what that makes of a record kept in one |
| `Tokens.dfy` | the rotating token: platform, network, disk, process |
| `Handover.dfy` | the renewal loop and the supervisor over a channel of one |
| `Schedule.dfy` | when to renew, and the wait an instruction may end |
| `LogQueue.dfy` | the queue of log lines and its loss accounting |
| `Packet.dfy` | the size of a PUBLISH, against MQTT 3.1.1 |
| `Codec.dfy` | hexadecimal and base64 |
| `Options.dfy`, `Saving.dfy` | `Option`, and what a save comes to |

## How it is put together

The three machines (`Ota`, `Tokens`, `Handover`) have the same shape. A value
describes the whole situation, including what a power cut may leave instead of
what a process reads. `Do` says what one act changes; `May` says what the code
allows itself at that point. The theorems are about every lawful run from the
beginning. The source's imperative code is a class beside that: each of its
operations performs acts, the verifier makes it show that every act is lawful,
and the class keeps the log of what it did. So whatever the code does, with
whatever failing in between, is a run the theorems are about, and so is any part
of it that a power cut leaves.

`Durable` goes one level down. Its class performs the steps of one replacement on
a disk and keeps every state the disk was in; a power cut may strike at any of
them. `WriteShows` and `CutShows` carry what it proves up to a record kept in a
file, and the journal and the token are such records: their machines compute what
a write leaves with the same function.

Safety alone would be kept by code that does nothing, so each operation also
says what it achieves. In `Updater` and `Durable`, `faults` counts the operations
that failed, and contracts say what has happened when none did. In `Tokens`,
`LogQueue` and `Schedule` what the network, the disk and the clock do is handed to
a method, which is then tied to exactly what that leads to. In `Handover`, what was
not achieved has its cause in the log.

## What turned out not to hold, and exactly when it does

- Nothing flushes the parent of a directory that `write_private` has just made
  (`rust/src/durable.rs:143-155`), so a power cut may take it, with everything
  saved in it, after any number of saves that returned Ok
  (`Durable.FileSystem.WritePrivate`, `EveryLeavingHasItsCut`). Two promises have
  their limit there. The device can be locked out with no rotation lost:
  `Tokens.LockedOutWithNothingLost` is that run, and `WelcomeExactlyBelowTwo` says
  when a power cut can do it. A refused build can be installed again:
  `OtaRuns.ReinstalledOnceForgotten` is that run, and `OtaOnce.InstalledAtMostOnce`
  allows one more installation for each time it happens, and none where the
  directory was there for good (`OtaTheorems.SettledForgetsNothing`). That a good
  image survives does not depend on it.
- A boot is beyond understanding (`Standing::Unrecoverable`) exactly when the
  announced digest was not written as 64 hexadecimal digits and the candidate it
  names is what boots (`OtaTheorems.BootIsUnderstood`). The marker keeps the text
  as announced (`rust/src/ota.rs:583-585`), and the reader of digests also takes
  surrounding white space and a plus sign inside a pair
  (`rust/src/ota.rs:1418-1431`). `OtaRuns.LooseTextIsNotUnderstood` is a whole run
  that ends so, for any such text; `LooseTextExists` gives one for every image.
- A swap whose second rename fails, and whose put-back fails too, takes its
  marker down as if it had put itself back (`rust/src/ota.rs:597-601`; the comment
  there says it did). `OtaTheorems.UnmarkingAssumesPutBack` says when that is wrong,
  and `OtaRuns.SwapThatFailsTwice` is a run that ends with nothing to boot. `.old`
  still holds the last good image then, and nothing ever overwrites it.
- A refusal that outlasts a delivery, of a build for another machine or of one that
  was rolled back, is reported once in a process if and only if nothing else is
  refused in between (`Updater.Device.RefuseAll`, `Updater.ReportedOnceIfTogether`):
  what is remembered is one digest (`rust/src/ota.rs:330-334`). `ReportedAgain` is
  two digests by turns.
- What the log queue reports as dropped is right in number and may be wrong about
  which lines: a settle removes as many lines as were sent, from whatever is at
  the front by then. `LogQueue.SettleLosesUnsent` says exactly when that takes a
  line that was never sent, in terms of the counters and lengths at hand;
  `Flush` that no later batch has it; and `UnsentLineLost` is a queue to which
  it happens.

## Assumptions

- Nobody but the device changes its files.
- The contents of a file are its sha256. Different contents have different digests.
- Whether a key signed a digest is a predicate nothing is known about.
- Renames, creations and deletions in one directory take effect in order. In the
  binary's directory they also survive a power cut: neither the swap nor the restore
  flushes it. In the state directory they survive once it is flushed, and the
  directory itself may go as long as it was not there for good.
- A directory that a power cut spared, with a file still in it, is there for good.
- Bytes survive a power cut once they are flushed, and until then may be anything.
- The journal and the state file are in one directory. The journal's machine treats
  losing it as losing the journal, and the token's as losing the token.
- The renewal loop ends, and its channel closes, only when the device is dropped: it has
  no other way out.
- Asking whether a file exists gives the truth; reading or deleting it may fail.
- The service manager starts whatever is at the binary's path, and nothing if nothing
  is there.
- Text is ASCII, one byte a character.

## Model

| member | source | states |
|---|---|---|
| `OtaTheorems.GoodImageSurvives` | rust/src/ota.rs:434-608 | at every point of every run the binary's path or `.old` holds the original image or one that finished a gate with no fail and no timeout |
| `OtaTheorems.TrustIsEarned` | rust/src/ota.rs:1050-1112 | the images counted as good are exactly the first one and those a gate in the run passed |
| `OtaSafety.StepKeeps` | rust/src/ota.rs:928-1047 | every lawful act, power cuts included, keeps the machine's invariant over files, journal, the journals a cut may leave, and program counter |
| `OtaSafety.RunKeeps` | rust/src/ota.rs:434-1245 | every run keeps it |
| `OtaSafety.MatchIsCanonical` | rust/src/ota.rs:903-912 | a recorded text matches a digest only if it is 64 digits naming it |
| `OtaSafety.LeaveKeepsOne` | rust/src/journal.rs:79-85 | after `leave` there is one record for the file, the new one, and every other file's record stands |
| `OtaTheorems.SignedWasChecked` | rust/src/ota.rs:553-567 | a digest counts as signed only if some step of the run checked its signature |
| `OtaTheorems.OnlySignedImages` | rust/src/ota.rs:553-573 | what is ever at the binary's path, at `.old` or at `.rejected` is the original or had its signature checked in that run |
| `OtaTheorems.StagedIsWhatWasSigned` | rust/src/ota.rs:618-723 | bytes are staged only after the check, and move into place only flushed and with the digest the marker names |
| `OtaTheorems.NoCutTearsAnImage` | rust/src/ota.rs:701-704 | on every run, what is at the path, at `.old` or at `.rejected` is the same after a power cut as before |
| `OtaRuns.UnflushedMayTear` | rust/src/ota.rs:701-704 | without that flush a power cut could put any bytes at the path |
| `OtaTheorems.MarkedWasVerified` | rust/src/ota.rs:553-586 | a marker carries a text whose signature was checked earlier in the run |
| `OtaTheorems.NoRenameClobbers` | rust/src/ota.rs:734-797 | no rename replaces a file but the Unix restore, which replaces the candidate on trial with the recorded previous binary |
| `OtaTheorems.BootIsUnderstood` | rust/src/ota.rs:903-920 | a boot is unrecoverable if and only if the marker's text is not 64 digits and something other than the previous binary boots |
| `OtaTheorems.NoBootIsUnrecoverable` | rust/src/ota.rs:582-605 | with digests announced as 64 digits no boot in any run is unrecoverable |
| `OtaRuns.LooseTextIsNotUnderstood` | rust/src/ota.rs:1418-1431 | any other text for another image leads, by a lawful run, to a boot that is |
| `OtaRuns.LooseTextExists` | rust/src/ota.rs:1418-1431 | a leading space gives such a text for every image |
| `OtaTheorems.UnmarkingAssumesPutBack` | rust/src/ota.rs:596-603 | after a failed swap takes its marker down, a binary is in place if and only if `.old` is free |
| `OtaRuns.SwapThatFailsTwice` | rust/src/ota.rs:736-746 | a run in which nothing is left to boot and no marker says so |
| `OtaTheorems.GateRunsAtMostTwice` | rust/src/ota.rs:1050-1112 | between two completed swaps the gate begins at most PROBATION_ATTEMPTS - 1 times, over any boots, and crashes and power cuts while its probes run |
| `Ota.TrialEnds` | rust/src/journal.rs:147-171 | a trial is over after three counted boots, or, on a clock that does not read earlier than its start, more than a window later, and not before |
| `OtaTheorems.LeftoversAreRecorded` | rust/src/ota.rs:825-862 | on Windows, with no marker on disk, a parked candidate has exactly one record and it is its digest; so has `.old`, unless it was given up on; and both unless a power cut took the journal's directory |
| `OtaTheorems.SettledForgetsNothing` | rust/src/durable.rs:57-58 | which happens only where that directory was not there for good to begin with |
| `OtaTheorems.StrandedGaveUp` | rust/src/ota.rs:1151-1195 | an `.old` without a record comes from a refused rollback, a doubly failed swap, or an abandoned update whose marker was not 64 digits |
| `OtaOnce.InstalledAtMostOnce` | rust/src/ota.rs:473-500 | while every announcement is for one digest, from any reachable state, it is put in place at most once, and once more for each power cut that takes the journal's directory, whatever else fails |
| `OtaRuns.ReinstalledOnceForgotten` | rust/src/durable.rs:143-155 | a run, in a directory that was not there for good, in which a refused build is installed again |
| `OtaOnce.StaysTried` | rust/src/ota.rs:1222-1232 | once tried, every journal a power cut may leave of a directory it spares stands in the way of trying again, through rollback and abandonment too |
| `Updater.Device.Update` | rust/src/journal.rs:223-228 | one journal update: done, and alone what a power cut leaves of a directory it spares; or failed, having landed or not |
| `Updater.Device.Load` | rust/src/journal.rs:200-212 | the journal as it is, or an error; never an empty one in its place |
| `Updater.Device.Download` | rust/src/ota.rs:618-723 | Ok only with the expected digest staged and flushed; with nothing failing, Ok if and only if the transfer was allowed, complete, small enough and the right bytes |
| `Updater.Device.FlushStaged` | rust/src/ota.rs:701-704 | the staged bytes survive a power cut from here on, or nothing changed |
| `Updater.Device.Receive` | rust/src/ota.rs:660-706 | the chunks are staged in order unless they exceed the limit |
| `Updater.Device.Swap` | rust/src/ota.rs:734-753 | Ok exactly when both renames happened; otherwise the files are as before, unless two operations failed |
| `Updater.Device.TidyAll` | rust/src/ota.rs:825-855 | every record let go is of a file that is gone or holds something else, and with nothing failing none is kept |
| `Updater.Device.Tidy` | rust/src/ota.rs:825-862 | deletes only recorded files that still hold what was recorded; with nothing failing all of them go and the list is empty |
| `Updater.Device.TidyOne` | rust/src/ota.rs:829-850 | a record is kept only because something failed, and let go only when its file is gone or holds something else |
| `Updater.Device.Screen` | rust/src/ota.rs:434-547 | with nothing failing, lets through exactly the announcements this is the moment for; a running, foreign or rolled-back build changes nothing |
| `Updater.Device.CheckSignature` | rust/src/ota.rs:553-562 | goes on if and only if the digest and the signature read and a key signed it, and says which of the three it was that did not |
| `Updater.Device.Consider` | rust/src/ota.rs:434-567 | with nothing failing, goes ahead exactly for an acceptable announcement |
| `Updater.Device.LoadFor` | rust/src/ota.rs:469-480 | a refusal is lifted by a different digest and by nothing else |
| `Updater.Device.AskJournal` | rust/src/ota.rs:469-500 | with nothing failing, nothing stands against a digest exactly if none is on trial and the one refused, if any, is another; a build that was rolled back is reported unless it was what was refused last |
| `Updater.Device.RefuseAll` | rust/src/ota.rs:453-490 | over any announcements that are for another machine or were rolled back here, each is reported exactly unless the one just before it was for the same digest |
| `Updater.ReportedOnceIfTogether` | rust/src/ota.rs:330-334 | a digest is reported at most once if and only if its deliveries come in one stretch |
| `Updater.ReportedAgain` | rust/src/ota.rs:330-334 | two digests by turns: the first is reported twice |
| `Updater.Device.MakeRoom` | rust/src/ota.rs:506-547 | goes on only with `.old` and `.rejected` free, after trying what was left over again |
| `Updater.Device.PutDownMarker` | rust/src/ota.rs:582-594 | the marker is flushed before anything moves, or nothing moves |
| `Updater.Device.PutInPlace` | rust/src/ota.rs:582-607 | with nothing failing the staged image is in place with its marker; otherwise the running binary is, unless a swap failed twice |
| `Updater.Device.Apply` | rust/src/ota.rs:568-607 | from a checked signature to the new binary in place with its marker, or back to the old one |
| `Updater.Device.Install` | rust/src/ota.rs:434-608 | with nothing failing, an acceptable announcement whose artifact arrives is installed, and any other changes no file at the path |
| `Updater.Device.Commit` | rust/src/ota.rs:1115-1143 | the marker comes down unless that write itself failed, whatever became of `.old`, which on Windows is then recorded; with nothing failing, `.old` and the marker are both gone and the candidate stays |
| `Updater.Device.Restore` | rust/src/ota.rs:771-797 | the previous binary is back and, on Windows, the candidate parked; or, failing, the candidate is still in place unless two operations failed |
| `Updater.Device.Revert` | rust/src/ota.rs:1151-1245 | restores only an `.old` whose digest was read and is the recorded one, and records the refusal; otherwise moves nothing |
| `Updater.Device.CountBoot` | rust/src/ota.rs:1056-1069 | the boot is counted on disk before the gate, or the gate is not run |
| `Updater.Device.RunGate` | rust/src/ota.rs:1084-1112 | from the probes' answers: one fail condemns; without one, a timeout decides nothing and trusts nothing new; with neither, warnings and missing probes included, the candidate passes and is trusted |
| `Updater.Device.Prove` | rust/src/ota.rs:1050-1112 | a boot into a candidate that could be counted ends its probation or leaves it one chance fewer, whatever else fails; with nothing failing, a fail among the answers refuses it and puts `.old` back if there is one, a timeout and no fail leaves files and counted marker as they are, and anything else keeps it, with `.old` and marker gone |
| `Updater.Device.SeeThrough` | rust/src/journal.rs:147-152 | with nothing failing, a candidate's probation is over within PROBATION_ATTEMPTS boots, however its gate answers and whatever the clock says |
| `Updater.Device.DropCopy` | rust/src/ota.rs:984-999 | after an update that never booted, `.old` goes if it is a copy of what runs; on Windows one that was read and is still there is always recorded |
| `Updater.Device.DropParked` | rust/src/ota.rs:1010-1023 | a candidate parked by an interrupted rollback goes or is recorded |
| `Updater.Device.ClearAway` | rust/src/ota.rs:980-1023 | with nothing failing only the running binary is left; what is returned is what the journal may record |
| `Updater.Device.Abandoning` | rust/src/ota.rs:974-1043 | an update that never booted is cleared away and refused from then on |
| `Updater.Device.SettleUpdate` | rust/src/ota.rs:928-1047 | what starting up settles, case by case of the standing, when nothing fails, and what holds when anything does |
| `Updater.Device.Answer` | rust/src/commands.rs:129-131 | announcements are answered one after another, every one of them, until one is installed; with nothing failing that is the first that is acceptable, in the world it meets, and delivered |
| `Updater.Device.Process` | rust/src/commands.rs:116-133 | one process: it boots, settles to what settling comes to, and then, unless that ended it, answers every announcement up to one that is installed, and ends |
| `Updater.Device.LiveOnce` | rust/src/commands.rs:116-133 | a boot that goes all the way, unless the power goes at any point after it; what was flushed and what was not decides what is left |
| `Updater.Device.ImagesAreGenuine` | rust/src/ota.rs:553-562 | at every point of the device's own log, every image at the path or beside it was there first or a key signed its digest |
| `Updater.Device.PlainDigestsAreUnderstood` | rust/src/ota.rs:903-920 | a device that was announced only 64 digits never boots into what it cannot understand |
| `Updater.Device.OneDigestIsInstalledOnce` | rust/src/ota.rs:473-500 | a device that was announced one digest installed it at most once, and once more for each journal lost with its directory |
| `Updater.Device.Live` | rust/src/commands.rs:116-133 | any sequence of boots, announcements, probe answers and power cuts goes through every boot while there is something to boot, each as one process or cut short; leaves a good and genuine image at every point between two writes; and the two results above for what was announced in it |
| `Durable.UnseenStep` | rust/src/durable.rs:30-49 | a step that leaves the target's name and bytes alone cannot be seen at the target, before or after a power cut |
| `Durable.RenameStep` | rust/src/durable.rs:46-51 | renaming flushed bytes over the target leaves the whole old body or the whole new one |
| `Durable.DirectoryStep` | rust/src/durable.rs:53-58 | after the directory's flush a power cut leaves the new body, or nothing exactly if the directory was not there for good |
| `Durable.CutLeaves` | rust/src/durable.rs:25-29 | a power cut leaves a sane disk that reads as it was said it may, and on which nothing is in doubt |
| `Durable.EveryLeavingHasItsCut` | rust/src/durable.rs:25-29 | and everything it was said it may leave, some power cut does |
| `Durable.WriteShows` | rust/src/journal.rs:214-228 | of a record in a file, a write leaves the new one, or failing, the old state or the new record landed |
| `Durable.CutShows` | rust/src/journal.rs:200-212 | and a power cut one of those it may, or none with its directory |
| `Durable.FileSystem.Record` | rust/src/state.rs:96-100 | a save through `write_private` comes to exactly that, and returns Ok exactly if no operation failed |
| `Durable.RenamedTooSoon` | rust/src/durable.rs:46-51 | renaming before the bytes are flushed, a power cut may leave anything |
| `Durable.RenameNotFlushed` | rust/src/durable.rs:53-58 | without the directory flush, whatever a power cut might have left it still may |
| `Durable.FileSystem.EnsureDirectory` | rust/src/durable.rs:143-172 | the directory is there afterwards exactly if nothing failed, not more permanently than before, and nothing is to be seen at the target |
| `Durable.FileSystem.StartAfresh` | rust/src/durable.rs:34-43 | with nothing failing, a scratch file that is new and empty whatever an interrupted save left; and nothing to be seen at the target |
| `Durable.FileSystem.Fill` | rust/src/durable.rs:43-49 | the whole body written and flushed exactly if nothing failed; the target shows neither |
| `Durable.FileSystem.WritePrivate` | rust/src/durable.rs:30-58 | Ok from any sane disk, leftovers included, exactly if no operation failed; every disk on the way reads, and survives a power cut, as the old generation or the whole new one; after Ok as the new one alone, if and only if its directory was already there for good |
| `Durable.FileSystem.Live` | rust/src/durable.rs:30-58 | over any saves, failures and power cuts between or during them, with whatever an interrupted one left behind: a save that was not cut short is Ok exactly if none of its operations failed; what is read is one whole body, the last that returned Ok or one tried since; and nothing at all only until a power cut has spared the file |
| `Tokens.WelcomeExactlyBelowTwo` | rust/src/state.rs:5-10 | a power cut can leave a token the platform refuses if and only if two rotations are at risk: what the file may lag by and the one in hand; or any, in a directory that is not there for good |
| `Tokens.LockedOutOnlyAfterTwoLosses` | rust/src/renew.rs:124-178 | on any run, power cuts included, neither what the device would present nor, in a directory that is there for good, what a power cut may leave is refused before two losses since the last Ok save: answers that never arrived, and processes that ended with one in hand; and from two losses on something is, where no failed save landed |
| `Tokens.LockedOutWithNothingLost` | rust/src/durable.rs:143-155 | a run with two saved rotations and no loss, after which a power cut takes the directory and the device is locked out |
| `Tokens.BehindByWhatWasLost` | rust/src/renew.rs:157-167 | the file never lags by more than was lost, counted event by event, failed writes being none; and exactly by that where no failed save landed |
| `Tokens.PresentsWhatIsOnDisk` | rust/src/renew.rs:80-84 | every request presents the token on disk, or the configured one while there is none |
| `Tokens.RunKeeps` | rust/src/renew.rs:116-180 | the platform's generation is the oldest token the file may hold, plus what was lost since, plus what is in hand |
| `Tokens.TurnCatchesUp` | rust/src/renew.rs:129-178 | a turn of the renewal loop that hears an answer, or has one in hand, and can write leaves the platform's current token on disk and in memory, with nothing lost |
| `Tokens.Device.Enroll` | rust/src/enroll.rs:104-190 | one request: answered exactly if the platform takes the token presented and answers, and heard exactly if that answer arrives; a lost answer has rotated the token |
| `Tokens.Device.Store` | rust/src/state.rs:96-100 | one write of the state: written, or landed beside what a power cut may bring back, or not at all, as the disk has it |
| `Tokens.Device.Renew` | rust/src/renew.rs:129-178 | whatever each turn meets, exactly this is done: an answer in hand is written and nothing is asked; otherwise one request, and a write if it was answered |
| `Tokens.Device.AskFirst` | rust/src/lib.rs:846-869 | requests go on, each to what it must come to, up to the first that is answered or refused for good and no further |
| `Tokens.Device.SaveFirst` | rust/src/lib.rs:888-902 | a first identity is written until one write succeeds, SAVE_ATTEMPTS + 1 times at most, with no request in between |
| `Tokens.Device.FirstEnrollment` | rust/src/lib.rs:826-917 | without a name and a token nothing is asked and the process ends; with them it asks until answered, and is established exactly if that answer is written down in time; otherwise the process ends, the answer given up |
| `Tokens.Device.Establish` | rust/src/lib.rs:724-791 | a readable state is used as it is with nothing asked, an unreadable one ends the process, and its absence leads to that first enrollment |
| `Tokens.Device.LiveOn` | rust/src/lib.rs:724-917 | over any lives of the process, each established and renewed as above: at every moment its token is welcome, and so is what a power cut may leave in a directory that is there for good, unless two rotations were lost with no save between them |
| `Handover.HandoverIsCurrent` | rust/src/lib.rs:933-1001 | the handover after the k-th signal, if it succeeds, installs the certificate of the k-th renewal or a later one |
| `Handover.NeverBackwards` | rust/src/lib.rs:938-998 | certificates never go backwards, and a handover that could not read or was not answered in time changes neither the cell nor the polled connection, which goes on unretired |
| `Handover.CaughtUp` | rust/src/renew.rs:152-177 | with no signal outstanding after a successful handover, publishers present the newest saved certificate |
| `Handover.EndsOnlyWithTheDevice` | rust/src/lib.rs:1002-1007 | the supervisor lets the live connection go only once the device is gone; that the channel closes for no other reason is how the renewal loop is modelled |
| `Handover.OnlyAnsweredClientsAreUsed` | rust/src/lib.rs:938-1000 | the cell and the polled connection change, and the old one is retired, only after the broker took that very replacement; its word is never lost |
| `Handover.SaidWasAnswered` | rust/src/mqtt.rs:411-420 | a loop has told of the broker's answer only if there was one since the file was read for it |
| `Handover.AnsweredWasSaid` | rust/src/mqtt.rs:411-420 | and it has told of it whenever there was one |
| `Handover.Device.Pump` | rust/src/mqtt.rs:401-472 | over any polls a loop that is not retired goes on, and has told of the broker's answer exactly once there was one; a retired one ends at its first failure, and can tell only what its next poll brings |
| `Handover.Device.Await` | rust/src/lib.rs:973-986 | the wait for the replacement ends with its word exactly if the broker took it since the file was read, and otherwise with the timeout; never because the word was dropped |
| `Handover.RunKeeps` | rust/src/renew.rs:106-122 | every save has its one signal, and what the supervisor holds is never older than the signals it took |
| `Handover.Device.Renew` | rust/src/renew.rs:139-178 | an answer is saved before it is signalled, and each save is signalled once, as soon as there is room |
| `Handover.Device.HandOver` | rust/src/lib.rs:938-1000 | with the other side interleaved anywhere, it succeeds exactly if the file could be read and the broker took the replacement before the wait ended; success installs a current certificate in cell and connection both, and failure leaves both |
| `Handover.Device.Next` | rust/src/lib.rs:933-951 | a signal that is there is taken and handed over; the end comes only when there will be none; and nothing is done only if there is none yet |
| `Handover.Device.Supervise` | rust/src/lib.rs:924-1008 | signal after signal the cell never goes back; one that was not handed over had a file that could not be read or a wait that timed out; if none of those happened, publishers have at least the certificate of the last signal taken; and it ends only with the device |
| `Schedule.KeepsThreeQuarters` | rust/src/renew.rs:47-62 | never wakes before it is due, keeps three quarters of the slack, and wakes strictly before expiry while there is any |
| `Schedule.ExpiredWakesAtOnce` | rust/src/renew.rs:54-59 | an expired certificate is renewed at once whatever is drawn |
| `Schedule.LaterIsNoSooner` | rust/src/renew.rs:47-62 | as the server's clock advances the wait never grows and the instant it ends never moves earlier |
| `Schedule.SpreadReachesEverywhere` | rust/src/renew.rs:19-28 | every delay within the quarter is some draw's |
| `Schedule.SpreadFollowsTheDraw` | rust/src/renew.rs:47-62 | the delay past the due time is the drawn share of a quarter of the slack, rounded down to a millisecond |
| `Schedule.InTime` | rust/src/renew.rs:197-212 | an instruction before the deadline is taken, one after it is not, and at the deadline whichever is looked at first |
| `Schedule.WaitOut` | rust/src/renew.rs:192-226 | ends early exactly when an instruction newer than the certificate comes in time, and otherwise at the original deadline |
| `Schedule.RisingFits` | rust/src/renew.rs:184-191 | waits ended by rising instants are no more than there are instants |
| `Schedule.Renewals` | rust/src/renew.rs:134-178 | each wait meets what the one before left in the channel and what came since, and leaves what it did not take; from a server that issues at or after what it asked, early renewals are at most the distinct instants asked for, however often each is delivered |
| `LogQueue.LossIsReported` | rust/src/upload.rs:142-235 | lines gone and not delivered are at most the drops reported and outstanding, and exactly that if and only if every settle found what it sent |
| `LogQueue.SettleBalances` | rust/src/upload.rs:227-235 | settling keeps the accounts, and the batch it delivers lies past every delivered one |
| `LogQueue.SettleLosesUnsent` | rust/src/upload.rs:227-235 | a settle takes a line that was in no delivered batch if and only if drops were counted since the batch was taken and the queue holds more than what is left of it |
| `LogQueue.LostForGood` | rust/src/upload.rs:142-235 | a lost line stays lost through each operation: a push, a drop, a batch, a settle |
| `LogQueue.UnsentLineLost` | rust/src/upload.rs:142-235 | a queue with one line taken, a large one pushed, and the batch settled: the large line is gone, in no batch, and the one drop counted is the small line's |
| `LogQueue.WeightIsLength` | rust/src/upload.rs:87-95 | what counts against the ceilings is the length of the messages and 64 more for each line |
| `LogQueue.Queue.Push` | rust/src/upload.rs:142-159 | the line joins, the oldest go until what is left fits, and not one more |
| `LogQueue.Queue.Expire` | rust/src/upload.rs:168-182 | lines go from the front while they are older than a week, up to the first that is not |
| `LogQueue.Queue.IsReady` | rust/src/upload.rs:184-202 | a batch is due exactly if there is a line, and half a megabyte of them or one that has waited a minute |
| `LogQueue.Queue.Fit` | rust/src/upload.rs:208-220 | the longest front run within the limit, or one line alone that is over it |
| `LogQueue.Queue.Take` | rust/src/upload.rs:208-225 | a batch is what fits after expiry, with the drops so far, and the lines stay |
| `LogQueue.Queue.Settle` | rust/src/upload.rs:227-235 | as many lines leave as were sent and the reported drops are taken off |
| `LogQueue.Send` | rust/src/upload.rs:365-429 | a send with nothing in the way shortens the queue, and keeps what it did not take |
| `LogQueue.Drain` | rust/src/upload.rs:365-429 | taking and settling empties the queue, and what is recent is sent once and in order |
| `LogQueue.LookSends` | rust/src/upload.rs:373-429 | a look sends a batch exactly if one is due, some line is not older than a week, and the send works |
| `LogQueue.LookOnce` | rust/src/upload.rs:373-429 | one look, line for line: nothing is touched before a batch is due; then what is too old goes, the longest front run that fits is sent, and it leaves the queue only if it went |
| `LogQueue.Flush` | rust/src/upload.rs:365-429 | over any interleaving of pushes with the flusher's batches, sends and settles, every look does as above, so no batch that is due waits; the batches sent are stretches of the lines pushed, in order and none overlapping, none with a line that was lost before, and the accounts hold |
| `Packet.DecodedInvertsEncoded` | rust/src/mqtt.rs:99-108 | the packet measured is one a receiver reads back: topic, quality, identifier and payload |
| `Packet.LengthTakes` | rust/src/mqtt.rs:116-126 | the table of sizes is the length of the standard's encoding if and only if four bytes can hold it |
| `Packet.SizeIsExact` | rust/src/mqtt.rs:109-114 | the size computed is the encoded packet's length if and only if it can be encoded |
| `Packet.LongerIsLarger` | rust/src/mqtt.rs:109-114 | strictly increasing in the payload |
| `Packet.Check` | rust/src/mqtt.rs:55-71 | accepts exactly the messages whose encoding fits the broker's limit |
| `Codec.UnhexInvertsHex` | rust/src/ota.rs:1409-1431 | reading back a printed digest gives its bytes |
| `Codec.HexInvertsUnhexIffCanonical` | rust/src/ota.rs:1418-1431 | printing what was read gives the text back, up to case, if and only if it was 64 digits |
| `Codec.Unbase64` | rust/src/ota.rs:1440-1468 | the shifting loop computes the arithmetic reading of section 4 of RFC 4648, faults included |
| `Codec.DecodedInvertsBase64` | rust/src/ota.rs:1555-1573 | that reading inverts the encoder on every non-empty byte string, with padding and white space put in anywhere |
| `Codec.SymbolIsStandard` | rust/src/ota.rs:1445-1450 | each of the 64 symbols is the one in table 1 of RFC 4648, with its value there |
| `Codec.AlphabetIsStandard` | rust/src/ota.rs:1445-1454 | no other character is read, and none is passed over but padding and white space |

## Left out

- TLS, ECDSA, SHA-256, key generation and PEM: foreign libraries, here predicates and digests.
- HTTP, redirects and url checks beyond what the download does with a reply; one flag says whether the url was encrypted.
- Versions, events, progress percentages, `meta/firmware` and log texts: they decide nothing.
- Command routing, diagnostics, the probe registry and how a probe is run; a gate is the list of its probes' answers.
- `service.rs`, launchd, systemd: something boots whatever is at the path.
- Real time for the probation deadline: it is looked at only at startup, so boots are bounded and hours are not.
- A power cut between the two renames of a swap leaves nothing at the path, so nothing boots. What is preserved then is proved, not that the device comes back.
- Tampering by an operator or another program. The hashes before a restore and before a deletion are in the contracts.
- `usable`, its clock check and its two hour margin, and the paces of backoff: they only choose how long to wait.
- Reconnecting inside the MQTT client, which of two connections the broker keeps, and draining the old one.
- Topic rules other than the length of a topic.
- File modes, permissions and the macOS path of the binary.
- Text that is not ASCII. A digest of 64 bytes whose pairs split a character is not modelled.
- Floating point: the spread is computed over real numbers, and instants are whole milliseconds.
- Machine integers other than the attempt counter; sizes and byte counts are unbounded.
- Messages of the log are byte strings.
- Poisoned locks and panics; a connection's loop that panicked would drop its word.
- Updater.Device.Install: the choice between refusals that apply at once is the code's, and what is said with each is not compared.
