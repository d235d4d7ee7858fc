# Verified model of herdr-eternal

herdr-eternal runs a command on a remote host and keeps it attached to a local
client over connections that break, are silently blackholed, or outlive the
daemon process. This project models the protocols it relies on in Dafny 4.11
and proves what they promise. `dafny verify dfyconfig.toml` checks everything.

## The resume protocol

`ResumeModel` is one transition system made of

* the client of `run_exec`: its counters, its resend list, its connection;
* any number of connections, lingering ones included, each with two frame
  queues and two bags of datagram copies that may be lost, delayed, reordered
  or seen twice, and each with the attachment loop that serves it;
* the session task, with the two halves of a log push as separate steps;
* one log and registry entry per daemon instance, and the handover, restore,
  shutdown and expiry steps between them;
* histories: what the child wrote and was given, the exit code that was read,
  what was typed at the client, which messages it made of that, and which live
  sends failed.

The step functions are those that the imperative classes are proved against:
`OutboundLog.Log`, `SessionTask.Runner`, `ExecClient.Exec` and
`AttachLoop.Attachment` follow the source statement by statement, and their
contracts tie each method to the function that the transition system uses.
`TaskRuns` tells what a run of the task's loop amounts to from what it read, and
`TaskRefinement` shows that every run of the system takes its task through such
a run.
`ResumeInvariant` states the invariant, `ResumeOutput` and `ResumeInput` show
that every step keeps it, and `ResumeTheorems`, `ResumeStdin`,
`ResumeRecovery`, `ResumeDraining`, `ResumeStranded`, `ResumeRestart` and
`ResumeLingering` draw the conclusions.

A stream delivers a prefix of what was sent, in order (section 2.2 of RFC
9000); a lost or dead connection is one on which no further step is taken.

## The smaller protocols

* `Handover`: naming, storing and regrouping the pipes of handed-over sessions.
* `Framing`: message encoding, length-prefixed frames, the cancel-safe reader.
* `AttachGuard`: the attach counter and its timestamp as separate atomic steps.
* `AgentHub`, `AgentSafety`, `AgentTheorems`, `AgentEndings`: agent connections
  multiplexed over channels that replace each other.
* `OidcRefresh`: any number of processes refreshing one token cache against an
  issuer with single-use refresh tokens.
* `DevicePolling`, `SshArgs`: the two argument and polling loops.

## What turned out not to hold

* A live stdin send that fails leaves the loop before its message is kept
  (client/src/lib.rs:319-323), so "byte-exact in both directions"
  (client/src/lib.rs:219-222) is false of input. `SomeRunLosesInput` gives a
  run; `StdinIsExactIff` says exactly when input is exact, also for sends that
  report a failure although their frame got through; `KeepingFirstIsExact`
  proves that keeping the message before sending it repairs every run.
* `detached_at` is said to be `None` while a client is attached
  (server/src/lib.rs:500). Counter and timestamp are updated in two steps, and a
  drop overtaken by a new connection leaves a timestamp on an attached session
  (`AttachedSessionCanExpire`); `UnmarkedIffStampsAlone` has the exact condition.
* A session whose task has ended is not handed over even when its Exit was not
  acknowledged, so a restart loses the exit code of a client that is away:
  `SomeRestartLosesTheExit` gives a run for every code, `RestartLosesTheFinished`
  shows that a daemon which ends has no way to keep such a session,
  `RestartKeepsIffCollected` that the end of a daemon spares a session exactly
  when its task had answered and the record was collected, and
  `RestartCanKeepIff` that some restart keeps it exactly when its task has not
  come to its end.
* Below the trim point a log gives fewer entries than it is asked for
  (`ReplaysExactlyIff`), and in some run a lingering attachment gets there
  (`SomeLingererFallsBehind`); `CursorIsCorrect` shows that this never happens
  on the connection the client reads.
* A message that compresses into a frame but whose plain form exceeds the frame
  limit is sent and cannot be decoded (`DecodeUndoesEncode`, `MessageArrivesIff`);
  `CompressibleArrivesIff` has such messages of every size, for a codec that
  does compress.
* The sweep selects expired sessions and removes them in a second step, so it
  aborts a session that a client has attached to in between
  (`SomeSweepHitsTheLiving`). `LivingIsSweptIff` tells from the guards' own steps
  exactly when somebody is attached by then: a guard came and stayed, or was
  attached already, under a timestamp set too late.
* A caller that is lost between the issuer's answer and the store takes the
  only live refresh token with it (`SomeRunShowsASpentToken`).
* With an interval of zero the device-code loop need not end; it is bounded if
  and only if there is an interval or requests take time (`PollingEndsIff`).

## Model

| member | source | states |
|---|---|---|
| OutboundLog.ReplaysExactlyIff | server/src/lib.rs:417-421 | up to the end of the log, reading past a position gives exactly the history from there on if and only if it was not trimmed away; below, all that is left |
| OutboundLog.TrimKeepsTail | server/src/lib.rs:423-430 | a trim keeps the log a tail of the history with the same end, and never goes past the acknowledged number or back |
| OutboundLog.TrimDropsExactly | server/src/lib.rs:423-430 | of the entries a log holds, a trim drops exactly those numbered up to the acknowledged one |
| OutboundLog.TrimKeepsReplay | server/src/lib.rs:417-430 | a position that is not trimmed away replays the same after any trim |
| OutboundLog.TrimsCommute | server/src/lib.rs:423-430 | trims from several connections act like the largest, in either order |
| OutboundLog.Log.Push | server/src/lib.rs:409-415 | the entry is appended and the published number is its own |
| OutboundLog.Log.TrimTo | server/src/lib.rs:424-430 | the popping loop is the trim function, for numbers beyond the end as well |
| OutboundLog.Log.ReplayAfter | server/src/lib.rs:417-421 | the copy returned is the buffered suffix, saturating below the trim point |
| OutboundLog.Log.Snapshot | server/src/lib.rs:436-441 | what a snapshot holds, restored, replays from every position like the log itself |
| SessionTask.RunKeepsSettled | server/src/lib.rs:818-948 | over every run of the loop the counter, the published number and the end of the log agree, and a loop that returned has an Exit last, after both streams ended |
| TaskRuns.AllOutputIsLogged | server/src/lib.rs:825-843 | over every run, told from the reads alone: the bytes logged are all that a stream gave up to its first empty read, in order, and a stream stays open until then |
| TaskRuns.ReturnsIff | server/src/lib.rs:844-860 | the loop returns if and only if both streams ended and a code was read, in whatever order, and the Exit it logs last carries the first code read |
| TaskRefinement.StepRefinesLoop | server/src/lib.rs:794-948 | to the task's loop, each step of the system is one turn, one trim or nothing, the two halves of a push and the logging of the Exit included |
| TaskRefinement.RunRefinesLoop | server/src/lib.rs:794-948 | so every run of the system between the start and the end of a daemon's loop is a run of that loop |
| TaskRefinement.LoopStartsAndStops | server/src/lib.rs:344-386 | the loop starts fresh or from the record, and the record is made of it as it stands |
| SessionTask.RecloseRestores | server/src/lib.rs:344-386 | a restored session that has re-read its end-of-files is the one handed over |
| SessionTask.HandoverIsTransparent | server/src/lib.rs:890-926 | stopping after any turns and trims, recording, restoring and going on equals never having stopped, for every continuation, but for entries trimmed after the record was made |
| SessionTask.HandoverIsTransparentInAnyOrder | server/src/lib.rs:344-386 | the same wherever among the later turns and trims the extra end-of-file reads fall |
| SessionTask.SameReplay | server/src/lib.rs:417-430 | two logs that differ in trims replay the same past what either trimmed |
| SessionTask.Runner.Handle | server/src/lib.rs:823-948 | one iteration of the select loop is the transition function, exit check included |
| SessionTask.Runner.OnInput | server/src/lib.rs:862-889 | which stream and datagram inputs are applied, and that the shared counter follows |
| SessionTask.Runner.GiveBack | server/src/lib.rs:890-926 | the record holds counters, unacknowledged log, exit code and open roles, and each open pipe is given back once under its role |
| ExecClient.Exec.HandleMessage | client/src/lib.rs:336-362 | what each message does to counters, output and resend list, and what is sent back |
| ExecClient.Exec.RetainAbove | client/src/lib.rs:354-360 | the filtering loop is the function `Retained`, which the next two rows describe |
| ExecClient.RetainedIff | client/src/lib.rs:354-360 | a message is kept if and only if it was there and is not input the Ack covers |
| ExecClient.RetainedIsTheRest | client/src/lib.rs:354-360 | of numbered input, what is kept is the rest of the list from the first message above the Ack on |
| ExecClient.Exec.HandleStdin | client/src/lib.rs:310-324 | the method is the step function of reading input, whose bytes `StdinIsAccounted` compares with what was typed; a failed send keeps nothing |
| ResumeTheorems.StepKeepsInv | server/src/lib.rs:794-1086 | every step of client, attachments, task and daemons keeps the invariant |
| ResumeTheorems.OutputIsExact | client/src/lib.rs:325-348 | in every reachable state the bytes written are exactly those of entries 1 to the counter, so a prefix of what the child wrote |
| ResumeTheorems.ExitIsComplete | client/src/lib.rs:349-353 | a code is returned only after every byte the child wrote was written and both its streams ended, and it is the code that was read from the child, though the arm checks no number |
| ResumeTheorems.TrimIsSafe | server/src/lib.rs:1050-1051 | no Ack anywhere in flight and no trim point runs ahead of the client, and the serving or restored log can replay all it still needs |
| ResumeTheorems.CursorIsCorrect | server/src/lib.rs:1001-1010 | on the connection the client reads, the counter is at or above the trim point and equals the number of the last message sent |
| ResumeTheorems.ClientTestIsStrict | client/src/lib.rs:382-384 | the next stream frame is at most one ahead, so the loose and the strict test accept the same frames |
| ResumeTheorems.LogIsWellFormed | server/src/lib.rs:392-453 | across daemons, buffer index i carries number trimmed+i+1, the counters agree between steps, and Exit is single, last and after both streams |
| ResumeTheorems.NoWakeupIsLost | server/src/lib.rs:1001-1031 | a waiting attachment has seen every entry, has an unseen version, or a push is between its two halves; after Exit there is nothing to wait for |
| ResumeTheorems.RemovalIsSafe | server/src/lib.rs:1050-1057 | a token leaves the registry only when the client has the code, a record carries the unacknowledged log, the session expired, or the daemon ended without a record of it |
| ResumeStdin.StdinIsAccounted | server/src/lib.rs:862-886 | the messages hold what was typed, byte for byte, with an end of input exactly when typing ended; the task has applied the input up to its counter, once and in order, end of input last, except failed sends it passed over, and all sent input above is in the resend list |
| ResumeStdin.ChildReadsWhatWasTyped | client/src/lib.rs:310-324 | as long as nothing was passed over the child has read a prefix of what was typed, and all of it and its end once everything is applied to a child that still reads |
| ResumeStdin.StdinIsExactIff | client/src/lib.rs:310-324 | the applied input is the input read up to the counter if and only if nothing was passed over: always without a failed send, never with one that left no frame, and exactly without failed sends where a failure leaves none |
| ResumeStdin.PassedOverIff | server/src/lib.rs:864-886 | a message up to the counter is missing if and only if it was passed over, which happens to failed sends only |
| ResumeStdin.FailedSendIsLost | client/src/lib.rs:319-323 | a message whose live send failed without a frame on the stream is never applied |
| ResumeStdin.ServerTestIsStrict | server/src/lib.rs:864-886 | the task's loose test never jumps over sent input, and without failed sends accepts exactly the next number |
| ResumeStdin.CopyCountsIffNext | client/src/lib.rs:382-384 | a datagram copy counts, for task and client alike, if and only if the stream message would and no number is missing before it |
| ResumeStdin.SmallMessagesAreCopied | proto/src/lib.rs:134-142 | with datagrams, exactly stdio of at most 512 bytes is sent twice |
| ResumeStdin.KeepingFirstIsExact | client/src/lib.rs:319-323 | with send and keep exchanged, input is exact in every run, a prefix of what was typed, and output stays exact |
| ResumeRecovery.ResumeRecovers | client/src/lib.rs:393-430 | from every reachable state with a session that is registered or between two daemons, some continuation delivers all logged output, and the code |
| ResumeRecovery.InputRecovers | client/src/lib.rs:283-290 | while the task takes input, or is between two daemons, some continuation applies all input ever sent successfully |
| ResumeRecovery.FailedSendCanLose | client/src/lib.rs:319-323 | from any live state a failed send followed by a good one can end with the first message gone and the second applied |
| ResumeRecovery.SomeRunLosesInput | client/src/lib.rs:319-323 | for any two pieces of input a run of a fresh exec loses the first and applies the second |
| ResumeDraining.AckIsHeeded | client/src/lib.rs:354-360 | in every reachable state, receiving an Ack takes exactly the input it covers off the resend list |
| ResumeDraining.ResendListDrains | server/src/lib.rs:1012-1018 | while the task takes input, or is between two daemons, some continuation applies all input sent and leaves the resend list empty |
| ResumeDraining.LogDrains | client/src/lib.rs:325-348 | while the client has output to consume, some continuation brings it all of that and leaves the running daemon's log empty |
| ResumeDraining.SessionCompletes | server/src/lib.rs:1050-1058 | a finished, registered session can always be completed: the client gets every byte and the code, and its confirmation unregisters the token |
| ResumeStranded.OnlyTheLastDaemonResumes | server/src/lib.rs:311-313 | in every reachable state only the daemon that runs now would accept a resume, and none once the session is handed over |
| ResumeStranded.StrandedForEver | server/src/lib.rs:294-300 | when the task has ended and no daemon knows the session, a client that is away gets no byte and no code in any continuation |
| ResumeStranded.FinishedSessionNeedsItsDaemon | server/src/lib.rs:294-313 | after the Exit is logged, an absent client can still get the code if and only if the daemon that runs now has the session registered |
| ResumeStranded.RestartKeepsIffCollected | server/src/lib.rs:293-314 | when its daemon ends, an absent client can still get the code if and only if the task had answered and its record was collected |
| ResumeStranded.RestartLosesTheFinished | server/src/lib.rs:294-300 | a finished session has no way through the end of its daemon: the code could be had before and never after |
| ResumeStranded.SomeRestartLosesTheExit | server/src/lib.rs:294-300 | for every code, a run that logs it while the client is away and then loses it to a restart |
| ResumeRestart.RestartCanKeepIff | server/src/lib.rs:290-314 | some restart carries a registered session over, and its code to an absent client, if and only if its task has not come to its end |
| ResumeRestart.RegisteredIsNotToldToStop | server/src/lib.rs:531-535 | a task is told to stop only after its token left the registry |
| ResumeRestart.UnknownIffToldToStop | server/src/lib.rs:527-537 | while a task goes on, its session is unknown if and only if it has been told to stop, so none is left running out of reach |
| ResumeLingering.SomeLingererFallsBehind | server/src/lib.rs:1003-1010 | for any first output, a run in which a given-up attachment is served from below the trim point |
| AttachLoop.AllSentIs | server/src/lib.rs:1003-1010 | the replay loop, turn by turn, sends the batch in order, copies the small messages and advances by the count |
| AttachLoop.Attachment.Replay | server/src/lib.rs:1003-1010 | the loop over the log's copy does that to the connection |
| AttachLoop.Attachment.ReportStdin | server/src/lib.rs:1012-1018 | applied input is reported only when the number advanced |
| AttachLoop.Attachment.TakeAck | server/src/lib.rs:1050-1058 | an Ack trims the log, and completes the session exactly when it covers the Exit sent here |
| Handover.SplitUndoesName | server/src/lib.rs:336-342 | splitting at the last dot recovers token and role, whatever dots the token has |
| Handover.NameUndoesSplit | server/src/lib.rs:336-342 | a name that splits is the name of its parts, and only dotless names do not split |
| Handover.GroupFinds | server/src/lib.rs:335-343 | a session finds under a role the pipe that came last under its token and role, and none if none came |
| Handover.Regroup | server/src/lib.rs:335-343 | the loop over the returned pipes computes that grouping |
| Handover.HandOverAll | server/src/lib.rs:283-319 | records, pipes and removals are those of exactly the resumable sessions whose task was alive and answered |
| Handover.StoredAreUnique | server/src/lib.rs:308-310 | no two stored pipes have the same name |
| Handover.EachSessionGetsItsPipes | server/src/lib.rs:335-364 | in whatever order the stored pipes come back, each session gets exactly its own |
| Handover.SessionComesBack | server/src/lib.rs:283-389 | a session stopped, recorded, stored among others, regrouped and restored goes on as if never stopped |
| Framing.Codec.DecodeUndoesEncode | proto/src/lib.rs:99-128 | decoding undoes encoding if and only if a compressed body fits the decompression limit |
| Framing.Codec.EncodeIsNoLonger | proto/src/lib.rs:99-113 | the encoding is never longer than tag and plain form, nor, from 64 bytes on, than tag and compressed form; below, it is the plain form |
| Framing.PrefixKeepsOrder | proto/src/lib.rs:152-158 | length prefixes compare, first differing byte first, as the lengths do |
| Framing.FrameDecoder.NextFrame | proto/src/lib.rs:184-198 | the next frame or error and the bytes left, as a function of the buffer |
| Framing.FrameComesBack | proto/src/lib.rs:152-198 | a body comes back from its frame if and only if it is within the limit, the length prefix wrapping at 32 bits |
| Framing.PartialFrameWaits | proto/src/lib.rs:184-194 | less than a frame gives nothing and loses nothing |
| Framing.OversizedSticks | proto/src/lib.rs:189-191 | an oversized header keeps failing and consumes nothing, whatever follows |
| Framing.ReassemblyIsExact | proto/src/lib.rs:164-198 | for every chunking and every interleaving of pushes and pops, the frames are a prefix of those sent and the buffer exactly the undelivered bytes |
| Framing.NothingIsHeldBack | proto/src/lib.rs:184-198 | once popping stops, every frame that arrived whole was delivered |
| Framing.MessageArrivesIff | proto/src/lib.rs:99-198 | a message passes encoder, frame and decoder if and only if it is deliverable |
| Framing.CompressibleArrivesIff | proto/src/lib.rs:99-158 | with a codec that compresses, a message of any size arrives if and only if its plain form fits the limit |
| Framing.CompressedArrivesIff | proto/src/lib.rs:99-128 | from 64 bytes up to 2^32 - 1 it is compressed, framed and received, and beyond the limit refused by the decompressor |
| Framing.MessagesComeThrough | proto/src/lib.rs:99-198 | the frames popped decode to a prefix of the messages sent |
| Framing.StdioIsDeliverable | proto/src/lib.rs:148-149 | every stdio message of at most 16 KiB is deliverable with a serializer of small overhead |
| Framing.Next | client/src/channel.rs:136-152 | every byte taken off the stream is in the frame returned or in the buffer, cancelled or not, nothing is read while a whole frame is there, and the buffer stays within MAX_FRAME + 3 + 65536 bytes |
| AttachGuard.NoSessionLeaks | server/src/lib.rs:506-579 | under every interleaving the counter counts the guards, and an idle session has a timestamp and will be selected |
| AttachGuard.UnmarkedIffStampsAlone | server/src/lib.rs:500-524 | a timestamp is absent throughout every attachment if and only if none is set while another connection is attached |
| AttachGuard.AttachedSessionCanExpire | server/src/lib.rs:510-524 | a run that leaves a timestamp on an attached session, which the sweep selects |
| AttachGuard.SweepSparesTheLiving | server/src/lib.rs:564-579 | with guard operations atomic, the counter is the number of attached guards, a timestamp means there are none, and the sweep selects only sessions nobody was attached to for the whole timeout |
| AttachGuard.DropIsOnesOwn | server/src/lib.rs:511-523 | then one drop detaches one guard and no other, with a timestamp exactly when it was the last, and attaching clears it |
| AttachGuard.Session.NewGuard | server/src/lib.rs:511-515 | the method does to counter and timestamp what both steps of an attaching guard do |
| AttachGuard.Session.DropGuard | server/src/lib.rs:519-523 | and the drop what both steps of a leaving guard do, whoever else is attached |
| AttachGuard.LivingIsSweptIff | server/src/lib.rs:506-537 | under every interleaving of the guards' steps, somebody is attached to a selected session when it is removed if and only if a guard finished attaching in between, or was attached already, and did not leave |
| AttachGuard.OnlyNewcomersAreSweptIff | server/src/lib.rs:506-537 | if no timestamp was set while another connection was attached, nobody is attached at the selection, and only those who came since are hit |
| AttachGuard.LookingAgainSpares | server/src/lib.rs:527-537 | with guard operations atomic, a second look at the timestamp before the removal would tell exactly whether somebody is attached, and an abandoned session still expires |
| AttachGuard.SomeSweepHitsTheLiving | server/src/lib.rs:527-537 | even with guard operations atomic, and whatever the timeout, a session that was just attached to is removed |
| AttachGuard.SessionRegistry.Expired | server/src/lib.rs:564-579 | the selection is exactly the sessions detached for the timeout |
| AttachGuard.SessionRegistry.Expire | server/src/lib.rs:531-535 | exactly the selected sessions leave the registry and are aborted |
| AgentHub.Hub.Detach | server/src/agent.rs:225-234 | only the channel attached last gives up the attachment |
| AgentHub.Hub.OpenStream | server/src/agent.rs:146-152 | a fresh id, announced to the attached channel or forgotten again |
| AgentHub.Hub.SendToChannel | server/src/agent.rs:111-116 | a message goes to the end of the newest channel's queue, or nowhere |
| AgentHub.Hub.Deliver | server/src/agent.rs:205-209 | data reaches the stream with its id and no other |
| AgentHub.Hub.CloseStream | server/src/agent.rs:210-212 | only the stream with that id is forgotten |
| AgentSafety.StepKeepsInv | server/src/agent.rs:139-236 | every step of relays, channels and clients keeps the invariant |
| AgentTheorems.StreamIsInOrder | server/src/agent.rs:139-184 | over all channels together a stream's messages are a first part of one Open, its chunks in order, one Close |
| AgentTheorems.AnnouncedOnce | server/src/agent.rs:146-152 | no two announcements on any channels carry the same id |
| AgentTheorems.IdIsNew | server/src/agent.rs:146 | an id given out was never used, and a client's stream belongs to the channel it was announced on |
| AgentTheorems.AgentHearsItsProgram | client/src/agent.rs:51-98 | what the agent is given is a first part of what that stream's program wrote, and all of it on a drained, unreplaced channel |
| AgentTheorems.ProgramHearsItsAgent | server/src/agent.rs:196-222 | what the program is given is a first part of what the agent said on that stream, and all of it while open and drained |
| AgentTheorems.TeardownSparesTheNewest | server/src/agent.rs:225-234 | requests go to the channel attached last until it is torn down; tearing down any other changes nothing |
| AgentEndings.ProgramsEndArrives | server/src/agent.rs:182-184 | when a program's stream is gone, the client on its attached, drained channel has closed it, having been given all that was passed on |
| AgentEndings.AgentsEndArrives | client/src/agent.rs:101-140 | when an agent connection ended first and its channel is up and drained, the server's stream is closed |
| OidcRefresh.TokenCache.LookLocked | client/src/oidc.rs:163-171 | the second look: a token good for the margin, a refresh token to use, or logged out |
| OidcRefresh.TokenCache.Store | client/src/oidc.rs:185-192 | the new tokens are stored, with the old refresh token where the response names none |
| OidcRefresh.RefreshIsExclusive | client/src/oidc.rs:161-171 | at most one caller is between its second look and its store |
| OidcRefresh.NoSpentTokenIsShown | client/src/oidc.rs:154-193 | a refresh token shown is spent if and only if an earlier caller was lost between answer and store |
| OidcRefresh.CacheStaysLoggedIn | client/src/oidc.rs:185-192 | over every run the cache never loses its refresh token, rotated or not |
| OidcRefresh.LossIsForGood | client/src/oidc.rs:171-184 | after such a loss the issuer grants nothing any more, in all that follows |
| OidcRefresh.WaiterIsServedIff | client/src/oidc.rs:161-193 | logged in, a waiting caller's undisturbed turn ends with a token if and only if the cached one is still good or no replacement was lost, and asks the issuer, once, only for want of a good one |
| OidcRefresh.ExpiryCostsOneGrant | client/src/oidc.rs:154-193 | grants are at least a lifetime less the margin apart, and the issuer counts no more than fit |
| OidcRefresh.ReturnedTokenIsGood | client/src/oidc.rs:154-159 | a token returned has not expired at the issuer, provided it was stored within the margin |
| OidcRefresh.SomeRunShowsASpentToken | client/src/oidc.rs:171-192 | the run in which a lost answer makes the next caller show a spent token |
| DevicePolling.PollForTokens | client/src/oidc.rs:117-146 | the loop's sleeps and outcome are those of the recursive session function |
| DevicePolling.WaitIs | client/src/oidc.rs:131-140 | the i-th sleep is base plus five seconds per slow_down so far, or a longer Retry-After |
| DevicePolling.NoSleepOutlivesTheCode | client/src/oidc.rs:142-145 | no sleep ends after the deadline |
| DevicePolling.OutcomeIs | client/src/oidc.rs:119-146 | the session ends at the first grant, refusal or error or the first sleep that would not fit, and reports that: tokens exactly when some were granted |
| DevicePolling.PollingEnds | client/src/oidc.rs:117-146 | with an interval of a second, or requests that take one, polling ends within the code's life |
| DevicePolling.ZeroIntervalNeverEnds | client/src/oidc.rs:117-146 | with neither, it goes on for as long as the reply is pending |
| DevicePolling.PollingEndsIff | client/src/oidc.rs:117-146 | some number of rounds bounds every session if and only if there is an interval or requests take time |
| SshArgs.ParseSshArgs | client/src/main.rs:17-62 | the nested loops compute the recursive search for the target |
| SshArgs.ParseUndoesPrint | client/src/main.rs:27-51 | target and command come back from any printing of bundled, attached and detached options, and after `--` for any target |
| SshArgs.ValuedOption | client/src/main.rs:22-48 | every option letter of ssh that takes a value is passed over with it, attached or not |
| SshArgs.PlainOption | client/src/main.rs:22-51 | every other letter is passed over alone, also bundled before a valued one |
| SshArgs.HerdrsCommandLine | client/src/main.rs:1-4 | the command lines herdr writes give back target and command, whatever they are filled with |
| SshArgs.OptionsAloneAreRejected | client/src/main.rs:53-54 | options without a target are no command line |
| SshArgs.SplitUndoesJoin | client/src/main.rs:55-59 | the joined command keeps its words in order |

## Left out

- postcard, zstd and serde_json internals: `Framing.Codec` assumes a serializer and a compressor with inverses.
- TLS, QUIC and WebSocket setup, and WebSocket message framing: configuration and internals of other libraries.
- JWT verification, configuration files, login prompts, process spawning and systemd calls: foreign calls and plumbing.
- Keepalive timing: a connection may be given up at any time, which covers every timing.
- Progress of the session task: a blocking write to the child stalls output, and nothing wakes an attachment for an Ack of input, so only safety and the existence of a recovering continuation are claimed.
- A daemon that ends between the two halves of a push, and the attachments that end with it: a daemon that ended goes on serving the connections it has, which allows more than can happen.
- Sessions that are not resumable: the client always asks for a resumable one.
- The `changed.is_err()` branch of `attach`: the attachment itself keeps the sender alive.
- A half-read exit line: the code line is read whole.
- Wrap-around of 64-bit counters.
- SessionTask.HandoverIsTransparent: the conversions of pipes to descriptors are taken to succeed.
- AgentTheorems.StreamIsInOrder: the wait for a channel before an id is given out is left to any time, and the socket's own creation is not modelled.
- OidcRefresh.NoSpentTokenIsShown: no login runs at the same time, and a request given up by its caller does not reach the issuer later.
- DevicePolling.WaitIs: parsing of the Retry-After header is not modelled; the delay is a number of seconds.
- The retry delay between reconnects, and the re-login of an expired target in the middle of a session.
