# Verified model of the audio subsystem and the battery display

This project models, in Dafny 4.11, the audio player of a battery diagnostic device
(`Source/Libs/Audio`) and the small fixed-point display of battery readings
(`Source/Core/core.cpp`, `Source/Libs/Battery/Battery.cpp`), and proves what they promise
over every input, every run and every interleaving of threads. `dafny verify dfyconfig.toml`
checks all of it.

| file | what it models |
|---|---|
| `Common.dfy` | 16-bit integers and options |
| `Music.dfy` | track tables, arbitrary ones and the shipped ones |
| `Player.dfy`, `PlayerRuns.dfy` | one player iteration as a function, the declarative rendering, and what holds of whole runs |
| `PlayerThread.dfy` | the player loop as it runs, on top of the speaker driver |
| `Period.dfy`, `Speaker.dfy` | period arithmetic with its double rounding; PWM registers behind a pitch cache; volume pins |
| `MessageQueue.dfy` | the ring buffer |
| `Lifecycle.dfy` | init, start, end and play, with every failing call |
| `Protocol.dfy` | API callers, audio task and player as one transition system |
| `ProtocolControl.dfy`, `ProtocolSpeaker.dfy`, `ProtocolShutdown.dfy`, `ProtocolCalls.dfy`, `ProtocolDelivery.dfy`, `ProtocolFates.dfy`, `ProtocolProgress.dfy`, `ProtocolRendering.dfy`, `ProtocolWrites.dfy` | invariants of that system and the theorems about its runs |
| `ProtocolWitnesses.dfy` | fair runs that reach the cases in which a property fails |
| `Display.dfy` | printing and reading back voltages and temperatures |
| `Arithmetic.dfy` | nonlinear helper facts |

How the layers meet: the imperative classes (`MsgQueue`, `SpeakerDevice`, `Thread`, `Audio`)
are proved equal to functions on values, and the transition system takes its steps with the
same functions (`Tick`, `PlayAll`, `InitComponent`, `CloseComponent`; its queue is the sequence
that `MsgQueue.Pending` gives). A run is any infinite interleaving, and
every scheduler that looks at the state and the step number has one (`EverySchedulerHasARun`),
a fair one after any plan (`PlannedRunIsFair`); the invariants hold in every state of it.

## Assumptions

- The task's first check of `MyState` (Audio.c:293) comes after the store at Audio.c:188,
  although the code creates the thread first. `EarlyCheckStrandsTheTask` shows what happens
  otherwise.
- No `Audio_PlayTrack` call is between its check and its send when `Audio_end` destroys the
  message mutex: using a destroyed mutex is undefined.
- `pthread_create` inside `TaskLoop` (Audio.c:292) succeeds, and locking a valid mutex succeeds (the speaker
  mutex in `Speaker_DeInit` may fail).
- `pthread_cond_wait` releases and waits in one step and may wake up spuriously
  (pthread_cond_wait, System Interfaces volume of POSIX.1-2017).
- Register writes and pin requests that the code does not check take effect. The PWM output is
  silent at power-on; its period is arbitrary.
- `usleep(1000)` is one tick and `usleep(NOTE_SEPARATION)` none.
- The double quotient `(1.0 / f) / 1E-9` is within 10^-6 of 10^9 / f (three roundings to
  nearest, section 4.3.1 of IEEE 754-2008), and nothing else is assumed of it. The product of a
  reading and `0.0001` is within 10^-10, and exact when whole.

## What turned out not to hold

- A voltage from 0 to 9 hundredths makes the display code throw, and one from -9 to -1 is
  displayed with the point before the sign; a missing voltage file is displayed as `.-1 V` and an
  unreadable one throws. The display is faithful exactly from 0.1 V on, on either side of zero
  (`VoltageDisplayIsFaithful`, `VoltageFailuresAreNotShown`).
- A request for the sentinel id MaxTracks is accepted, is never started and never counts as
  overwritten, and empties the mailbox (`EveryRequestAccountedFor`; a run in
  `SentinelRequestIsLost`).
- A preemption can set a period below the duty time in force, with shipped tracks too (a run in
  `UnsafeWriteIsReached`); `RunWritesSafeIff` says exactly for which polls, `EveryWriteSafeIff`
  in which runs of the whole system.
- After a failed `Audio_end` that was called before `Audio_start`, the component can be started
  with its speaker closed; `MuteExactlyAfterFailedEarlyEnd` gives the exact step, and
  `MuteIsReached` a run that takes it.
- A failed `Speaker_Init` keeps the chip and lines it had opened. It leaves everything released
  exactly when the directory, the export or the chip failed and nothing was held before
  (`FailedInitReleasesIff`; an instance in `FailedInitKeepsPins`).
- Above 31622 Hz a period need not determine the pitch. `PitchInvertsIff` gives the condition on
  the pitch under which 10^9 divided by the period is the pitch again, for every rounding and for
  some; `PitchesCollideIff` does so for two pitches with the same period. `PeriodInvertsIff` and
  `PeriodsCollideIff` say it for one rounding at a time. 65000 and 65001 Hz share their period
  (`HighPitchesCollide`); 62500 Hz is recovered or not depending on the rounding
  (`RoundingSpoilsRoundTrip`).
- While `Audio_end` joins, the player loops until the task tells it to stop, so not each of its
  steps is progress (`PlayerLoopsUntilTold`; a run in `LoopingWhileJoiningIsReached`);
  `JoiningStep` says exactly which are.
- `NOTE_2000_HZ` is 2500 and `NOTE_2500_HZ` is 2000 (Music.h:147-148). The tables follow the values.

## Model

| member | source | states |
|---|---|---|
| Music.ShippedTablesMatch | Source/Libs/Audio/Music.h:178-580 | every id below the sentinel has a nonempty table with one nonzero length per note, the hypothesis of the player |
| Music.ShippedTrackIsPlayable | Source/Libs/Audio/Audio.c:394-504 | each case of the track switch leads to such a table |
| PlayerRuns.ShippedTracksByEar | Source/Libs/Audio/Audio.c:394-504 | the first pitch and the playing time, in numbers, of the table each of the fourteen ids leads to; no two ids agree in both |
| PlayerRuns.BootTuneById | Source/Libs/Audio/Audio.c:441-447 | requested by its id and left alone, from any state, the boot tune starts with 988 Hz and keeps the player busy for exactly 7529 ticks |
| Period.TruncatedQuotient | Source/Libs/Audio/Speaker.c:151 | for any rounding of the quotient within the bound, truncation gives floor(10^9 / f), or one less and then f divides 10^9 |
| Period.TruncationLosesOne | Source/Libs/Audio/Speaker.c:151 | both outcomes lie within the rounding bound for every divisor f of 10^9, so the bound alone decides neither; a given rounding has one of them |
| Period.NearMeansClose | Source/Libs/Audio/Speaker.c:151 | the multiplied-out rounding bound is distance at most 10^-6 from 10^9 / f |
| Period.PeriodNs | Source/Libs/Audio/Speaker.c:151-152 | the period is floor(10^9 / f) or one less, between 15258 and 10^9 |
| Period.PeriodFitsInt | Source/Libs/Audio/Speaker.c:299 | period and half period fit the int of the register write |
| Period.PeriodRoundTrip | Source/Libs/Audio/Speaker.c:151-153 | for 1 to 31622 Hz, 10^9 divided by the period gives the pitch back, whatever the rounding |
| Period.PeriodsAreDistinct | Source/Libs/Audio/Speaker.c:151-153 | in that range two pitches share a period only if they are equal |
| Period.PitchInvertsIff | Source/Libs/Audio/Speaker.c:151-153 | for every pitch, 10^9 divided by the period is the pitch under every rounding if and only if the remainder r of 10^9 / f is below the quotient k and, when r is 0, f is below k - 1; under some rounding if and only if r is below k |
| Period.PeriodInvertsIff | Source/Libs/Audio/Speaker.c:151-153 | for every pitch and rounding, 10^9 divided by the computed period is the pitch if and only if the remainder of 10^9 / f is below an unspoilt period, or the pitch is below one that lost one to rounding |
| Period.RoundingSpoilsRoundTrip | Source/Libs/Audio/Speaker.c:151 | at 62500 Hz one admissible rounding gives the period 15999, which reads back as 62503 Hz, and another reads back exactly |
| Period.PitchesCollideIff | Source/Libs/Audio/Speaker.c:151-153 | two pitches f and g above it share a period under some rounding if and only if r is at least (g - f) * k, or r is 0 and f is at least (g - f) * (k - 1); under every rounding if and only if the former holds and g does not divide 10^9 |
| Period.PeriodsCollideIff | Source/Libs/Audio/Speaker.c:151-153 | for every rounding, two pitches share a period if and only if the higher one lost nothing to rounding and what the lower one leaves of 10^9 covers the difference of the pitches times the period |
| Period.QuotientsCollideIff | Source/Libs/Audio/Speaker.c:151-153 | for exact quotients that is a condition on the remainder of the lower pitch alone |
| Period.HighPitchesCollide | Source/Libs/Audio/Speaker.c:151-153 | 65000 Hz and 65001 Hz have the same period |
| Speaker.CacheRefinesUncached | Source/Libs/Audio/Speaker.c:138-167 | over any calls from a truthful cache, the cached driver sounds like one that always writes, and the cache stays truthful |
| Speaker.ClosedSpeakerIgnoresCalls | Source/Libs/Audio/Speaker.c:133-137 | a closed speaker writes nothing and remembers nothing |
| Speaker.CompletedCallHalvesDuty | Source/Libs/Audio/Speaker.c:145-167 | every completed call leaves twice the duty within the period |
| Speaker.PitchWritesAreOrderly | Source/Libs/Audio/Speaker.c:138-167 | a call writes nothing if the pitch is set already and otherwise two or three registers, one at a time; a write that switches the output on finds period and duty of the new pitch in place, and one that switches it off a duty of 0 |
| Speaker.RepeatsWriteNothing | Source/Libs/Audio/Speaker.c:138-144 | any number of calls for the pitch already set writes nothing |
| Speaker.PitchWritesSafeIff | Source/Libs/Audio/Speaker.c:145-165 | one call keeps duty within period at every single write if and only if it does not go from a sounding pitch to one whose period is below half the old one |
| Speaker.WritesSafeIff | Source/Libs/Audio/Speaker.c:145-167 | the same for the writes of any sequence of calls |
| Speaker.UnsafeSwitchExists | Source/Libs/Audio/Speaker.c:153-156 | 31 Hz to 4978 Hz is such a switch |
| Speaker.InitOutcome | Source/Libs/Audio/Speaker.c:74-123 | initialisation succeeds exactly when everything it asks for is granted, then holds all pins, and touches neither cache nor registers |
| Speaker.InitErrors | Source/Libs/Audio/Speaker.c:74-364 | the exact condition of each error code and of each handle held afterwards; a line that was found stays held even if its request was refused |
| Speaker.FailedInitReleasesIff | Source/Libs/Audio/Speaker.c:74-123 | a failed initialisation leaves all handles released if and only if none was held and the directory, the export or the chip failed |
| Speaker.FailedInitKeepsPins | Source/Libs/Audio/Speaker.c:327-364 | an instance in which it leaves the chip and a line held |
| Speaker.ClosingIsOrderly | Source/Libs/Audio/Speaker.c:366-398 | closing does to each handle held what it has to, each thing once, and nothing else: line 2 before line 1, each released right after it was driven to 0, and the chip last |
| Speaker.ClosingWritesAreOrderly | Source/Libs/Audio/Speaker.c:238-239 | closing writes duty 0, then enable 0, and never the period |
| Speaker.DeInitOutcome | Source/Libs/Audio/Speaker.c:224-250 | an open speaker ends closed, silent and without handles, its cache untouched; a closed one reports an error and stays as it is |
| Speaker.ClosingKeepsSyncIffSilent | Source/Libs/Audio/Speaker.c:238-245 | closing resets registers but not the cache: the cache stays truthful exactly when it held 0 |
| Speaker.StaleCacheMutesOnePitch | Source/Libs/Audio/Speaker.c:138-144 | after closing while sounding and reopening, a first call is heard exactly when it asks for another pitch |
| Speaker.SpeakerDevice.PlayPitch | Source/Libs/Audio/Speaker.c:125-172 | new state, error code and the exact order of register writes |
| Speaker.SpeakerDevice.Open | Source/Libs/Audio/Speaker.c:74-123 | new state and error for every outcome of the calls it makes, with no register write |
| Speaker.SpeakerDevice.OpenVolumePins | Source/Libs/Audio/Speaker.c:312-364 | which handles are held after each failure |
| Speaker.SpeakerDevice.Close | Source/Libs/Audio/Speaker.c:224-250 | closes once, writing duty 0 and then enable 0, and gives the handles back in order |
| Speaker.SpeakerDevice.CloseVolumePins | Source/Libs/Audio/Speaker.c:366-398 | releases every handle: line 2 and then line 1, each driven to 0 first, then the chip |
| MessageQueue.MsgQueue.Get | Source/Libs/Audio/Audio.c:545-560 | takes the oldest pending message, or reports an empty queue and changes nothing pending |
| MessageQueue.MsgQueue.Send | Source/Libs/Audio/Audio.c:562-582 | accepts exactly when there is room, then adds at the end and keeps every pending message; a refusal changes nothing |
| MessageQueue.MsgQueue.Reset | Source/Libs/Audio/Audio.c:539-540 | empties the queue and returns to the first slot |
| MessageQueue.MsgQueue.Discard | Source/Libs/Audio/Audio.c:235 | empties the queue wherever its oldest slot is |
| MessageQueue.MsgQueue.SlotsDiffer | Source/Libs/Audio/Audio.c:571 | the slot written next is none of the pending ones |
| MessageQueue.FifoConserves | Source/Libs/Audio/Audio.c:545-582 | over any interleaving of sends and gets, accepted equals taken followed by pending, and pending never exceeds the capacity |
| MessageQueue.FifoCountsSends | Source/Libs/Audio/Audio.c:562-582 | every send is either accepted or counted as refused |
| MessageQueue.Drive | Source/Libs/Audio/Audio.c:545-582 | the ring, of any capacity and from any starting slot, gives the bounded FIFO's results for any operations |
| Player.Tick | Source/Libs/Audio/Audio.c:332-386 | every iteration keeps the loop-head invariant: a current track is loaded from its table and both reads are in range |
| Player.After | Source/Libs/Audio/Audio.c:329-387 | so does every run, for every mailbox schedule |
| Player.TickRenders | Source/Libs/Audio/Audio.c:332-386 | one iteration plays the head of what is due, the rendering of a consumed id or what remained, and leaves its tail |
| Player.RunRenders | Source/Libs/Audio/Audio.c:329-387 | for every sequence of polls the pitch in force and what remains equal the declarative rendering |
| Player.LastRequest | Source/Libs/Audio/Audio.c:332-340 | the rendering follows the latest poll that was not the sentinel |
| PlayerRuns.PreemptionForgets | Source/Libs/Audio/Audio.c:333-356 | consuming an id sends the same pitches from any state as from idle, under every later schedule |
| PlayerRuns.SentinelInterruptsNothing | Source/Libs/Audio/Audio.c:333 | after any run, polling the sentinel sends the next pitch that was due anyway, and the track goes on unless nothing of it is left |
| PlayerRuns.ExactPlayingTime | Source/Libs/Audio/Audio.c:341-386 | an uninterrupted track keeps the player busy for exactly the sum of (length + 1) iterations |
| PlayerRuns.TickCountsDown | Source/Libs/Audio/Audio.c:363-386 | each iteration without a request takes one tick off the time left |
| PlayerRuns.TicksLeftIsRemaining | Source/Libs/Audio/Audio.c:363-386 | the time left is the length of what remains of the rendering, and is positive exactly while busy |
| PlayerRuns.BootTuneTicks | Source/Libs/Audio/Music.h:303-403 | the boot tune plays for 7529 ticks, and what is left from each note on |
| PlayerRuns.RunWritesSafeIff | Source/Libs/Audio/Audio.c:363-373 | for every schedule, duty stays within period at every register write of the run if and only if every preemption goes to a pitch whose period holds the duty in force |
| PlayerRuns.UninterruptedIsSafe | Source/Libs/Audio/Audio.c:363-373 | a track played from silence without preemption always does |
| PlayerRuns.ShippedPreemptionIsUnsafe | Source/Libs/Audio/Audio.c:333-340 | a shipped track interrupting another need not |
| PlayerThread.Thread.Iterate | Source/Libs/Audio/Audio.c:332-386 | the loop body updates its variables as Tick says and sends the pitches Tick says, in order |
| PlayerThread.Thread.SoundNote | Source/Libs/Audio/Audio.c:363-386 | the same for the part that plays the current note |
| PlayerThread.Thread.PlayerTaskLoop | Source/Libs/Audio/Audio.c:319-392 | for every sequence of polls the registers at the end of each iteration sound the rendering, the speaker ends silent, and every register write is the one the calls cause |
| PlayerThread.RunSounds | Source/Libs/Audio/Audio.c:329-387 | the hardware after a run sounds the rendered pitch |
| Lifecycle.Audio.Init | Source/Libs/Audio/Audio.c:136-166 | new component and code for every failure |
| Lifecycle.Audio.InitMessaging | Source/Libs/Audio/Audio.c:528-543 | empties the queue exactly when both primitives are created |
| Lifecycle.Audio.Start | Source/Libs/Audio/Audio.c:168-193 | only an Inited component becomes Running |
| Lifecycle.Audio.AnnounceEnd | Source/Libs/Audio/Audio.c:202-214 | a Running component becomes Ending and the END message is queued if there is room |
| Lifecycle.Audio.Close | Source/Libs/Audio/Audio.c:217-245 | new component and code for every failure, a closed speaker being tolerated |
| Lifecycle.Audio.PlayTrack | Source/Libs/Audio/Audio.c:251-267 | a request is queued exactly when Running and there is room |
| Lifecycle.InitComponentOutcome | Source/Libs/Audio/Audio.c:136-166 | initialisation succeeds exactly from Ended when nothing fails; otherwise the phase stays and a component that is up is untouched |
| Lifecycle.InitCodes | Source/Libs/Audio/Audio.c:136-166 | the exact condition of each code, and what it leaves in the queue |
| Lifecycle.CloseOutcome | Source/Libs/Audio/Audio.c:217-245 | closing succeeds exactly when nothing fails, and then component and speaker are ended, silent and released |
| Lifecycle.CloseCodes | Source/Libs/Audio/Audio.c:217-245 | the exact condition of each code, the last failure winning, and the state each leaves |
| Lifecycle.CloseCanBeRetried | Source/Libs/Audio/Audio.c:219-240 | after any failed closing a second one whose calls succeed ends the component |
| Lifecycle.FailedCloseLeavesMute | Source/Libs/Audio/Audio.c:217-240 | a failed closing leaves a startable component with a closed speaker exactly in one case |
| Protocol.EverySchedulerHasARun | Source/Libs/Audio/Audio.c:136-392 | whatever a scheduler picks, knowing state and step number, is a run, so no theorem about runs is empty |
| ProtocolControl.RunControl | Source/Libs/Audio/Audio.c:136-392 | in every state of every run: phases, threads, mutex holder, mailbox and queue agree, and only an empty queue leaves the task waiting unsignalled |
| ProtocolControl.AtMostOneLateMessage | Source/Libs/Audio/Audio.c:293-308 | from the store of Ending until an Audio_start that creates a task, the task takes at most one message |
| ProtocolControl.EndMessageEndsTheLoop | Source/Libs/Audio/Audio.c:302-317 | the step that handles END leaves the loop, which no task enters again before an Audio_start creates one |
| ProtocolControl.EarlyCheckStrandsTheTask | Source/Libs/Audio/Audio.c:181-189 | a first check before the store of Running would make the task leave its loop at once, and leave the component Running without it, or Ending without a call, depending on which store comes last |
| ProtocolSpeaker.RunSpeaker | Source/Libs/Audio/Speaker.c:125-250 | in every state of every run the cache tells the truth, and holds 0 whenever the speaker is closed or no player runs |
| ProtocolSpeaker.CacheIsInvisible | Source/Libs/Audio/Speaker.c:138-167 | over every run, after every iteration and every single pitch, the registers sound as without a cache |
| ProtocolSpeaker.SilentAtClose | Source/Libs/Audio/Audio.c:388-389 | whenever the speaker is closed, the cache holds 0 and the output is silent |
| ProtocolSpeaker.EndedIsQuiet | Source/Libs/Audio/Audio.c:136-245 | whatever failed, an ended component has an ended, silent speaker, no threads and nothing pending |
| ProtocolSpeaker.OrderedTeardown | Source/Libs/Audio/Audio.c:195-249 | a successful Audio_end finds both threads finished and leaves everything closed, silent, released and empty; it succeeds exactly when no call fails |
| ProtocolSpeaker.FailedEndCanBeRetried | Source/Libs/Audio/Audio.c:217-245 | from any state a failed Audio_end leaves, a retry whose calls succeed ends the component |
| ProtocolSpeaker.MuteExactlyAfterFailedEarlyEnd | Source/Libs/Audio/Audio.c:217-240 | the exact step of a run after which a component that is up has a closed speaker |
| ProtocolWitnesses.MuteIsReached | Source/Libs/Audio/Audio.c:217-240 | a fair run takes that step |
| ProtocolShutdown.LockIsReleased | Source/Libs/Audio/Audio.c:289-312 | unless Audio_start is still running, the task holding the message mutex is never blocked and releases it within three steps |
| ProtocolShutdown.JoiningStep | Source/Libs/Audio/Audio.c:286-317 | while Audio_end joins, every task step lowers a measure, a player step does exactly when the task is at its join, and no step of anyone raises it |
| ProtocolShutdown.PlayerLoopsUntilTold | Source/Libs/Audio/Audio.c:329-387 | before it is told to stop, two player steps bring every control variable back, so no measure of those can fall with each of them |
| ProtocolWitnesses.LoopingWhileJoiningIsReached | Source/Libs/Audio/Audio.c:207-216 | a fair run is in such a state while Audio_end joins |
| ProtocolShutdown.JoiningNeverStuck | Source/Libs/Audio/Audio.c:296-299 | the task is never left waiting unsignalled then, and someone can always make progress |
| ProtocolShutdown.SomeoneMoves | Source/Libs/Audio/Audio.c:286-317 | fairness brings the task's end or a later state with a smaller measure |
| ProtocolShutdown.ShutdownCompletes | Source/Libs/Audio/Audio.c:207-216 | under weak fairness, once SendMessage has returned, full queue or not, the task finishes and the join of Audio_end can return |
| ProtocolShutdown.SendingEnds | Source/Libs/Audio/Audio.c:202-214 | if a step that can be taken again and again is taken, SendMessage of Audio_end returns |
| ProtocolShutdown.AudioEndGetsThrough | Source/Libs/Audio/Audio.c:202-217 | so Audio_end gets from the store of Ending past its join |
| ProtocolCalls.AudioEndReturns | Source/Libs/Audio/Audio.c:195-249 | with fair threads, callers and steps of its own, every Audio_end past its check sends, joins, closes once the last caller has left (see Assumptions) and returns |
| ProtocolCalls.PlayTrackOutcome | Source/Libs/Audio/Audio.c:251-267 | in any state, whoever else is calling, a call is turned away unless the component runs, and otherwise queues its request last and wakes the task, or is refused by a full queue; it leaves no trace besides |
| ProtocolCalls.CallsAreConserved | Source/Libs/Audio/Audio.c:251-267 | in every run, at every moment and for every track: calls that found the component Running = requests accepted + calls refused by a full queue + calls still on their way |
| ProtocolCalls.EveryCallReturns | Source/Libs/Audio/Audio.c:562-582 | under fairness, whoever passed the check of Audio_PlayTrack gets to send |
| ProtocolCalls.StartOutcome | Source/Libs/Audio/Audio.c:168-193 | in any state, Audio_start makes a Running component with a fresh task exactly from Inited when the thread is created, and changes nothing otherwise |
| ProtocolCalls.InitCallOutcome | Source/Libs/Audio/Audio.c:136-166 | in every state of a run, Audio_init succeeds exactly from Ended when everything asked for is granted |
| ProtocolCalls.EndCallOutcome | Source/Libs/Audio/Audio.c:202-217 | Audio_end leaves an Ended component alone, goes on to closing one without threads, and stores Ending in a Running one |
| ProtocolCalls.EndSendOutcome | Source/Libs/Audio/Audio.c:210-215 | END is queued last and wakes the task if there is room, and the join follows either way |
| ProtocolCalls.EndCloseOutcome | Source/Libs/Audio/Audio.c:217-245 | the closing part can meet every failure, changes the component as the modelled code does, and leaves threads and mailbox alone |
| ProtocolCalls.WakeupOutcome | Source/Libs/Audio/Audio.c:296-299 | a waiting task can wake with or without a signal, and looks at the queue again before anything else |
| ProtocolWitnesses.RefusedEndIsReached | Source/Libs/Audio/Audio.c:571-578 | for every capacity a fair run joins the task with a queue full of requests and no END message |
| ProtocolWitnesses.PlannedRunIsFair | Source/Libs/Audio/Audio.c:286-392 | after any plan, task and player taking turns are a fair run |
| ProtocolDelivery.RunDelivery | Source/Libs/Audio/Audio.c:286-340 | in every state of every run each accepted request is, once and in order, started, in the mailbox, in the task's hand or queued, or else dropped for a recorded reason |
| ProtocolDelivery.StartedInOrder | Source/Libs/Audio/Audio.c:332-340 | started requests are an order-preserving subsequence of the accepted ones, each once, with its own track and session |
| ProtocolFates.RunFate | Source/Libs/Audio/Audio.c:251-340 | in every state of every run: what is in the mailbox, in the task's hand and in the queue are the last requests accepted, in order; an overwriting request is the very next one; a cut-off request is followed in its session only by cut-off ones and ones stuck in the queue |
| ProtocolFates.LastAreUnderWay | Source/Libs/Audio/Audio.c:251-340 | in every state a request is under way exactly when it is neither started nor dropped, and exactly when it is among that many last ones |
| ProtocolFates.EveryRequestAccountedFor | Source/Libs/Audio/Audio.c:506-526 | after Audio_end every accepted request was started, overwritten by the very next one of its session, void, or cut off with all later ones of its session, and only one of these; one for the sentinel id is dropped, but never as overwritten |
| ProtocolProgress.StepApproaches | Source/Libs/Audio/Audio.c:286-340 | while the component runs, no step takes a pending request further from the player, and each step of the thread whose turn it is brings it closer |
| ProtocolProgress.EveryRequestSettles | Source/Libs/Audio/Audio.c:251-340 | in every fair run each accepted request is, from any moment on, eventually started or dropped, unless the component leaves Running |
| ProtocolProgress.LatestRequestStarts | Source/Libs/Audio/Audio.c:251-340 | in a fair run that goes on running, a request for a track that no other request follows is eventually started |
| ProtocolWitnesses.SentinelRequestIsLost | Source/Libs/Audio/Audio.c:522-526 | a fair run in which a request for the sentinel id is delivered, is void, and takes the request before it along |
| ProtocolDelivery.NothingCutOffWhileRunning | Source/Libs/Audio/Audio.c:522-526 | while its session runs no request is cut off, and an overwriting one has left the queue |
| ProtocolDelivery.SessionIsolation | Source/Libs/Audio/Audio.c:313-315 | nothing accepted before a successful Audio_end is ever started after it |
| ProtocolRendering.RunRendering | Source/Libs/Audio/Audio.c:319-392 | in every run the player's variables are those of its polls so far, and its polls are the requests started |
| ProtocolRendering.HeardIsRendered | Source/Libs/Audio/Audio.c:329-387 | in every state of every interleaving with the speaker open, the hardware sounds the rendering of what was polled, and the requests polled are those started |
| ProtocolWrites.EveryWriteSafeIff | Source/Libs/Audio/Audio.c:329-390 | in every interleaving, duty stays within period at every register write, closing included, if and only if the polls of every player with an open speaker preempt safely |
| ProtocolWrites.StepWritesLand | Source/Libs/Audio/Speaker.c:145-165 | those are all the writes: each step leaves in the registers what its last write put there |
| ProtocolWrites.UnsafeWriteIsReached | Source/Libs/Audio/Audio.c:333-340 | a fair run with two shipped tracks writes a period below the duty in force |
| ProtocolRendering.ReadsStayInRange | Source/Libs/Audio/Audio.c:363-367 | no interleaving reads outside the track tables |
| Display.DisplayRoundTrip | Source/Core/core.cpp:201-202 | a number shown with a point before its last k places reads back as n / 10^k |
| Display.ShownWritesOut | Source/Core/core.cpp:201-202 | the displayed text is the only one with that sign, digits without superfluous zeros, point and unit |
| Display.DigitsAreUnique | Source/Core/core.cpp:201 | printing is the only way to write a number without a leading zero |
| Display.NoLeadingZero | Source/Core/core.cpp:201 | a printed number starts with 0 only if it is 0 |
| Display.TemperatureRoundTrip | Source/Core/core.cpp:260-261 | every temperature t is displayed and reads back as t / 10 |
| Display.VoltageRoundTrip | Source/Core/core.cpp:201-202 | a voltage in hundredths reads back exactly when it has two digits; 0 to 9 throws, -9 to -1 is unreadable |
| Display.FormatVoltage | Source/Core/core.cpp:200-202 | the text to the last character: sign, digits without superfluous zeros, point before the last two, unit; throws exactly from 0 to 9 and can be read back exactly for two digits |
| Display.FormatTemperature | Source/Core/core.cpp:259-261 | the text to the last character, with the point before the last digit; it reads back as t / 10 |
| Display.GetBatteryVoltage | Source/Libs/Battery/Battery.cpp:459-481 | the reading divided by 10000 toward zero, for any admissible rounding; -1 without a file and 0 without a number |
| Display.TruncatedProduct | Source/Libs/Battery/Battery.cpp:476 | truncating the double product is that division |
| Display.VoltageDisplayIsFaithful | Source/Core/core.cpp:200-202 | the displayed voltage reads back within 0.01 V of the reading, never beyond it, if and only if the reading reaches 0.1 V |
| Display.VoltageFailuresAreNotShown | Source/Libs/Battery/Battery.cpp:465-476 | a missing file is displayed unreadably and an unreadable one throws |

## Left out

- `TaskLoop` (Audio.c:286) and the joins of `Audio_end` appear as steps of the transition system, not as
  methods: their meaning lies in the interleaving.
- The interleaving is at the level of shared accesses; a critical section that holds the message
  mutex without blocking is one step, and so is a player iteration after its mailbox exchange.
- Volume levels (`Speaker_SetVolume`), `RunAudioPlayer` and `CloseAudioPlayer`: a few branches over modelled calls.
- File and directory access, `Export` and the GPIO library: their outcomes are parameters.
- Failure of a lock on a valid mutex, other than the speaker mutex when closing; a failing lock in
  the `SendMessage` of `Audio_end` would leave the END message unsent.
- Use of a mutex or condition variable after a failed `Audio_end` has destroyed it, and creating
  them again after a failed `Audio_init`: undefined in POSIX.1-2017.
- Real time and scheduling latency.
- The other monitors of core.cpp, the colours, the GUI, and the rest of Battery.cpp.
- The inactive tables of Music.h.
