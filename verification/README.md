# A verified model of SQA

SQA plays sound cues for live shows. A server keeps the show document, a mixer and a set of actions
(audio cues and fades); a realtime engine mixes mono streams into JACK ports on an audio thread; clients
talk to the server over OSC. This project models the parts of it that are hard to get right and proves
what they promise.

- **The realtime engine.** `ChannelTable`, `Param`, `Player` and `Device` specify one callback;
  `AudioThread` and `Engine` are the objects of the two threads, updated in place and tied to that
  specification; `EngineSystem` runs both threads as one transition system, with the command queue
  between them.
- **Playback.** `Fade` and `Audio` are the two controllers, `Playback` the action state machine around
  them, `PlaybackTime` the arithmetic of elapsed time, `FadeCurve` what pausing and resuming does to a
  fade over any number of cycles, `Resumption` the same of the objects.
- **The show document.** `History` is the undo history, `Document` the commands and their inverses,
  `Session` the theorem about whole runs, `Manager` the objects, `Savefile` saving and loading, `Mixer`
  the channels and the engine slots they own.
- **OSC.** `OscText` is about addresses, `OscSchema` about the derived encoder and decoder, with the
  message schema as data, `OscRoundTrip` about every schema, `OscTables` and `OscTableChecks` about the
  two tables the server uses.
- **Samples and texts.** `Spool` takes decoded frames apart into the senders' rings, `DurationText` writes
  and reads durations, `Text` holds decimal numerals and `Containers` what is shared.

`dafny verify dfyconfig.toml` checks everything.

Samples, levels and decibel values are reals. Time is in nanoseconds. Uuids and JACK ports are numbers.
The clock, what JACK answers, the media files and identities of fades are parameters of the operations
that use them. A conversion of decibels to a linear level is an arbitrary function.

## Where the code does less than it seems to

Each of these is stated with the exact condition under which the code does meet the obvious claim.

- The invalid-outpatch exit of a callback forgets what it skipped (`Player.LosesCountExit`,
  `Player.PositionCountsSamples`, `Player.InvalidOutpatchLosesCount`).
- After a hundred changes the history's sentinel is gone and undoing all the way underflows the cursor
  (`History.UndoPops`, `History.EvictionUnderflows`).
- Undoing a deletion puts the action at the end of the order (`Document.DeleteInvertsExactlyIffLast`).
- A parameter update described as "nothing" cannot be undone, nor anything before it (`Session.UndoStaysIff`).
- Undoing a change of parameters sets the old ones again, which pads a fade for the target it had in between
  (`Session.ParamsComeBackIff`).
- A creation refused because its uuid is taken is recorded all the same, and undoing it deletes the older
  action (`Document.CreateInvertsIffFresh`).
- A mixer configuration that gives a channel's name to another uuid leaves a channel in the map without a
  slot of its own (`Mixer.MixerContext.ProcessConfig`).
- Reconfiguring a channel the mixer knows never changes the patch it reports (`Mixer.MixerContext.ProcessConfig`).
- A fade that only fades channels, not the master, is reported as fading nothing
  (`Playback.FadeVerifiesIffMaster`).
- Pausing a paused fade makes the next execution start it from its beginning
  (`FadeCurve.PausingTwiceContinuesIff`, `Resumption.PauseTwiceAndResumeFade`).
- Resuming a fade takes back every sender its parameters enable, also one that another fade has taken over
  since (`FadeCurve.TakenOverLeftAloneIff`).
- Executing a loaded or paused fade that has no target panics, and a new fade can be paused
  (`Playback.Action.Execute`, `Resumption.PausedNewFadePanics`).
- Loading and starting a cue does not set its master level (`Audio.ConfiguredMasterIff`).
- A stream whose file has a lower rate than the device can be behind its clock when it is resumed, and then
  skips (`Audio.ResumeSkips`, `Audio.LowerRateSkips`).
- A savefile whose order leaves actions out or repeats them is accepted
  (`Savefile.LoadedOrderAgreesIff`); deleting a repeated action and creating it again then fails an
  assertion (`Manager.ServerContext.DeleteThenCreate`).
- A load that fails half way leaves the old history over a new document (`Savefile.ApplyToCtx`), which it may
  no longer fit (`Savefile.FailedLoadMisfits`); `Session.FitsIff` says when it does.
- A slash in an action type makes its command undecodable (`OscTableChecks.CommandRoundTrip`).
- A negative duration typed in is read as zero (`DurationText.NegativeReadsZero`).
- With more senders than channels the spooler drops samples (`Spool.ExtraSenderLosesIff`).

## Model

| member | source | states |
|---|---|---|
| `ChannelTable.FullMeansLive` | sqa-engine/src/lib.rs:292-297 | the subtraction in the limit test never underflows and counts the live channels: a table refuses a channel exactly when capacity minus one are live |
| `ChannelTable.AddKeepsTable` | sqa-engine/src/lib.rs:298-306 | below the limit a new channel always fits, takes an empty slot, the oldest hole first, and moves no other; `holes` stays the duplicate-free list of the empty slots |
| `ChannelTable.RemoveKeepsTable` | sqa-engine/src/lib.rs:312-318 | removing a live channel: the temporary `None` and the hole both fit, the slot ends up empty, no other slot changes |
| `ChannelTable.LiveSlotNeverMoves` | sqa-engine/src/lib.rs:292-320 | over any sequence of accepted and refused operations the table stays valid and a channel nobody removes keeps its slot and its port |
| `Param.ProgressMonotone` | sqa-engine/src/param.rs:98-112 | progress of a fade lies between 0 and 1 and never goes back, for every start, duration and time |
| `Param.FadeEndpoints` | sqa-engine/src/param.rs:26-28 | an active fade is a straight line from its `from` level to its target, constant before and after |
| `Param.ShiftedFade` | sqa-engine/src/param.rs:29-39 | moving the start of a fade by d gives, d later, the level it had before |
| `Player.ClockExact` | sqa-engine/src/thread.rs:133 | the 64-bit clock position equals the exact one if and only if the product of elapsed time and sample rate is below 2^64 |
| `Player.StepAccounts` | sqa-engine/src/thread.rs:117-192 | what leaves the ring in a callback is a prefix of it, skipped then played, and `position` counts it on every exit but the invalid-outpatch one |
| `Player.Conservation` | sqa-engine/src/thread.rs:127-191 | over any run of sender, producer and callback events, consumed samples followed by the ring are exactly the samples pushed: in order, each once |
| `Player.ExitIff` | sqa-engine/src/thread.rs:118-170 | each way out of a callback is taken on exactly one condition of the state before it; a player renders if and only if it is running, its ring holds what it is behind by and a buffer more, and its port is there |
| `Player.StepSwitches` | sqa-engine/src/thread.rs:118-160 | what a callback changes besides ring and position: a player without enough samples dies if it was to and counts as announced empty otherwise, one with enough has the half latch of what is left and is switched off if its patch leads nowhere |
| `Player.StepSends` | sqa-engine/src/thread.rs:138-160 | the messages of a callback, in order, by the same conditions |
| `Player.EmptyAnnouncedOnce` | sqa-engine/src/thread.rs:142-145 | over any run of events a stream is announced empty at most once in its life, and exactly once if its switch has risen |
| `Player.AcceptedFills` | sqa-backend/src/actions/audio.rs:40-46 | the ring takes what is pushed in order until it is full |
| `Player.LosesCountExit` | sqa-engine/src/thread.rs:133-160 | when a callback skips samples and then leaves by the invalid-outpatch exit, said of the state before it: a live, active, started player behind its clock, with enough in its ring to play, and no channel behind its patch; as many samples go uncounted as it was behind |
| `Player.PositionCountsSamples` | sqa-engine/src/thread.rs:134-191 | `position` equals the number of samples consumed since the last reset if and only if no callback since then met that state |
| `Player.InvalidOutpatchLosesCount` | sqa-engine/src/thread.rs:156-160 | a concrete family of states in which that exit loses count of a skipped sample |
| `Player.ExactPlacement` | sqa-engine/src/thread.rs:133-191 | a rendering callback plays stream sample max(position, clock) + k at frame k and advances the position by exactly one callback |
| `Player.NeverBehind` | sqa-engine/src/thread.rs:134-138 | a player that renders is never behind the clock, paced or not |
| `Player.SelfResynchronises` | sqa-engine/src/thread.rs:128-148 | with a fixed start time and callbacks at least one buffer apart, every rendering callback of a run ends exactly one buffer past the clock, whatever underruns came before, and the run ends with the player at most one buffer ahead |
| `Player.SharedStartAligned` | sqa-engine/src/thread.rs:128-191 | two players with the same start time, each after any paced run of its own, that both render in a callback play the same stream samples, counted from their own resets |
| `Device.MixBuffer` | sqa-engine/src/thread.rs:173-190 | the frame loop overwrites on the first write of a callback and adds after it: each mixed frame lies between -1 and 1 whatever was there before |
| `Device.MixClips` | sqa-engine/src/thread.rs:180-189 | a mixed frame is x = what was there, or nothing on the first write, plus sample times volume times master: x itself between -1 and 1, otherwise the nearer of the two |
| `Device.SimpleMixLevels` | sqa-engine/src/thread.rs:177-190 | the simple mixer in a frame: from 0, each player that renders to the channel adds its sample times volume times master and the sum is clipped; the others add nothing |
| `Device.AlonePlays` | sqa-engine/src/thread.rs:180-189 | a channel fed by one player at fixed levels carries its samples times volume times master, clipped |
| `Device.ProcessMixesAfresh` | sqa-engine/src/thread.rs:171-210 | one callback: the time-stamp mixer leaves in a tidy channel's buffer exactly "zero, then mix", in every frame the clipped running sum of sample times volume times master over the players that rendered to it |
| `Device.ProcessLeavesOthers` | sqa-engine/src/thread.rs:199-210 | buffers of ports that no channel holds are not written |
| `Device.CallbackAccounts` | sqa-engine/src/thread.rs:70-80 | the shared length is the table size after every callback, never above the limit; an added player is accepted exactly when there is room and answered either way |
| `Device.AddPlayerAdmits` | sqa-engine/src/thread.rs:70-81 | an accepted player joins at the end of the table, alive and otherwise as handed over: its uuid is added to the living, the dead stay as many, older players stay in place; a refused one changes nothing |
| `Device.NewPlayerStays` | sqa-engine/src/thread.rs:70-125 | a callback that accepts a player into a table without dead players sends no removal and keeps it |
| `Device.SentInTurn` | sqa-engine/src/thread.rs:116-192 | the messages of a scan are each player's own, in the order of the table |
| `Device.ProcessSends` | sqa-engine/src/thread.rs:193-198 | after the players' messages exactly the removal of the first dead player is sent, if there is one |
| `Device.ProcessReaps` | sqa-engine/src/thread.rs:116-125 | a callback removes the first dead player it saw and no other; without one it keeps every player in place |
| `Device.ReapOne` | sqa-engine/src/thread.rs:193-198 | with no new deaths one callback reaps one dead player and keeps all living ones |
| `Device.DeadAreReaped` | sqa-engine/src/thread.rs:193-198 | as many callbacks as there are dead players clear them all and keep the living as a multiset |
| `AudioThread.MixInto` | sqa-engine/src/thread.rs:177-189 | the in-place loop over the port buffer: every frame is the clip of sample times volume times master, plus what was there unless this is the first write; the samples popped and the position reached |
| `AudioThread.DeviceContext.HandleCommand` | sqa-engine/src/thread.rs:68-99 | the in-place command handler equals the specified one on state and messages; an accepted player is alive |
| `AudioThread.DeviceContext.ScanPlayers` | sqa-engine/src/thread.rs:116-192 | the scan loop equals the player-by-player fold, and finds the first dead player |
| `AudioThread.DeviceContext.ZeroStale` | sqa-engine/src/thread.rs:199-210 | the zeroing loop equals the specified zero pass |
| `AudioThread.DeviceContext.ProcessCallback` | sqa-engine/src/thread.rs:110-213 | a whole callback on the heap objects: new device state, buffers and messages equal the specification's |
| `Engine.Sender.ResetPosition` | sqa-engine/src/lib.rs:166-169 | resetting moves the start time to now and the position to 0, as the reset event of a run |
| `Engine.Sender.PositionMillis` | sqa-engine/src/lib.rs:179-181 | the position in milliseconds as an exact floor |
| `Engine.Sender.Drop` | sqa-engine/src/lib.rs:228-233 | only dropping the original sender stops and kills the stream |
| `Engine.EngineContext.NewChannel` | sqa-engine/src/lib.rs:292-309 | new slot, new table and queued command; refused exactly at the limit, or when JACK refuses |
| `Engine.EngineContext.RemoveChannel` | sqa-engine/src/lib.rs:310-320 | refused exactly for slots without a channel; the unwraps cannot fail; the channel is gone even if JACK keeps the port |
| `Engine.EngineContext.NewSender` | sqa-engine/src/lib.rs:328-373 | a sender that is inactive, at position 0 and unpatched, sharing its cells with the player handed to the audio thread |
| `EngineSystem.DeviceHandleMirrors` | sqa-engine/src/thread.rs:82-97 | handling a command on the audio thread's table does to the ports what the main thread did to its own |
| `EngineSystem.StepKeepsInv` | sqa-engine/src/thread.rs:110-213 | every step of either thread, including commands waiting for room in the queue, keeps the whole invariant |
| `EngineSystem.MirrorProtocol` | sqa-engine/src/lib.rs:292-320 | in every reachable interleaving neither thread panics and replaying the outstanding commands on the audio thread's table gives the main thread's; with none outstanding every slot means the same port |
| `EngineSystem.MixerRefinesZeroThenMix` | sqa-engine/src/thread.rs:171-210 | in every reachable interleaving, after each callback every channel both threads hold carries exactly "zero, then mix", in every frame the clipped running sum of sample times volume times master |
| `EngineSystem.CallbacksDrain` | sqa-engine/src/thread.rs:113-115 | as many callbacks as queued commands bring the two tables together |
| `Fade.LastFadeShared` | sqa-backend/src/actions/fade.rs:44-47 | all fades of one execution share start, duration and identity, so the remembered one stands for any of them; a blank one is kept if nothing was faded |
| `Fade.FadeController.Execute` | sqa-backend/src/actions/fade.rs:196-265 | levels after an execution or resumption, the running data, the timer, and every error path; without a target it panics, changing nothing |
| `Fade.FadeController.FreezeSenders` | sqa-backend/src/actions/fade.rs:64-103 | freezes exactly the senders still under this fade; succeeds without running data |
| `Fade.FadeController.Pause` | sqa-backend/src/actions/fade.rs:182-190 | pausing succeeds exactly when nothing is kept or the target is running |
| `Fade.FadeController.Reset` | sqa-backend/src/actions/fade.rs:191-195 | always ends with no running data, freezing what it still can |
| `FadeCurve.FromSurvives` | sqa-backend/src/actions/fade.rs:64-82 | the level a fade started from survives the freeze: it is what the resumption reads |
| `FadeCurve.FreezeHolds` | sqa-backend/src/actions/fade.rs:64-82 | while frozen the level stays what it was at the freeze |
| `FadeCurve.PauseTouchesIff` | sqa-backend/src/actions/fade.rs:67-69 | a pause changes the master or a sender if and only if it is still under this fade |
| `FadeCurve.EpisodeContinues` | sqa-backend/src/actions/fade.rs:182-232 | one pause and resumption, for the master or a sender still under the fade: its curve is moved by exactly the length of the pause if and only if the parameters still ask for its end and its duration, whatever happens to the other senders before, during and after |
| `FadeCurve.CycleContinues` | sqa-backend/src/actions/fade.rs:182-232 | the same for a resumption straight after the pause |
| `FadeCurve.TakenOverLeftAloneIff` | sqa-backend/src/actions/fade.rs:217-231 | the master or a sender that another fade has taken over comes through a cycle unchanged if and only if the parameters do not enable it; an enabled one is taken back, and how is stated |
| `FadeCurve.PausesContinueTheCurve` | sqa-backend/src/actions/fade.rs:182-232 | after any number of pauses and resumptions a sender, or the master, that only this fade has touched has, at t plus the time paused, the level it would have had at t |
| `FadeCurve.ExecuteStarts` | sqa-backend/src/actions/fade.rs:196-232 | a first execution puts exactly what the parameters enable under the fade, starting from the level it had |
| `FadeCurve.PausingTwiceContinuesIff` | sqa-backend/src/actions/mod.rs:265-276 | pausing a paused fade forgets how far it was: the next execution starts the whole curve after the pre-wait, which continues it if and only if the first pause came exactly the pre-wait ahead of its start |
| `Resumption.PauseAndResumeFade` | sqa-backend/src/actions/mod.rs:265-359 | pausing a playing fade action and executing it again is exactly one cycle of the curve theorem, levels and running data alike |
| `Resumption.PauseTwiceAndResumeFade` | sqa-backend/src/actions/mod.rs:265-359 | the same for an action paused twice, with the exact condition for every sender and the master it holds |
| `Resumption.PausedNewFadePanics` | sqa-backend/src/actions/mod.rs:265-359 | a new fade action can be paused and executing it then panics |
| `PlaybackTime.PreWaitPreserved` | sqa-backend/src/actions/mod.rs:343-350 | over any number of pauses before its start, whatever durations are reported, the start of an action moves by exactly the time spent paused |
| `Audio.VerifiedMeansLoadable` | sqa-backend/src/actions/audio.rs:232-290 | verification finds nothing exactly when a file with enough channels is open and every patched channel exists |
| `Audio.ErrorsSay` | sqa-backend/src/actions/audio.rs:232-290 | each error is reported exactly for its own reason, channel by channel; a missing or bad URL and a missing file hide the others |
| `Audio.NewSenders` | sqa-backend/src/mixer.rs:81-90 | n senders at the given rate sharing one master cell, each with a new stream: empty, at its beginning, inactive, unpatched, at full level; their players queued in order |
| `Audio.AudioController.Load` | sqa-backend/src/actions/audio.rs:291-329 | loading succeeds exactly when a file is open and the patches exist; then the whole state of every stream, one sender per file channel at the file's rate, going to the slot of the mixer channel configured for it or nowhere; failure keeps the old running data |
| `Audio.AudioController.Execute` | sqa-backend/src/actions/audio.rs:330-344 | the whole state of every stream afterwards: active from the given time, configured volumes set on the first execution only, rings, positions, patches and the rest kept |
| `Audio.AudioController.Pause` | sqa-backend/src/actions/audio.rs:345-355 | every stream becomes inactive and is otherwise as it was |
| `Audio.ResumeSkips` | sqa-engine/src/thread.rs:128-138 | an active stream with something in its ring, resumed at whole milliseconds short of the 64-bit wrap: at any device rate nothing is skipped if and only if the clock is not ahead of it; at the file rate the clock is never ahead and less than one millisecond of samples plus one behind |
| `Audio.LowerRateSkips` | sqa-engine/src/thread.rs:128-138 | an input for which it is ahead: a second of a 48 kHz file on a 96 kHz device |
| `Audio.ConfiguredMasterIff` | sqa-backend/src/actions/audio.rs:291-344 | a cue that was loaded and started has its configured channel volumes, and its configured master level if and only if that is full |
| `Resumption.PauseAndResumeAudio` | sqa-backend/src/actions/mod.rs:265-359 | pausing a playing cue and executing it again keeps rings, positions and patches; a cue still waiting keeps the wait it had left; a started one is given the start time at which its first sender is on time: whether a callback at that moment skips, for every sender and rate, and never for a sender level with the first up to the file's rate |
| `Resumption.PauseFadeRepeatedly` | sqa-backend/src/actions/mod.rs:265-359 | any number of real pauses and executions of a fade: what it holds has, at t plus the time paused, the level it would have had at t |
| `Resumption.PauseAudioRepeatedly` | sqa-backend/src/actions/mod.rs:265-359 | any number of real pauses and executions of a cue in its pre-wait: the start moves by exactly the time paused and the streams are as they were |
| `Audio.ChannelsFor` | sqa-backend/src/actions/audio.rs:194-210 | a cue for a newly opened file has at least a channel for each of the file's, exactly as many unless more were configured; configured ones are kept, added ones are unpatched, and without any the mixer's defaults are taken in order |
| `Audio.AudioController.SetParams` | sqa-backend/src/actions/audio.rs:187-221 | new parameters, URL and file; the levels of a loaded cue follow at once; running data and positions are kept |
| `Fade.Padded` | sqa-backend/src/actions/fade.rs:109-122 | padding keeps the fades given, reaches exactly the target's channels if there are more, and enables nothing |
| `Playback.Action.SetParams` | sqa-backend/src/actions/mod.rs:446-468 | refused exactly for parameters of the wrong kind; parameters, URL, file and levels afterwards in every case; the running data is kept |
| `Playback.FadeVerifiesIffMaster` | sqa-backend/src/actions/fade.rs:135-170 | a fade verifies exactly when it has an audio target and fades the master: channel fades alone are reported as nothing being faded, because the fold starts from true; each of the two errors for its own reason |
| `Playback.Action.ProgressShows` | sqa-backend/src/actions/mod.rs:65-95 | the progress of a cue or a fade: the wait left before its start, then the time since, for a cue in whole milliseconds of its first sender's position |
| `Playback.Action.VerifyParams` | sqa-backend/src/actions/mod.rs:421-442 | new state from the old one in every case |
| `Playback.Action.Load` | sqa-backend/src/actions/mod.rs:242-264 | loads exactly from an inactive or unverified state whose parameters verify; the whole state of a loaded cue, each stream patched as configured; a refusal changes nothing but the state |
| `Playback.Action.Pause` | sqa-backend/src/actions/mod.rs:265-276 | keeps the progress only if the action was playing; new state in every case; a cue's streams become inactive and are otherwise kept, a fade's levels are frozen and its timer cleared; parameters and running data are kept |
| `Playback.Action.Reset` | sqa-backend/src/actions/mod.rs:277-281 | ends inactive with nothing held; the parameters are kept, the levels a fade holds frozen and its timer cleared |
| `Playback.Action.Execute` | sqa-backend/src/actions/mod.rs:330-359 | the loop ends after at most one load; result, state, start time, streams, fade levels and timer in every case; a cue loaded and started in one go plays every stream from its beginning at the right time, patched and levelled as configured; executing what is active or loading, a refusal and a panic change nothing held; it panics exactly for a loaded or paused fade without a target |
| `Playback.Action.ScheduledAt` | sqa-backend/src/actions/mod.rs:343-350 | an execution starts at now plus the pre-wait, or, with progress kept, so that the elapsed time or the wait left is what was kept |
| `Playback.Action.StateChange` | sqa-backend/src/actions/mod.rs:383-410 | accepted exactly for errors, or from a loading, loaded, active or paused state to anything but unverified; going inactive is a reset, with the levels it freezes; anything else changes the state alone |
| `History.RegisterPushes` | sqa-backend/src/undo.rs:35-46 | registering pushes onto the done stack, which keeps the last hundred, and clears exactly the undone stack |
| `History.UndoPops` | sqa-backend/src/undo.rs:58-68 | undo pops the done stack; it does nothing exactly when that is empty; the cursor underflows exactly when the sentinel was evicted and one change is left |
| `History.RedoPops` | sqa-backend/src/undo.rs:69-84 | redo pops the undone stack and never underflows |
| `History.StateNamesTops` | sqa-backend/src/undo.rs:85-91 | the reported state names the tops of the two stacks |
| `History.UndoThenRedo` | sqa-backend/src/undo.rs:58-84 | undo then redo returns to the same history and speaks of the same change |
| `History.RedoThenUndo` | sqa-backend/src/undo.rs:58-84 | redo then undo returns to the same history |
| `History.RegisterAllDone` | sqa-backend/src/undo.rs:24-46 | after any list of registrations the done stack is its last hundred; the sentinel is evicted exactly from the hundredth change on |
| `History.EvictionUnderflows` | sqa-backend/src/undo.rs:43-62 | every history of a hundred or more changes, undone as far as it goes, makes the next undo underflow |
| `History.UndoContext.RegisterChange` | sqa-backend/src/undo.rs:35-46 | the in-place registration equals the specified one |
| `History.UndoContext.UndoLast` | sqa-backend/src/undo.rs:58-68 | the in-place undo equals the specified one, the underflow included |
| `History.UndoContext.RedoNext` | sqa-backend/src/undo.rs:69-84 | the in-place redo equals the specified one |
| `Document.ProcessOnView` | sqa-backend/src/commands.rs:29-126 | parameters never influence types, metadata or order |
| `Document.ParamsUpdated` | sqa-backend/src/actions/fade.rs:109-122 | an update of parameters: a fade gets every field as given, its fades followed by disabled ones up to the channels of the target it had; a cue gets what the media make of old and new; the wrong kind changes nothing; metadata, order and all other actions are kept |
| `Document.MetadataUpdated` | sqa-backend/src/commands.rs:77-82 | an update of metadata sets them and changes nothing else |
| `Document.CreatedAs` | sqa-backend/src/state.rs:159-187 | a created action comes last in the order, with the metadata and parameters given or the blank ones of its kind, and changes no other action |
| `Document.OrderEdited` | sqa-backend/src/action_manager.rs:81-99 | deleting takes the first mention of the uuid out of the order; moving puts it before the given position of the rest, or nowhere else if that is outside |
| `Document.ReorderInverse` | sqa-backend/src/undo.rs:157-165 | the recorded reorder takes the order back, also when the reorder itself is refused |
| `Document.ProcessKeepsOrder` | sqa-backend/src/action_manager.rs:64-99 | every command keeps the order a duplicate-free list of exactly the actions |
| `Document.ChangeInverts` | sqa-backend/src/undo.rs:93-168 | for every covered command the recorded change takes types, metadata and order back and forward again, and is never the sentinel |
| `Document.UpdateUndone` | sqa-backend/src/undo.rs:111-122 | what an update of parameters and its undo leave: a cue's old parameters normalised against the new ones, a fade's padded for the target it had in between; they are the old ones exactly when that leaves them alone |
| `Document.DeletionUndone` | sqa-backend/src/undo.rs:135-148 | a deleted action is revived with its metadata and parameters, a cue's normalised as for a new one |
| `Document.ProcessRespectsSame` | sqa-backend/src/commands.rs:29-126 | commands do the same to documents that are equal up to the order of the list |
| `Document.CreateInvertsIffFresh` | sqa-backend/src/undo.rs:93-110 | the change recorded for any of the three creating commands is an inverse exactly when the uuid was free |
| `Document.DeleteInvertsExactlyIffLast` | sqa-backend/src/undo.rs:135-148 | undoing a deletion restores the order exactly when the action was the last one |
| `Session.StepCoherent` | sqa-backend/src/state.rs:79-95 | every accepted command, undo and redo keeps the timeline behind the history coherent |
| `Session.RunCoherent` | sqa-backend/src/state.rs:79-95 | the same over any run |
| `Session.UndosGoBack` | sqa-backend/src/commands.rs:146-151 | n undos from a coherent session give the document of n changes ago |
| `Session.RedosGoForth` | sqa-backend/src/commands.rs:152-157 | m redos give the document m changes on |
| `Session.HistoryCoherent` | sqa-backend/src/state.rs:79-95 | a run of recorded commands within the limit evicts nothing and stays coherent |
| `Session.UndoTheorem` | sqa-backend/src/state.rs:79-95 | n undos after any history give exactly the types, metadata and order of n commands ago and m redos bring back those of n - m ago; with deletions, up to the order |
| `Session.UndoFromNew` | sqa-backend/src/state.rs:79-95 | the same from a new session, for any history within the limit |
| `Session.UndoneAtOnce` | sqa-backend/src/undo.rs:93-168 | any recorded command followed by an undo, in the session: the document is what the recorded change makes of it, and a mixer configuration is followed by the one of before |
| `Session.ParamsComeBackIff` | sqa-backend/src/undo.rs:111-122 | an update of parameters followed by an undo gives the document back if and only if media normalisation keeps the old parameters, or the fade has enough fades for the target it had in between |
| `Session.UndoStaysIff` | sqa-backend/src/undo.rs:47-68 | a change just recorded cannot be undone if and only if it is a parameter update described as the beginning of the history is |
| `Session.FitsIff` | sqa-backend/src/save.rs:95 | a history fits a document, so that undo and redo work both ways along some timeline, if and only if replaying it from that document does: for every state, in particular after every load, failed or not |
| `Session.FittingHasCreation` | sqa-backend/src/undo.rs:96-134 | a history whose last change done is a creation fits only documents that have the action |
| `Manager.ActionManager.RestoreOrder` | sqa-backend/src/action_manager.rs:50-60 | accepted exactly when every uuid named exists; the order is then the one given |
| `Manager.ActionManager.Reorder` | sqa-backend/src/action_manager.rs:81-91 | accepted exactly for a known uuid and a position inside the list; the uuid ends up there; each refusal for its own reason |
| `Manager.ActionManager.Remove` | sqa-backend/src/action_manager.rs:92-99 | removes the action and its place in the order |
| `Manager.ServerContext.CreateNew` | sqa-backend/src/state.rs:159-187 | accepted exactly for known types and free uuids, each refusal for its own reason; the assertion on insertion fires exactly when the order still names the free uuid |
| `Manager.ServerContext.DeleteThenCreate` | sqa-backend/src/action_manager.rs:64-99 | deleting an action and creating its uuid again hits that assertion exactly when the order named the uuid at least twice |
| `Manager.ServerContext.CmdAsUndoable` | sqa-backend/src/undo.rs:93-168 | the change built by checking actions out and in equals the specified one and leaves the document alone |
| `Manager.ServerContext.ProcessCommand` | sqa-backend/src/commands.rs:29-157 | the in-place command processor equals the specified one, undo and redo included |
| `Manager.ServerContext.External` | sqa-backend/src/state.rs:79-95 | record, process, broadcast and clear: the new document, history and mixer configuration equal the specified ones |
| `Savefile.NewFromCtx` | sqa-backend/src/save.rs:54-70 | saving checks every action out and in, in any order, leaves the context as it was and writes down exactly its contents |
| `Savefile.CreateAll` | sqa-backend/src/save.rs:80-85 | loading the actions in any order gives the same actions; fails without force exactly at an unknown type |
| `Savefile.ApplyToCtx` | sqa-backend/src/save.rs:71-99 | which step fails, exactly, by what the file holds; a wrong version leaves the context as it was; every later failure leaves the old history over a new document, and which actions, order and mixer configuration that is |
| `Savefile.FailedLoadMisfits` | sqa-backend/src/save.rs:71-99 | any session whose history fits, after creating an action and failing to load a file without it, is left with a history that fits no timeline |
| `Savefile.RoundTrip` | sqa-backend/src/save.rs:54-99 | saving and loading gives the same uuids, types, metadata, order, fade parameters and undo history, a cue's parameters normalised as for a new one, and configures the mixer as it was |
| `Savefile.SaveAndLoad` | sqa-backend/src/save.rs:54-99 | saving one context and loading the file into any other, or itself, is accepted and gives exactly the reloaded show of which the theorems speak |
| `Savefile.DocumentSurvivesIff` | sqa-backend/src/save.rs:80-85 | the whole document comes back exactly when a new cue would keep every saved audio parameter |
| `Savefile.HistorySurvives` | sqa-backend/src/save.rs:95 | undo and redo fit the loaded document as they fitted the saved one |
| `Savefile.LoadedOrderAgreesIff` | sqa-backend/src/action_manager.rs:50-60 | an accepted order is the list of all actions exactly when it names each once; the check alone does not see to that |
| `Mixer.MixerContext.DefaultConfig` | sqa-backend/src/mixer.rs:45-64 | one channel per physical port, named by its number and patched to it, in the order of the ports; older channels are kept; with JACK willing it succeeds exactly when they fit, and the mixer goes on owning the live slots |
| `Mixer.MixerContext.DropClashing` | sqa-backend/src/mixer.rs:96-106 | without a clash nothing happens; with one a channel is left in the map without its slot |
| `Mixer.MixerContext.ApplyChannels` | sqa-backend/src/mixer.rs:107-145 | known channels keep their slots and are only renamed, new ones get one each with the patch of their first mention; every channel has the name of its last mention; succeeds exactly when the new ones fit beside the old |
| `Mixer.MixerContext.RemoveUntouched` | sqa-backend/src/mixer.rs:150-157 | channels not configured any more give their slots back, the others keep theirs |
| `Mixer.MixerContext.ProcessConfig` | sqa-backend/src/mixer.rs:94-159 | with JACK willing the channels still own exactly the live slots, one each, if and only if no configured name clashes; then the uuids are the configured ones, known channels are only renamed and `defs` names only configured ones |
| `Mixer.RetainedInOrder` | sqa-backend/src/mixer.rs:146-149 | the default channels left keep their order and every mention |
| `OscText.SplitAllClean` | sqa-osc-custom-derive/src/lib.rs:208 | joined components split into as many again exactly when none holds a slash |
| `OscText.FormatPath` | sqa-osc-custom-derive/src/lib.rs:90 | formatting a well-formed path fills in its components one by one |
| `OscText.MatchArm` | sqa-osc-custom-derive/src/lib.rs:28-43 | the generator's loop over a path yields its patterns |
| `OscSchema.MessageFromVariant` | sqa-osc-custom-derive/src/lib.rs:112-164 | the schema read from a declaration, its four token lists, the panic on a bare `verbatim`, and the extra tokens of other attributes |
| `OscSchema.DecidedBy` | sqa-osc-custom-derive/src/lib.rs:131-160 | a field: a defaulted token for each attribute before the one that decides, then what that one says |
| `OscSchema.EncodeMessage` | sqa-osc-custom-derive/src/lib.rs:88-110 | serialised fields first, then verbatim ones, absent arguments when there are none |
| `OscSchema.ArgsSent` | sqa-osc-custom-derive/src/lib.rs:88-110 | argument by argument: a blob per serialised field, then each verbatim field as the scalar it is |
| `OscSchema.DecodeFields` | sqa-osc-custom-derive/src/lib.rs:44-79 | fields read in declaration order, arguments taken from the front, every error |
| `OscSchema.AccessIff` | sqa-osc-custom-derive/src/lib.rs:60-72 | a scalar argument is accepted by the accessor of its own type and only by that one, with its value |
| `OscSchema.DecodesIff` | sqa-osc-custom-derive/src/lib.rs:44-79 | decoding succeeds if and only if every field finds what it needs, serialised and verbatim ones each in the next argument; otherwise the first that does not decides the error |
| `OscSchema.ReadPacket` | sqa-osc-custom-derive/src/lib.rs:206-216 | the first arm whose pattern matches is read; a path is blank exactly when it has no slash and unknown exactly when no arm matches |
| `OscRoundTrip.DifferIffNoCommonPath` | sqa-osc-custom-derive/src/lib.rs:82-87 | two patterns differ at a position literal in both exactly when no path matches both |
| `OscRoundTrip.UnambiguousIffOneMatch` | sqa-osc-custom-derive/src/lib.rs:213-216 | first match is the only match exactly in an unambiguous schema |
| `OscRoundTrip.DecodeSent` | sqa-osc-custom-derive/src/lib.rs:46-111 | decoding what was encoded succeeds exactly when serialised fields come before verbatim ones, and then gives every field back |
| `OscRoundTrip.RoundTripIff` | sqa-osc-custom-derive/src/lib.rs:88-216 | for every schema and message: it decodes to itself if and only if no substituted text holds a slash, serialised fields come first and unannotated fields are default |
| `OscRoundTrip.ExtraArgsIgnored` | sqa-osc-custom-derive/src/lib.rs:44-79 | arguments beyond the expected ones change nothing |
| `OscTables.TableRoundTrip` | sqa-osc-custom-derive/src/lib.rs:88-216 | the theorem for any tidy table |
| `OscTableChecks.CommandRoundTrip` | sqa-backend/src/codec.rs:21-80 | each of the 27 commands comes back if and only if its action type, where its path has one, holds no slash |
| `OscTableChecks.ReplyRoundTrip` | sqa-backend/src/codec.rs:82-136 | each of the 26 replies always comes back |
| `Spool.Frame.Next` | sqa-ffmpeg/src/frame.rs:66-102 | for planar and packed frames alike the t-th item is channel t mod chans, sample t div chans; nothing after the last |
| `Spool.ItemLayout` | sqa-ffmpeg/src/frame.rs:66-102 | where the t-th item is stored: in plane t mod chans at t div chans of a planar frame, at t of the one plane of a packed one |
| `Spool.SendFrame` | sqa-backend/src/actions/audio.rs:40-46 | how many items a call takes, which rings they go to, and whether the frame is drained |
| `Spool.ItemsAreSamples` | sqa-ffmpeg/src/frame.rs:66-102 | the items of a channel among any stretch of a frame are its consecutive samples, one for each of its turns |
| `Spool.SentFits` | sqa-backend/src/actions/audio.rs:40-46 | wherever a call starts, every ring gets its channel's items in order, as many as it has room for |
| `Spool.LosslessIff` | sqa-backend/src/actions/audio.rs:40-46 | a call, wherever it starts and with however many senders, loses nothing if and only if every channel has room for its share of what the call takes |
| `Spool.ExtraSenderLosesIff` | sqa-backend/src/actions/audio.rs:41-42 | with equally free rings: nothing is lost with a sender per channel; with more senders, exactly when there is no room at all or the rest of the frame fits |
| `Spool.NothingLostIff` | sqa-backend/src/actions/audio.rs:40-46 | over any number of calls, with players taking samples in between, every channel has got exactly the samples whose turn has come, in order, if and only if there was room for every share of every call |
| `Spool.NothingLost` | sqa-backend/src/actions/audio.rs:40-46 | with a sender per channel that is so while no ring is fuller than the first; a drained frame has then given every channel all its samples |
| `DurationText.Parse` | sqa-ui/src/widgets/duration.rs:79-100 | reading a duration, in place, equals the specified reading, of which the theorems speak |
| `DurationText.ReadsDecimals` | sqa-ui/src/widgets/duration.rs:83 | digits s and t around a point are read as the v with v * 10^|t| equal to the number s followed by t |
| `DurationText.ReadsSeconds` | sqa-ui/src/widgets/duration.rs:82-91 | the result for any number of digits around the point: whole seconds saturating at 64 bits, the rest cut off to milliseconds |
| `DurationText.ReadsTenths` | sqa-ui/src/widgets/duration.rs:83-91 | one digit after the point counts tenths, two count hundredths, and of more than three only the first three count |
| `DurationText.TrailingZero` | sqa-ui/src/widgets/duration.rs:83-91 | a zero more after the point changes nothing |
| `DurationText.ReadsThreeParts` | sqa-ui/src/widgets/duration.rs:93-98 | minutes and hours are added; any that do not fit 64 bits refuse the whole |
| `DurationText.ReadableIff` | sqa-ui/src/widgets/duration.rs:83 | a number is read from digits with at most one point and at least one digit, and from nothing else |
| `DurationText.NegativeReadsZero` | sqa-ui/src/widgets/duration.rs:87-91 | what follows a minus counts for nothing |
| `DurationText.RoundTrip` | sqa-ui/src/widgets/duration.rs:59-100 | what is written is read back: the seconds exactly, the milliseconds when they are shown |
| `DurationText.ShownWidths` | sqa-ui/src/widgets/duration.rs:59-78 | minutes and seconds are shown with two digits, milliseconds with three, hours from one hour on |
| `DurationText.SameTextIff` | sqa-ui/src/widgets/duration.rs:59-78 | two durations are shown alike exactly when they agree to the millisecond |
| `DurationText.DaysIgnored` | sqa-ui/src/widgets/duration.rs:80-98 | components before the hours are not looked at |

## Left out

- JACK and FFmpeg themselves, raw pointers and the boxes behind atomic pointers: ports are numbers, port buffers arrays, atomics plain fields.
- Atomic memory orderings, and senders writing to a player's cells in the middle of a callback: sender writes happen between callbacks.
- The fields of a fade are atomic cells set before the fade is published; the model publishes the finished fade at once.
- The allocation of a port number that JACK has taken back: registered ports are fresh.
- The condition variable that wakes the message receiver, and the bound of the message queue: only the list of messages sent is modelled.
- 32-bit and 64-bit floating-point rounding: levels, positions in milliseconds and typed seconds are exact.
- 64-bit overflow anywhere but in the clock position of a callback and in the bound of a typed number.
- Playback.Action.Execute: does not cover a resumption whose start time would be negative, because the code's unsigned subtraction has no meaning there.
- Resumption.PauseAndResumeAudio: does not cover a started cue whose milliseconds exceed the clock, for the same reason; callbacks between the pause and the resumption leave an inactive player alone and are not interleaved.
- The poll timers that refresh an action's displayed progress, and the messages that wake the spooler.
- Savefile.RoundTrip: does not claim audio parameters, because loading drops the waveform and pads channels; `Savefile.DocumentSurvivesIff` says exactly when they survive.
- Savefile.ApplyToCtx: the mixer's configuration after a load is whatever the environment makes of it, because the mixer objects are modelled in `Mixer` on their own.
- Session.UndoTheorem: does not claim action parameters or the mixer configuration over whole runs, because they do not come back; `Session.ParamsComeBackIff` says exactly when parameters do and `Session.UndoneAtOnce` how the mixer is configured.
- Creating an action under a random uuid, loading and playing commands, and loading a savefile inside an undo history: they record nothing.
- Mixer.MixerContext.ProcessConfig: patch connections are not modelled beyond their success or failure, and a channel's stored patch stays the first one, as in the code.
- OscSchema.ReadPacket: the byte form of values and the text form of uuids are arbitrary faithful encodings, and a uuid's text holds no slash.
- Verbatim accessors other than `string`, `bool` and `int`.
- Spool.NothingLost: players take samples between calls, not during one, because a call is one step.
- Spooler threads, waveform generation and the media library's own decoding.
- DurationText.Parse: exponents in a typed number are not modelled, and sums beyond 64 bits are not cut off.
- Sockets, subscriptions, broadcasting, configuration files and the GTK interface apart from the duration field.
