# FXRoute protocols, modelled and proved

A Dafny model of the parts of FXRoute in which several failure points or
interleavings have to keep one promise. Each file follows one source file; a
state machine gets a value for its state, one function per uninterrupted stretch
of code, and theorems over every run, and where the code is an object that is
updated in place there is a class whose methods are proved to take exactly those
steps. Failures, cancellations, clocks and other actors are arbitrary: they come
from scripts, oracles or the order of the steps, so every theorem covers all of
them. Where a class drives devices, it keeps the sequence of commands it has issued,
and its invariant says that the world is what these commands and their script made
of it; contracts then speak of the commands and of what the script showed.

| file | what it models |
|---|---|
| `DeliveryLog.dfy`, `ClientSender.dfy`, `FanOut.dfy`, `ConnectionManager.dfy` | the WebSocket fan-out: bounded queues, coalescing slots, one worker per client, registration and close |
| `OutputSwitch.dfy` | the output switch and its rollback, with concurrent editors of the output state |
| `ChannelTiers.dfy` | reprobing a card for another channel tier: capture, apply, rollback, pause depth |
| `InputActivity.dfy`, `InputHistory.dfy`, `InputLevels.dfy`, `InputArming.dfy`, `ActivityDetector.dfy` | the timed input detector against the whole history it was shown: its steps, what they keep, what levels arm it, and the object itself |
| `Bluetooth.dfy` | deferred bluetoothctl commands with generations, a retry budget and cancellation |
| `ExternalInput.dfy` | three mutually exclusive ingress paths over a live link graph |
| `ProviderMapping.dfy`, `ReleaseChoice.dfy` | provider-artist mappings with versions and cooldowns; choosing one release |
| `OutputStateStore.dfy` | revision-checked commits of any number of writers |
| `ZipAlbum.dfy`, `ZipExtraction.dfy` | collision-free playlist names; extraction within budgets |
| `FilterBanks.dfy`, `ClockSelect.dfy`, `OutputLines.dfy`, `WifiScan.dfy` | role-to-bank partition; clock selectors; chunk-independent line splitting; the Wi-Fi scan merge |
| `Wrappers.dfy` | `Option` |

## What turned out not to hold

Each of these is stated by the member named, with the exact condition under which
the promise does hold.

- A mapping's version can go down (`ProviderMapping.VersionsOnlyGrow`): a row
  stamped by a newer matcher is stamped with the current, lower version by the
  next call that carries an art URL. It never does for rows this matcher writes, as
  long as calls do not overlap; when they do, exactly a write that does not stamp
  and whose call had read a lower version lowers it
  (`ProviderMapping.VersionFallsOnlyByStaleWrites`).
- A good mapping can be lost (`ProviderMapping.OverlapLosesMapping`) and a corrected
  one undone by a mere art refresh (`ProviderMapping.RefreshPutsBackOldIdentity`):
  the row is read before the matcher is asked and written after. Exactly as long as
  no call that found nothing writes after its read went stale the identity found
  last stays stored (`ProviderMapping.IdentitySurvivesUnlessStale`), and calls that
  do not overlap never do (`ProviderMapping.OneAtATimeIsNeverStale`).
- A normal rollback of a tier change can leave the card on profile "off": the
  profile is retried against a clock that starts at boot, so a poll that confirms
  the sink within the first three seconds after boot never sets it. A transition
  entered three seconds or more after boot gets its profile back
  (`ChannelTiers.ChannelTierChange.Change`); for every earlier moment of entry there
  is a run that loses it (`ChannelTiers.ProfileLostAfterBoot`).
- A loopback link can stay behind: a `pw-link` that times out after it has linked
  lets the second port be linked too (`ExternalInput.TimedOutConnectDoubles`), and a
  disconnect takes only one of them. The links are always the stored legs or none
  exactly when no connect gave a leg both ports
  (`ExternalInput.ExternalInputRouting.RunOperations`).
- A leftover qualification can arm an input again without programme
  (`InputArming.StaleQualificationNeverRearms`): exactly when a release time is
  positive and at most two attack gaps, or when it can change from one that is not
  positive to a positive one. The release times in use, 60 s and 1 s, never let it
  (`InputArming.ReleaseTimesInUse`).
- An output switch can be made and still be reported as an error
  (`OutputSwitch.SwitchedButReportedAsError`): exactly when reading the closing
  overview raises (`OutputSwitch.AudioHost.Apply`).
- A role named like a complete stereo pair hides that pair
  (`FilterBanks.PartitionUnlessClash`), and a clock selector whose first Internal
  item also looks digital need not settle (`ClockSelect.SettlesIffInternalIsNotDigital`).
- More reconnects can be started between two resets than the six tries recorded:
  an interrupted one is started again, for every number of interruptions
  (`Bluetooth.InterruptionsRepeatATry`), but never more than one per interruption
  that put one back (`Bluetooth.StartsWithinBudget`).

## Model

| member | source | states |
|---|---|---|
| `DeliveryLog.AcceptFaithful` | connection_manager.py:62-73 | accepting a payload (coalescing into the waiting slot of its type, or queueing, or refusing a full queue) keeps every payload accounted for, in order, one slot per type, within the queue bound |
| `DeliveryLog.TakeKeepsFlow` | connection_manager.py:93-115 | taking the head of the queue loses, repeats and reorders nothing |
| `DeliveryLog.DrainKeepsFlow` | connection_manager.py:75-91 | draining moves everything still queued, in order, to the dropped payloads |
| `DeliveryLog.EventsInOrderExactlyOnce` | connection_manager.py:62-115 | the accepted events are exactly those sent, then those dropped, then those queued: sent events are a prefix, in order, each once |
| `DeliveryLog.SnapshotsInOrder` | connection_manager.py:62-115 | snapshots of one type are sent in accepted order without repeats |
| `DeliveryLog.LatestSnapshotDelivered` | connection_manager.py:62-115 | with nothing queued or dropped, the last snapshot sent of a type is the last one accepted |
| `ClientSenders.EnqueuedSound` | connection_manager.py:62-73 | enqueueing keeps a client sound, whatever its worker is doing |
| `ClientSenders.TakenSound` | connection_manager.py:93-115 | handing the head to the socket, or failing because the transport is gone, keeps a client sound |
| `ClientSenders.SendDoneSound` | connection_manager.py:93-115 | a finished, timed-out or raising send keeps a client sound; which of the two it was is told apart by `ClientSender.FinishSend` |
| `ClientSenders.DrainedSound` | connection_manager.py:75-91 | draining a stopped client keeps it sound |
| `ClientSenders.ClientSender.constructor` | connection_manager.py:37-60 | a new sender is empty, not ready, not failed, and its worker waits |
| `ClientSenders.ClientSender.SideTableMatchesQueue` | connection_manager.py:62-115 | a type is in the side table iff exactly one queue entry carries it, and the queue never exceeds its bound |
| `ClientSenders.ClientSender.Enqueue` | connection_manager.py:62-73 | overwrites the waiting snapshot of its type, or joins the tail, or is refused exactly when the queue is full; queue and side table change as the log accepts the payload |
| `ClientSenders.ClientSender.TakeNext` | connection_manager.py:93-115 | the worker always finds the payload of the entry it took, namely the newest accepted one for that place; on a live transport it is handed over and the send awaited, on a gone one it is lost and the client has failed |
| `ClientSenders.ClientSender.FinishSend` | connection_manager.py:93-115 | a completed send counts and the worker waits for the next; any other counts nothing, ends the worker and marks the client failed |
| `ClientSenders.ClientSender.CancelWorker` | connection_manager.py:75-91 | cancelling stops the worker and changes nothing else |
| `ClientSenders.ClientSender.DrainQueue` | connection_manager.py:75-91 | draining empties queue and side table and drops exactly what was queued |
| `ClientSenders.ClientSender.Close` | connection_manager.py:75-91 | cancel, then drain |
| `FanOut.NextKeepsInv` | connection_manager.py:62-293 | every stretch between two awaits keeps the hub invariant |
| `FanOut.RunKeepsInv` | connection_manager.py:62-293 | so does every interleaving of any length |
| `FanOut.EveryRunDeliversFaithfully` | main.py:7615-7621 | in every run: sent events are a prefix of the accepted ones in order and once each, snapshots keep their order, queues stay bounded, only a stopped worker loses payloads, and nothing is sent before the init payload |
| `FanOut.IdleClientIsUpToDate` | connection_manager.py:62-115 | in every run, a client with an empty queue and an idle worker has completely received the newest snapshot of every type |
| `FanOut.ClientsFareAsTheirSendsDo` | connection_manager.py:93-115 | over every run, counted in its own steps: a client has sent what its completed sends say, has failed iff one of its sends did or was taken on a gone transport, has a stopped worker iff it failed or was cancelled, and is ready iff it was told to be |
| `FanOut.HistoryOnlyGrows` | connection_manager.py:62-115 | no step takes back an accepted or sent payload or a scheduled close |
| `FanOut.OutcomeOrUnchanged` | connection_manager.py:62-293 | a step leaves a client alone or does to it what that step says |
| `FanOut.OtherClientsUntouched` | connection_manager.py:272-293 | a step on one client changes no other client |
| `FanOut.UnregisteredAndClosedOnce` | connection_manager.py:164-194 | in every run each client leaves the registry at most once, its transport close is scheduled at most once, and the connection list is duplicate-free with exactly the registered clients |
| `FanOut.RegistryMoves` | connection_manager.py:151-213 | a socket is registered by its one connect until it is unregistered, then waits for its closing task until that is scheduled |
| `FanOut.ClosingEmpties` | connection_manager.py:75-91 | of a client that waits to be closed a cancel stops the worker and a drain empties the queue |
| `FanOut.AcceptedIsWhatWasTaken` | connection_manager.py:215-293 | over any interleaving a client has accepted exactly the offers it took, in order: each turn of a broadcast counts by the client's state at that turn, whatever ran between the turns |
| `FanOut.TakenForGood` | connection_manager.py:272-293 | what one turn gave a client stays at its place in everything the client accepts later |
| `FanOut.RunExtends` | connection_manager.py:164-293 | over any run what a client accepted stays, and a client out of the registry stays out |
| `ConnectionManagers.ConnectionManager.constructor` | connection_manager.py:130-145 | starts empty; the queue bound is at least 1 |
| `ConnectionManagers.ConnectionManager.Connect` | connection_manager.py:151-162 | registering a socket is the hub's connect step on list and table |
| `ConnectionManagers.ConnectionManager.Unregister` | connection_manager.py:164-172 | the atomic unregister: null exactly for an unknown socket |
| `ConnectionManagers.ConnectionManager.SendToClient` | connection_manager.py:215-234 | offers the payload to that client; gone, queued or full, exactly as its state says |
| `ConnectionManagers.ConnectionManager.MarkReady` | connection_manager.py:236-242 | unlocks broadcasts for a registered client only |
| `ConnectionManagers.ConnectionManager.OfferInit` | main.py:7615-7621 | the init payload is offered once, before anything else of the endpoint |
| `ConnectionManagers.ConnectionManager.Answer` | connection_manager.py:215-242 | an answer to the peer, or readiness, only once init has been offered |
| `ConnectionManagers.ConnectionManager.OfferBroadcast` | connection_manager.py:272-293 | one offer to a client that is ready |
| `ConnectionManagers.ConnectionManager.CancelWorker` | connection_manager.py:75-91 | a disconnect cancels the worker of the sender it popped |
| `ConnectionManagers.ConnectionManager.DrainQueue` | connection_manager.py:75-91 | and drains it once that worker has stopped |
| `ConnectionManagers.ConnectionManager.ScheduleClose` | connection_manager.py:196-213 | and hands the transport to a closing task |
| `ConnectionManagers.ConnectionManager.Perform` | connection_manager.py:62-293 | every stretch of every task, workers included, is the hub's step on list, table and senders, and keeps the hub invariant |
| `ConnectionManagers.ConnectionManager.Disconnect` | connection_manager.py:174-194 | with any actions of other tasks at each of its awaits: unregister, cancel, drain, schedule; false exactly when the client was gone when it got the lock |
| `ConnectionManagers.ConnectionManager.BroadcastTo` | connection_manager.py:272-293 | one turn of the broadcast loop, with any actions of other tasks at the awaits of its disconnect |
| `ConnectionManagers.ConnectionManager.Broadcast` | connection_manager.py:272-293 | the loop over a copy of the connection list does that turn for each connection, once, with any actions of other tasks in between |
| `ConnectionManagers.BroadcastReachesEachClient` | connection_manager.py:272-293 | whatever runs in between: in its turn a connected, ready client with room takes the message for good, one that is gone or full is out of the registry for good, one that is not ready or has failed is passed over |
| `ConnectionManagers.UndisturbedTurns` | connection_manager.py:272-293 | with nothing in between the run of a broadcast is the plain loop |
| `ConnectionManagers.UndisturbedBroadcast` | connection_manager.py:272-293 | and that loop does to each client what this client's own state says, to the last field |
| `OutputSwitch.RestoreNeverPicksAStranger` | audio/samplerate/parsing.py:199-225 | a saved sink is replaced only by the one live sink of the same card and connector |
| `OutputSwitch.SuccessorIsSoleMate` | audio/samplerate/parsing.py:199-225 | a saved sink that is gone is replaced exactly when its card is known and one live sink alone has its card and connector, and then by that one |
| `OutputSwitch.RestoreKeyIsExact` | audio/samplerate/parsing.py:199-225 | what a saved sink is restored as: itself while live or without exactly one mate, else that mate |
| `OutputSwitch.RestoreIgnoresOrder` | audio/samplerate/parsing.py:199-225 | the choice does not depend on the order of the inventory |
| `OutputSwitch.Revisions` | main.py:5277-5292 | a commit on top of an earlier one shows in the revision, so an unchanged revision means no other editor |
| `OutputSwitch.AudioHost.Verify` | main.py:5209-5215 | success means the helper runs, holds this key and its links are complete |
| `OutputSwitch.AudioHost.Inspect` | main.py:5226-5237 | what it captures is what its first overview showed as default and inventory, and the selection bytes and graph key of before; when nothing raises it refuses exactly without a default or when the target is not the selected output |
| `OutputSwitch.AudioHost.PrepareState` | main.py:5247-5259 | a prepared document is committed right on top of the one it was prepared from, which was stored before |
| `OutputSwitch.AudioHost.PrepareRouting` | main.py:5241-5259 | a device of another routing gets the document prepared for it committed, right on top of the one loaded, exactly when that differs, and the target is read anew; another one is only seeded |
| `OutputSwitch.AudioHost.SeedHdmiRouting` | main.py:5358-5390 | seeding never raises and stores at most one document, right on top of the one it was made from; none exactly for a sink that is not to be seeded, or when a call raised, nothing was to be stored, or three commits met a conflict |
| `OutputSwitch.AudioHost.Publish` | main.py:5265-5269 | the selection is saved only right after an overview that showed the new sink as default |
| `OutputSwitch.AudioHost.Activate` | main.py:5260-5269 | success means exactly these five calls, all returned: set the default, sync, read links, an overview that still shows that default, save the selection; when nothing raises it fails exactly without a runtime or on a wrong graph |
| `OutputSwitch.AudioHost.RollBackState` | main.py:5274-5292 | without error, the own draft is reverted or was overtaken by another editor, and the stored document is the one the graph is to run on unless a sync is asked for; every exception asks for one |
| `OutputSwitch.AudioHost.RollBackSelection` | main.py:5293-5304 | without error, the selection bytes are the previous ones |
| `OutputSwitch.AudioHost.RollBackGraph` | main.py:5319-5341 | without error the previous graph, or its sole mate's, is verified, and nothing but a verification raised; a graph kept without a sync runs on the document that is stored; when nothing raises it fails only on a graph that does not come back |
| `OutputSwitch.AudioHost.KeepOrSyncGraph` | main.py:5330-5341 | the graph of an unchanged state that verifies is left alone; after a change of state, or a failed verification, it is synced anew before it counts |
| `OutputSwitch.AudioHost.RollBackDefault` | main.py:5305-5318 | without error an overview was read and the default set to the previous one if live, else its sole mate in what it showed, else the previous name, and nothing set it since |
| `OutputSwitch.AudioHost.RollBack` | main.py:5274-5341 | when no rollback step reports an error, everything captured is back, against the first overview read in this rollback, each sink as itself or its sole mate, and a graph that was not synced again runs on the content of before; when nothing raises it fails only on the graph |
| `OutputSwitch.AudioHost.Undo` | main.py:5270-5352 | everything back with the first error, or failed closed as the last thing done |
| `OutputSwitch.AudioHost.Apply` | main.py:5218-5355 | over every mix of raising calls and concurrent edits the call ends refused and unchanged, switched, rolled back (previous selection, previous default or its sole mate in the first overview after the exception, verified graph on the previous content or synced anew, and the state that stood before this switch committed anything), or failed closed after a second exception; a selection is saved iff it ends switched, and a switched device of another routing has its document; when nothing raises and nobody else acts the outcome is determined |
| `OutputSwitch.SwitchedButReportedAsError` | main.py:5353-5355 | a run that ends switched and reported as an error |
| `ChannelTiers.ChannelTierChange.Capture` | audio/channel_tiers.py:109-124 | channels, rate and volume are those of the one listing it read, with rule, source and profile of that moment; it succeeds exactly when nothing raises and what it reads is complete |
| `ChannelTiers.ChannelTierChange.ReleaseAndPin` | audio/channel_tiers.py:135-137 | takes the card off and pins the rate, in this order; raises exactly when one of these two does |
| `ChannelTiers.ChannelTierChange.ConfirmGate` | audio/channel_tiers.py:205-226 | success means the last three commands muted the sink, set its volume and listed it, and that listing showed mute, channel count and the volume within one percent; up to three tries, half a second apart, and all three before it gives up; a fatal error ends it at once |
| `ChannelTiers.ChannelTierChange.Poll` | audio/channel_tiers.py:182-236 | done means it saw the sink, read the gate, and then only set default and selection; the profile is set at most once, first, and three seconds after it was set before; it reports the first error no retry takes care of |
| `ChannelTiers.ChannelTierChange.Reopen` | audio/channel_tiers.py:175-238 | success means a restart and then a poll that confirmed the gate, default and selection, with nothing touching the sink since; the wanted profile is active iff that poll began at least 3 s after boot, and is set again only every 3 s; it gives up after 25 s, and before that exactly on an error no retry takes care of |
| `ChannelTiers.Host.ConfirmedShows` | audio/channel_tiers.py:205-226 | what a confirmed sink is: muted, set to the volume and then listed with its channels, muted and within one percent, with only default and selections written since |
| `ChannelTiers.ChannelTierChange.Reprobe` | audio/channel_tiers.py:248-301 | rule, restart, confirmed sink, source selection, in this order; it succeeds when no command raises and each listing shows the gate |
| `ChannelTiers.ChannelTierChange.DeferVolumeMonitorResume` | audio/channel_tiers.py:240-246 | one pause per owner, however many passes fail |
| `ChannelTiers.ChannelTierChange.ApplySteps` | audio/channel_tiers.py:248-277 | success means card off, rate pinned, rule, restart, and only then the sink confirmed on the new tier; it fails only when a command raises or a listing does not show the gate |
| `ChannelTiers.ChannelTierChange.Apply` | audio/channel_tiers.py:248-277 | success gives the pause back, failure leaves exactly one pause for the rollback; it fails only as its commands and listings do |
| `ChannelTiers.ChannelTierChange.RollbackSteps` | audio/channel_tiers.py:279-301 | success means the captured rule, a restart, and the sink confirmed with the captured channel count and volume; a card that is not released does not stop it, and one that is has its clock forced to the captured rate |
| `ChannelTiers.ChannelTierChange.Rollback` | audio/channel_tiers.py:279-301 | gives back exactly the deferred pause on every path, also when it raises; a released card is pinned to the captured rate; called three seconds or more after boot a normal return brings the profile back too |
| `ChannelTiers.ChannelTierChange.LaterPass` | playback/runtime/channel_tier.py:45-90 | a later pass confirms its own tier with the captured volume, in listings of this pass, and a failing one leaves its pause with the stored change; the source selection is renamed by the change itself alone |
| `ChannelTiers.ChannelTierChange.ApplyAll` | playback/runtime/channel_tier.py:45-90 | any sequence of passes: one deferred pause iff one failed, which it did only on a command or listing of its own; otherwise the last tier is in place |
| `ChannelTiers.ChannelTierChange.Change` | audio/channel_tiers.py:109-301 | capture, a first pass, any later passes and the rollback, any command failing anywhere: pause depth ends at its entry value, and a failed transition with a normal rollback leaves rule, source and selection as captured and the sink confirmed, by listings of this rollback, with the captured channel count and volume, and a card it released on the captured rate; the profile too when entered three seconds or more after boot; a successful one is on the last tier, order and rate included; each stage fails only on its own commands and listings |
| `ChannelTiers.ProfileLostAfterBoot` | audio/channel_tiers.py:175-238 | for every entry before three seconds after boot, a whole transition whose rollback returns normally with the card left on profile off |
| `ActivityDetectors.ActivityDetector.constructor` | audio/input_activity.py:142-166 | a new detector has nothing in its history but its start |
| `ActivityDetectors.ActivityDetector.ResetLocal` | audio/input_activity.py:168-176 | no earlier block counts any more; activity and last signal are those of the history before |
| `ActivityDetectors.ActivityDetector.BeginCapture` | audio/input_activity.py:178-182 | likewise, and from then on exactly the blocks of the new generation are taken |
| `ActivityDetectors.ActivityDetector.ObserveBlock` | audio/input_activity.py:202-232 | the history takes the block iff its generation matches; while only captures arm and no release time is short a block arms an inactive input only at the end of a sustained chain of programme, an external presence keeps it active, and the input falls exactly when a whole hold has passed since the last signal of the history |
| `ActivityDetectors.ActivityDetector.MarkDigital` | audio/input_activity.py:234-236 | from then on a PCM block counts exactly from a peak of -80 dBFS on; nothing else changes |
| `ActivityDetectors.ActivityDetector.SetRelease` | audio/input_auto_select.py:329-343 | from then on holds are measured by the new release time; evidence and last signal stay |
| `ActivityDetectors.ActivityDetector.ObservePresence` | audio/input_activity.py:238-242 | a writer arms at once; without one the input falls only after, and always at, the end of a whole hold; external report and evidence stay |
| `ActivityDetectors.ActivityDetector.ObserveExternalPresence` | audio/input_activity.py:244-258 | a positive report arms at once and is the last signal; a negative one releases iff the hold is over |
| `ActivityDetectors.ActivityDetector.ObserveMissing` | audio/input_activity.py:260-265 | forgets the evidence and releases iff the hold, at most ten seconds for a missing input, is over since the last signal of the history |
| `ActivityDetectors.ActivityDetector.HoldOn` | audio/input_activity.py:267-270 | the hold starts over: the history's last signal is now, and no block counts |
| `ActivityDetectors.ActivityDetector.Update` | audio/input_activity.py:272-275 | releases iff a whole hold has passed since the last signal of the history |
| `ActivityDetectors.StepFollows` | audio/input_activity.py:142-304 | every step keeps what the history says of last signal, stream type and attack chain; it arms only after a sustained chain and releases only after a whole hold |
| `InputHistory.RunRemembers` | audio/input_activity.py:142-304 | in every run the last signal time is the latest of construction, keep block, writer, presence and hold-over, and the stream is the type of the latest two equal neighbours since the last reset, else PCM |
| `InputHistory.ReleaseNeedsSilence` | audio/input_activity.py:272-284 | the input falls only after a whole release hold without any signal |
| `InputHistory.SilenceReleases` | audio/input_activity.py:272-304 | and it does fall at every observation that finds such a hold over |
| `InputHistory.ObsIsNoted` | audio/input_activity.py:202-232 | what a taken block counts as, by its own levels: programme, when it has lock and is not idle, from a peak of -80 dBFS on a digital input, from an rms level of -50 dBFS on an analog one, and unless digitally silent for a codec; it keeps an input alike, analog PCM already from a peak of -60 dBFS; and it needs half a second, or a whole one for analog PCM |
| `InputHistory.RunIsDigital` | audio/input_activity.py:211-212 | in every run an input counts as digital iff it was one from the start, was marked so, or once delivered digital silence |
| `InputArming.NextInv` | audio/input_activity.py:202-304 | the attack fields always describe a linked chain of programme blocks |
| `InputArming.SustainedInRun` | audio/input_activity.py:202-304 | while every release time set outlasts two gaps, a captured block arms an inactive input only at the end of a chain of programme blocks as long as its attack time, neighbours at most two gaps apart |
| `InputArming.ShortHoldRearms` | audio/input_activity.py:272-304 | for release times up to two gaps: a run in which a leftover qualification arms the input again without programme |
| `InputArming.LengthenedHoldRearms` | audio/input_activity.py:272-304 | for a release time that grows from a spent one: a run in which a leftover qualification arms the input without programme |
| `InputArming.StaleQualificationNeverRearms` | audio/input_activity.py:272-304 | over runs whose release time changes at will among a set of values: a leftover qualification never arms iff all of them exceed two gaps or none is positive |
| `InputArming.ReleaseTimesInUse` | audio/input_auto_select.py:341-343 | the two release times in use, and any change between them, are such values |
| `InputArming.UnbrokenProgrammeArms` | audio/input_activity.py:286-304 | conversely, in every run, programme unbroken for its attack time, by the levels and seconds of each block, leaves the input active |
| `InputLevels.LoudPcmArms` | audio/input_activity.py:202-304 | from any state a run can reach: PCM blocks of the running capture, none without lock, at most 0.3 s apart, of peaks of at least -80 dBFS over half a second on a digital input, or of rms levels of at least -50 dBFS over a second on any, leave the input active |
| `Bluetooth.Remembered` | audio/bluetooth.py:235-243 | at most four distinct addresses, the newest always among them |
| `Bluetooth.OldestForgottenFirst` | audio/bluetooth.py:235-243 | what is remembered is what there was and what arrived behind it, in order, of which the oldest are dropped, only for want of room |
| `Bluetooth.KnownChangesNothing` | audio/bluetooth.py:235-243 | addresses remembered already change nothing |
| `Bluetooth.RecordKeepsInv` | audio/bluetooth.py:174-188 | recording a decision keeps the invariant |
| `Bluetooth.RememberKeepsInv` | audio/bluetooth.py:235-243 | remembering addresses keeps the invariant |
| `Bluetooth.ResetKeepsInv` | audio/bluetooth.py:245-250 | a reset keeps it and withdraws a recorded reconnect |
| `Bluetooth.AttemptKeepsInv` | audio/bluetooth.py:252-270 | a try is recorded only within its budget and spacing |
| `Bluetooth.LoopHeadKeepsInv` | audio/bluetooth.py:202-222 | starting what is pending keeps the invariant |
| `Bluetooth.ReceiverKeepsInv` | audio/bluetooth.py:212-223 | continuing after the receiver command starts a reconnect of the current generation only |
| `Bluetooth.InterruptKeepsInv` | audio/bluetooth.py:224-229 | a cancelled run puts back only what nothing newer replaced |
| `Bluetooth.NextKeepsInv` | audio/bluetooth.py:174-270 | every stretch keeps the invariant |
| `Bluetooth.EveryRunIsJustified` | audio/bluetooth.py:174-270 | in every run: each receiver command carries the latest decision of its moment, each reconnect was requested since the last reset, reconnects never outnumber requests plus the interruptions that put one back, tries stay within six and spaced |
| `Bluetooth.QuietMeansDone` | audio/bluetooth.py:190-229 | once nothing is pending or running the last command started is the last decision and has returned unless interrupted while something newer waited, the latest reconnect request has been started or withdrawn with the same exception, and an uninterrupted request has been tried |
| `Bluetooth.OnlyNewerDrops` | audio/bluetooth.py:224-229 | a decision is given up only by an interruption while something newer waits |
| `Bluetooth.TriesAreSpaced` | audio/bluetooth.py:252-270 | two tries with no reset between them are at least ten seconds apart |
| `Bluetooth.InterruptionsRepeatATry` | audio/bluetooth.py:224-229 | for every k a run with one try and k interruptions that put it back starts k + 1 reconnects; from six interruptions on these are more than the tries allowed |
| `Bluetooth.StartsWithinBudget` | audio/bluetooth.py:252-270 | between resets at most six reconnects plus one per interruption that put one back are started |
| `Bluetooth.BluetoothInputMonitor.constructor` | audio/bluetooth.py:65-87 | initial state; keeps the invariant |
| `Bluetooth.BluetoothInputMonitor.RecordBluetoothctlAction` | audio/bluetooth.py:174-188 | records the decision; a reconnect only with remembered targets; keeps the invariant |
| `Bluetooth.BluetoothInputMonitor.ResetReconnectProgress` | audio/bluetooth.py:245-250 | new generation, full budget, no recorded reconnect; keeps the invariant |
| `Bluetooth.BluetoothInputMonitor.RecordReconnectAttempt` | audio/bluetooth.py:252-270 | one try exactly when addresses are remembered, fewer than six were made and the last one is ten seconds ago; keeps the invariant |
| `Bluetooth.BluetoothInputMonitor.RememberReconnectTargets` | audio/bluetooth.py:235-243 | the loop computes the bounded list of distinct addresses; keeps the invariant |
| `Bluetooth.BluetoothInputMonitor.ContinueFinishing` | audio/bluetooth.py:202-223 | from the head of the drain loop to its next await: a receiver decision first, taking a reconnect along; keeps the invariant |
| `Bluetooth.BluetoothInputMonitor.FinishBluetoothctlActions` | audio/bluetooth.py:190-211 | entering with the lock free; keeps the invariant |
| `Bluetooth.BluetoothInputMonitor.CommandReturned` | audio/bluetooth.py:212-223 | after an awaited command returned or failed: the reconnect taken along unless a reset came, then whatever was recorded meanwhile; keeps the invariant |
| `Bluetooth.BluetoothInputMonitor.Interrupted` | audio/bluetooth.py:224-229 | cancellation while awaiting a command puts back the decision, and the reconnect of the current generation, exactly when nothing newer waits; keeps the invariant |
| `ExternalInput.RightSource` | audio/external_input.py:43-46 | a second capture node only when it is another one |
| `ExternalInput.PairChannels` | audio/external_input.py:34-40 | one node never feeds both sides from one channel; given usable channels are kept |
| `ExternalInput.EdgesFollowPositions` | dsp/runtime.py:77-96 | exactly one edge per mapped position, from its own node, in position order |
| `ExternalInput.MappedEdgesAreEdgesOf` | dsp/runtime.py:77-96 | one edge for each mapped position, in order, from the channel mapped to it and the node mapped to it or else the selected one; none iff nothing is mapped |
| `ExternalInput.BothLegsGone` | audio/external_input.py:117-143 | disconnecting both legs removes every link they had when each leg had at most one port |
| `ExternalInput.DoubledLegStays` | audio/external_input.py:117-143 | and leaves a link when a leg had both |
| `ExternalInput.ExternalInputRouting.constructor` | audio/external_input.py:75-97 | nothing is set and nothing is linked |
| `ExternalInput.ExternalInputRouting.OneIngressAtMost` | audio/external_input.py:145-169 | with clean links, and unless a path runs on that is not set, only one of loopback, decoder and mapped ingress carries sound |
| `ExternalInput.ExternalInputRouting.LinksAreTheStoredLegs` | audio/external_input.py:171-225 | clean and undisturbed from outside, the links are exactly the stored left channel to front left and right channel, of its own node if stored, to front right, each through one port, or none |
| `ExternalInput.ExternalInputRouting.DisconnectPorts` | audio/pw_link.py:120-127 | the first candidate link that exists is removed |
| `ExternalInput.ExternalInputRouting.ConnectPorts` | audio/pw_link.py:130-142 | first port, then the other exactly when that raised; what is linked is what these commands did, and when it succeeds |
| `ExternalInput.ExternalInputRouting.LoopbackLinksPresent` | audio/external_input.py:227-236 | true exactly when both legs are linked; reading may raise |
| `ExternalInput.ExternalInputRouting.Disable` | audio/external_input.py:145-169 | succeeds iff no stop raises and then leaves nothing set and no link of a clean loopback; a raising stop leaves its path set |
| `ExternalInput.ExternalInputRouting.LinkLegs` | audio/external_input.py:200-217 | success means both legs linked and the graph read back last; from no links it ends with exactly the two legs or with none iff no connect gave a leg both ports; it fails only when a command does |
| `ExternalInput.ExternalInputRouting.EnsureLoopback` | audio/external_input.py:171-225 | success means this very loopback is stored and read back; when no command fails it succeeds exactly for a source with two distinct channels; what already is linked is only read |
| `ExternalInput.ExternalInputRouting.SyncDigital` | audio/external_input.py:290-313 | success means the decoder runs on this source, these channels and this right source, and nothing else is set; it fails only when a command does and then sets nothing new, and nothing stays set unless a stop raised |
| `ExternalInput.ExternalInputRouting.SyncMapped` | audio/external_input.py:328-346 | success means the mapped ingress carries these edges and nothing else is set; when no command fails it succeeds iff there is a mapper and an edge, and otherwise everything is down; nothing stays set unless a stop raised |
| `ExternalInput.ExternalInputRouting.SyncLoopback` | audio/external_input.py:314-326 | success means this loopback, read back, and nothing else, linked only after the carrier was synced; it fails only when a command does |
| `ExternalInput.ExternalInputRouting.SyncPresent` | audio/external_input.py:269-326 | a present input reaches the path its mapping, mode and services call for, unless a command fails or there is no such path |
| `ExternalInput.ExternalInputRouting.Sync` | audio/external_input.py:248-326 | by the fields of the overview: a measurement or one failed probe leaves every path as it is, a lost, left or absent input turns all off, and a present one is carried by the mapped ingress of its edges, the decoder or the loopback of its channels, as mapping, mode and services call for; when no command fails it raises exactly for an input nothing can carry, with every path down; one that raises leaves each path as it was or off |
| `ExternalInput.ExternalInputRouting.RunOperations` | audio/external_input.py:145-346 | over any sequence of syncs, disables and vanishing links the stored paths stay exclusive, the links are always the stored legs or none iff no connect gave a leg both ports, with both stops at hand and no stop raising nothing runs on unset, and the last operation has done what it is for |
| `ExternalInput.TimedOutConnectDoubles` | audio/pw_link.py:130-142 | a run that leaves a leg on both ports: the first pw-link times out after it has linked |
| `ProviderMapping.MappingIsTheLastFound` | artist_enrichment.py:785-922 | over any run of calls the artist is mapped iff it was or a matcher run found it, and then to the identity found last |
| `ProviderMapping.OneCallMapping` | artist_enrichment.py:785-922 | only a matcher run that found an identity changes one |
| `ProviderMapping.NothingForgotten` | artist_enrichment.py:389-440 | art, canonical name and match time survive every update |
| `ProviderMapping.OneCallVersion` | artist_enrichment.py:785-922 | from a row this matcher could have written, a call never lowers the version |
| `ProviderMapping.VersionsOnlyGrow` | artist_enrichment.py:818-886 | no run of calls lowers the version iff a mapped row is at most at the current version and any other row at zero |
| `ProviderMapping.FailureNeverRaises` | artist_enrichment.py:873-886 | a failed matcher run never raises the version |
| `ProviderMapping.NoEarlyRun` | artist_enrichment.py:838-906 | the next unforced matcher run after an unsuccessful one waits out its cooldown: seven days after a verdict, an hour after a failure |
| `ProviderMapping.NextRunIsMadeWhenDue` | artist_enrichment.py:838-906 | after an unsuccessful run the next one is made exactly when due: unmapped a week after a verdict or an hour after a failure, mapped when forced or an hour after a failure that left an older matcher version |
| `ProviderMapping.NothingToWaitFor` | artist_enrichment.py:816-906 | a first call asks at once, and so do a forced rematch and the replacement of an older version that has not failed; a current mapping never asks unless forced |
| `ProviderMapping.FoundIsStored` | artist_enrichment.py:853-872 | a run that found an identity is stored as just matched by the current version; art it did not bring is kept |
| `ProviderMapping.MappingOutlivesItsRun` | artist_enrichment.py:873-893 | a run that found nothing leaves a mapping as it is, notes attempt and error, and stamps it iff it was completed |
| `ProviderMapping.VerdictIsStored` | artist_enrichment.py:907-922 | without a mapping the verdict alone is stored, at version 0, beside what the row had learned before |
| `ProviderMapping.HitRefreshesArt` | artist_enrichment.py:821-836 | a current mapping takes new art and is stamped anew; without art nothing is written |
| `ProviderMapping.WrittenIdentity` | artist_enrichment.py:816-920 | a write that found nothing puts back the identity its call had read, also when it only refreshes the art |
| `ProviderMapping.IdentitySurvivesUnlessStale` | artist_enrichment.py:816-920 | over every interleaving of the reads and writes of any calls, art refreshes included, the stored identity always is the one found last iff no call that found nothing writes after its read went stale |
| `ProviderMapping.OneAtATimeIsNeverStale` | artist_enrichment.py:816-920 | calls that do not overlap never write a stale read |
| `ProviderMapping.RefreshPutsBackOldIdentity` | artist_enrichment.py:821-829 | an art refresh that puts an old identity back after a forced rematch corrected it |
| `ProviderMapping.OverlapLosesMapping` | artist_enrichment.py:816-920 | two overlapping first calls after which the found mapping is gone; one after the other they keep it |
| `ProviderMapping.VersionFallsOnlyByStaleWrites` | artist_enrichment.py:816-920 | over every interleaving, from a row this matcher could have written, a step lowers the version iff it writes for a call that does not stamp and had read a lower version than is stored by then |
| `ProviderMapping.OneAtATimeNeverLowers` | artist_enrichment.py:816-920 | calls that do not overlap never make such a write |
| `ProviderMapping.EnrichmentService.SetProviderArtist` | artist_enrichment.py:389-440 | the upsert of one row: new values win, but art, canonical name and match time stay when the update has none |
| `ProviderMapping.EnrichmentService.AnswerFromMapping` | artist_enrichment.py:818-851 | a current or cooling mapped row answers by itself |
| `ProviderMapping.EnrichmentService.Rematch` | artist_enrichment.py:853-893 | a mapped row is replaced only by a found identity, and a verdict, but no failure, stamps the current version |
| `ProviderMapping.EnrichmentService.ResolveMapping` | artist_enrichment.py:785-922 | only this row moves, and the caller is told a mapping iff one is stored, and the stored one |
| `ReleaseChoice.OrderDoesNotMatter` | artist_enrichment.py:1404-1451 | every reordering of the candidates leads to the same answer |
| `ReleaseChoice.SureAnswerIsSoleSurvivor` | artist_enrichment.py:1404-1451 | for any number of candidates the first signal that says anything decides, and an answer is sure iff it is the sole survivor of that signal |
| `ReleaseChoice.DisambiguateReleaseCandidates` | artist_enrichment.py:1404-1451 | the answer, confident iff something is chosen, with lookups of nobody's details or of exactly those of the two or three candidates the year leaves, each once and in order |
| `ReleaseChoice.LookUpTracks` | artist_enrichment.py:1435-1440 | one lookup per candidate of the pool, in order, and the candidates whose count is the wanted one |
| `OutputStateStore.NextKeepsInv` | audio/output_state_store.py:23-50 | every step of every writer keeps the history linear |
| `OutputStateStore.WriteKeepsInv` | audio/output_state_store.py:44-49 | what the lock holder checked is still stored when it writes |
| `OutputStateStore.RevisionNamesDocument` | audio/output_state_store.py:45-48 | whoever holds the current revision holds the current document |
| `OutputStateStore.NoUpdateIsLost` | audio/output_state_store.py:36-50 | over every interleaving each stored document has its predecessor's revision plus one, was prepared from exactly that predecessor, and keeps every earlier edit in order |
| `OutputStateStore.OneCommitPerRevision` | audio/output_state_store.py:36-50 | of all candidates with one expected revision at most one commits |
| `OutputStateStore.BrokenFileIsLeftAlone` | audio/output_state_store.py:23-34 | an unreadable file is never overwritten |
| `OutputStateStore.CommitIsItsSteps` | audio/output_state_store.py:36-50 | an uninterrupted commit is the four steps of the machine |
| `OutputStateStore.OutputStateStore.ReadState` | audio/output_state_store.py:23-34 | a missing file reads as the default state, a broken one raises |
| `OutputStateStore.OutputStateStore.Commit` | audio/output_state_store.py:36-50 | commits iff valid, prepared from the stored revision and written; otherwise the file is untouched, and which refusal it is |
| `ZipAlbum.CountersDiffer` | zip_album.py:249-258 | different counters give different names |
| `ZipAlbum.VariantIsSpelled` | zip_album.py:249-258 | a name that had to give way carries " (n)" behind it, n in decimal digits from 2 on |
| `ZipAlbum.VariantIsNew` | zip_album.py:249-258 | no variant of a name repeats an earlier one, whatever the case |
| `ZipAlbum.UniqueArchivePlaylistName` | zip_album.py:249-258 | the first free variant, found within size of used + 1 tries |
| `ZipAlbum.NamesDiffer` | zip_album.py:261-290 | no two playlists of an archive get names that differ only in case |
| `ZipAlbum.NamesAreDetermined` | zip_album.py:261-290 | the names are a function of the archive layout |
| `ZipAlbum.FirstOfStemKeepsIt` | zip_album.py:275-280 | the first member of a stem keeps the plain stem unless it is taken |
| `ZipAlbum.LaterOfStemIsQualified` | zip_album.py:275-285 | a later member of a stem is qualified by its folder, or by its position at the top, unless that is taken |
| `ZipAlbum.ZipPlaylistNames` | zip_album.py:261-290 | one name per member in archive order, each the first free variant of what its position calls for |
| `ZipExtractions.ZipExtraction.CheckZipLimits` | zip_album.py:168-193 | true exactly when count and declared sizes are within their limits |
| `ZipExtractions.ZipExtraction.CopyMemberBounded` | zip_album.py:196-224 | a member is written whole iff it reads to its end within its allowance, else nothing of it stays; the bytes written never exceed the budget |
| `ZipExtractions.ZipExtraction.Extract` | zip_album.py:320-355 | completes iff declared and real sizes fit, and never exceeds the total or a member limit whatever the archive claims |
| `FilterBanks.DefinitionsAreDetermined` | audio/filter_banks.py:35-48 | the grouping depends on the set of roles alone, not on order or duplicates |
| `FilterBanks.BankDefinitions` | audio/filter_banks.py:35-48 | the two loops build exactly the complete pairs and the roles left over |
| `FilterBanks.PartitionUnlessClash` | audio/filter_banks.py:35-48 | every active role is in exactly one bank iff no role is named like a complete pair |
| `FilterBanks.CompletePairsAreGrouped` | audio/filter_banks.py:39-43 | members of a complete pair are grouped and never stand alone |
| `FilterBanks.BanksAreOwned` | audio/filter_banks.py:51-58 | each bank id is among the owning ids of its roles |
| `FilterBanks.ResolveBank` | audio/filter_banks.py:61-70 | a configured bank that bears the name or holds the role, or none if there is none |
| `FilterBanks.ResolutionIsUnique` | audio/filter_banks.py:61-70 | a name resolves to one bank whatever the order |
| `FilterBanks.ResolvingTwice` | audio/filter_banks.py:61-70 | resolving a resolved id gives the same bank |
| `FilterBanks.SelectedBank` | audio/filter_banks.py:109-124 | Global for the plain mains, else All when stored while there are roles, else the id of the bank the stored name resolves to, and the fallback exactly when it resolves to none |
| `FilterBanks.ShownAgain` | audio/filter_banks.py:109-124 | storing the shown selection shows it again |
| `ClockSelect.TargetIsExact` | audio/alsa_ctl.py:251-268 | exactly when and where a selector moves: from Internal to the first locked digital source when wanted, from a digital source to Internal when not |
| `ClockSelect.SettlesIffInternalIsNotDigital` | audio/alsa_ctl.py:251-268 | a selector settles in one move iff its first Internal item does not itself look digital |
| `ClockSelect.EverySelectorIsExplained` | audio/alsa_ctl.py:295-353 | over any passes, wishes, locks and failures a selector is where it started, where something outside put it, or where a pass that reached it wrote it: on the first Internal item or on a digital source locked at that moment |
| `ClockSelect.OnePassSettles` | audio/alsa_ctl.py:317-353 | a complete visit leaves a card nothing to move |
| `ClockSelect.SecondPassMovesNothing` | audio/alsa_ctl.py:295-314 | a pass that reached everything is a fixpoint |
| `ClockSelect.AlsaCard.SelectClockSource` | audio/alsa_ctl.py:317-353 | moves each selector it reaches to its target; reports a source iff one moved and nothing failed, namely the one the last moved selector went to |
| `ClockSelect.SettleDigitalClocks` | audio/alsa_ctl.py:295-314 | each card ends as its wish says; the listing has, in card order, exactly the cards visited to their end on which something moved, with the wish and the source reported |
| `OutputLines.SplitInvertsJoin` | downloader.py:221-226 | splitting loses nothing: joining the parts gives the text back, and no part holds a break |
| `OutputLines.SplitOn` | downloader.py:221-226 | splitting a longer text only continues the part that was open |
| `OutputLines.OneLine` | downloader.py:169-173 | one part is one stripped line, or none when it is blank |
| `OutputLines.LinesAppend` | downloader.py:221-226 | the lines of parts are those of each part, in order |
| `OutputLines.DownloadOutput.HandleOutputLine` | downloader.py:169-173 | blank lines are dropped, others handed over stripped |
| `OutputLines.DownloadOutput.Receive` | downloader.py:221-226 | a chunk hands over exactly the lines it completes |
| `OutputLines.DownloadOutput.EndOfStream` | downloader.py:215-220 | the end of a pipe hands over its open rest |
| `OutputLines.DownloadOutput.Flush` | downloader.py:228-231 | the rest of every open pipe is handed over |
| `OutputLines.DownloadOutput.ReadAll` | downloader.py:196-231 | whatever the chunks, their interleaving and where reading stops, each pipe's lines are the non-blank stripped lines of its whole text |
| `WifiScan.UnescapeInvertsEscape` | armbian/armbian-web-config.py:381-403 | decoding undoes every escaping into literals, hex pairs of either case and doubled backslashes |
| `WifiScan.SsidRoundTrip` | armbian/armbian-web-config.py:381-403 | with the separator space in front nothing of the SSID is trimmed |
| `WifiScan.DecodeIwSsid` | armbian/armbian-web-config.py:381-403 | the index loop computes that decoding |
| `WifiScan.CommitMerges` | armbian/armbian-web-config.py:412-440 | committing one more record keeps every entry the summary of all its records |
| `WifiScan.RecordsAreBlocks` | armbian/armbian-web-config.py:441-468 | one record for each access point, in order, and each is that of its own block of lines: the last SSID, signal and country line in it, and whether any line names a security suite |
| `WifiScan.Commit` | armbian/armbian-web-config.py:412-440 | one commit of the pass |
| `WifiScan.MergeRecords` | armbian/armbian-web-config.py:406-468 | one pass leaves each reported, non-empty SSID once, with its maximum known signal, whether any record is secured and its first country |
| `WifiScan.InsertedIsOrdered` | armbian/armbian-web-config.py:470-481 | inserting keeps strongest first, unknown last, ties by folded name, and loses nothing |
| `WifiScan.ParseWifiScan` | armbian/armbian-web-config.py:406-481 | the sorted summary of the scan, each network once |

## Left out

- Bluetooth agent, link routing and native-rate follow of `audio/bluetooth.py`: separate from the deferred commands.
- Bluetooth: a bluetoothctl command whose caller was cancelled keeps running in its worker thread; only the start of commands is modelled.
- ExternalInput.ExternalInputRouting.DisconnectPorts: a disconnect of a link that exists is taken to succeed, and disconnects are not cancelled half-way.
- ExternalInput.ExternalInputRouting.Disable: not interleaved with a running sync; the caller holds the source-transition lock.
- ExternalInput: trimming of names, the availability confirmation and the monitor loop.
- InputArming.SustainedInRun: runs in which a STDIN writer or a positive external report appears arm by that and are not covered; the detector object says the same of its history with `captureOnly`.
- InputActivity: `local_signal_valid`, the last block kept for display, and signal analysis of the samples; levels and times are reals.
- OutputSwitch.AudioHost.Apply: only this code and concurrent state editors act on the host; the graph is not moved by others, and a commit raises only before it replaces the file.
- OutputSwitch.AudioHost.SeedHdmiRouting: what is seeded is arbitrary, and which sinks are HDMI with more than two ports is a given property of the key; exceptions that are no `Exception` are not modelled inside the seeding.
- ChannelTiers: the silence player that wakes the sink, and parsing of listings, rules and profiles.
- ConnectionManagers: logging, `drain_workers`, `shutdown` and `pending_count`; a transport close is modelled by its being scheduled.
- ProviderMapping: descriptions, similar artists, albums and the request pacing; the matcher's answer is arbitrary.
- ReleaseChoice.DisambiguateReleaseCandidates: a lookup gives the same answer for the same release within one choice.
- OutputStateStore: migration and validation of documents are abstract, the file is not edited or deleted by anything but commits, and a document's content is represented by the edits that made it.
- ZipAlbum.ZipPlaylistNames: case folding is any function that leaves an appended counter alone.
- ZipExtractions.ZipExtraction.Extract: path checks are flags of a member, and what a later member of the same path overwrites still counts as written.
- FilterBanks: labels, comparison slots and summaries; pair and role names are enumerated rather than spelled.
- ClockSelect: enumeration of cards and control elements; a name's patterns are flags, and a failing write is taken not to have moved the selector.
- OutputLines: chunks are decoded text, so a UTF-8 sequence split between two reads is not covered; progress parsing of a line.
- WifiScan: the patterns of a line, decoding of the SSID bytes to text, and rounding of the signal.
- FastAPI routes, pages, provider clients, the installer, and everything behind `hdmi`, the DSP runtime and the playback coordinator.
