# Verification of the hub firmware's engines

This project models the small hand-written engines of an ESP32 hub and proves what they are for. FreeRTOS task
bodies are atomic steps of transition systems, and the NVS flash is a finite map from names to texts.

Every engine comes in three layers. A specification gives the state as one value and each C function as a
function on it. A class holds the static arrays and counters as the C code does, and each of its methods is proved
to compute exactly the specification's next state. Lemmas then compare the specification with something simpler:
a one-sequence interpreter, a list, a pair of values, an unbounded queue, a reversed history, a fold over events.

| files | what they model |
|---|---|
| `Base64*.dfy` | the codec everything persisted passes through (section 4 of RFC 4648) |
| `Pattern.dfy`, `Engine*.dfy` | sequence patterns, the engine for 128 concurrent sequences, its three event rings and its ports |
| `Flash.dfy`, `Machine.dfy`, `Registry*.dfy` | the machine registry, its numbered files, and deployment |
| `Keys*.dfy` | key rotation with rollback |
| `MessageQueue.dfy` | the ring of execution messages |
| `OfflineLog.dfy`, `LogRestart.dfy` | the paged offline log, its drain and its restart |
| `Transaction*.dfy`, `Deployment.dfy` | the transaction flags of a machine, and which it is deployed with |
| `MasterFsm.dfy`, `FsmModes.dfy`, `Launch*.dfy` | the master state machine, its effects on flags, and the launch handshake |
| `Hub*.dfy` | state machine, launcher and registration checks together |
| `Handoff.dfy`, `PinFrames.dfy` | message hand-off between tasks, and the two input frames |

`dafny verify dfyconfig.toml` checks all of it.

## What is conditional, and what turned out false

* The sequence engine keeps its invariant exactly on steps that overrun nothing (`KeepsExactlyWhenClean`), which can
  be told from the slots and ring entries before the step (`PassFitsIff`); an overrun leaves a sequence waiting for
  ever (`OverrunStrands`, `StrandedForever`).
* A push displaces a sequence in use exactly if the last search found no free slot and slot 0 is taken
  (`PushDisplacesIff`); the event the displaced sequence waited for can then move the new one past its first token
  without carrying it out (`DisplacedInputSkipsIff`, `DisplacedDelaySkipsIff`).
* The ports get what a sequence asks for, in order, exactly if none of its outputs is overwritten or flushed and no
  pass finds some on both sides of the output ring's wrap (`PortsFollowScriptIff`, `FinishedIsWrittenIff`); two
  counters tell when that threatens (`DangersByCounting`). A clean run from the start that writes a port in reverse
  is `ReversedAtTheWrap`.
* A buffer of 2n bytes is too small for the encoding of n bytes exactly when n is 1, 2 or 4 (`DoubleBufferFits`).
* Power lost inside any operation of the registry is harmless exactly if no machine is just being freed
  (`CutHarmlessIff`); inside a free the next start makes up one machine or two (`TornFree`).
* Power lost between the two tables of a key's rollback forgets its version, and then the number is issued again,
  exactly if the current version was the newer one (`TornTopIff`, `CountKeptIff`, `ForgottenIsReissued`);
  `VersionIssuedTwice` is such a run.
* Draining right after logging starts one slot past the newest entry (`DrainAfterLogging`), which is past the page
  after every fifth entry (`ReadsOutsideIff`); after the flush that the monitoring task performs on a reconnection,
  all but the first entry of the RAM page are never handed out (`FlushThenDrain`).
* A restart brings back the RAM page of the offline log only as last flushed (`RestartKeepsIff`); after a flush it
  brings back also what the drain will not hand out (`RestartAfterFlush`). It asks for no drain if it brings back
  none of that page, even if saved pages wait.
* A launch reports the mode it was started for even if the wish has changed meanwhile
  (`ChangedWishIsMisreported`). A launch with an unwanted service that it does not dismiss, or that is kept on,
  never completes (`LaunchCompletesIff`); `LaunchUnderWayIff` says exactly when one under way can still report.
* State machine, launcher and registration together can reach states with no way on but into error: fallback asked
  for while idle mode's services are leaving (`AskedTooSoonHangs`), idle mode asked for by a check that began before
  fallback was (`IdleTooLateHangs`), a disengagement reported that did not happen (`MisreportedHangs`), running mode
  engaged with the fallback service kept on (`FallbackKeptHangs`). No time is modelled: a task may take as long as it
  likes between two steps. The last of these runs needs that, since in it a registration check begins before the
  event of the last one has been polled; the source pauses five seconds after such an event, and the state machine
  polls twice a second. Idle mode is never asked for in running mode (`IdleIsNotAskedWhenRunning`).
* Despite its name, `machines_check_port_free` reports success when the port is taken; the model follows the code.

## Model

| member | source | states |
|---|---|---|
| Base64.EncodeBuffer | src/base64_coding.c:83-116 | the shift-and-mask loop writes exactly the RFC 4648 encoding and its NUL, and nothing past it |
| Base64.EncodeStep | src/base64_coding.c:96-113 | one pass of the loop writes the four characters the RFC's grouping of bytes into sextets gives |
| Base64.EncodeGroupByShifts | src/base64_coding.c:97-112 | the accumulator's shifts and masks are the division of 24 bits into four sextets |
| Base64.DecodeBuffer | src/base64_coding.c:118-152 | returns 1 exactly for texts of a length divisible by four over the alphabet, and then overlays the buffer group by group, leaving padded bytes as they were |
| Base64.DecodeStep | src/base64_coding.c:138-149 | one pass of the loop is the overlay of one group, malformed padding included |
| Base64.DecodedSize | src/base64_coding.c:46-67 | strips every trailing '=' with unsigned wrap-around, and gives the number of bytes for canonical texts |
| Base64.AlphabetRoundTrip | src/base64_coding.c:12-20 | the inverse table undoes the alphabet |
| Base64.AlphabetRoundTripBack | src/base64_coding.c:12-20 | the alphabet undoes the inverse table on every valid character but the padding |
| Base64Alphabet.AlphabetIsStandard | src/base64_coding.c:12-16 | the alphabet is the 64 characters of table 1 of RFC 4648 in order, and the inverse table gives a character's place among them |
| Base64Proofs.EncodeCanonical | src/base64_coding.c:83-116 | every encoding is a canonical padded text of 4*ceil(n/3) characters |
| Base64Proofs.OverlayRestores | src/base64_coding.c:118-152 | decoding an encoding into any buffer writes exactly the encoded bytes and touches no other |
| Base64Proofs.DecodeOfEncode | src/base64_coding.c:83-152 | decoding after encoding is the identity on all byte strings |
| Base64Proofs.EncodeOfDecode | src/base64_coding.c:83-152 | a text is canonical if and only if it is an encoding, if and only if encoding its decoding gives it back |
| Base64Proofs.DoubleBufferFits | src/machines.c:517-528 | a buffer of 2n bytes, as every caller allocates, holds the encoding and its NUL if and only if n is 3 or at least 5 |
| Base64Proofs.PadsOfEncoding | src/base64_coding.c:58-64 | an encoding ends in exactly the number of pads its length calls for |
| Pattern.TokenAt | src/pin_seq.c:340-346 | the repeated strtok walk finds token number index of the pattern, or NULL past its end |
| Pattern.SplitOfJoin | src/pin_seq.c:340-346 | reading back a pattern written from its tokens gives the tokens |
| Pattern.SplitIsPlain | src/pin_seq.c:334-352 | tokens are never empty, and so few that the 8-bit index cannot wrap on a 40-character pattern |
| Pattern.GetTicks | src/pin_seq.c:415-430 | the 16-bit digit loop and scaling equal the numeral's value scaled, modulo 2^16 |
| Pattern.TicksExact | src/pin_seq.c:415-430 | the stored tick count is the intended delay if and only if the numeral is at most 13107 for '%', 1310 for '#', and for '&' does not wrap below ten |
| EngineTokens.ScriptIsMeant | src/pin_seq.c:360-392 | a pattern written from a list of delays and signals, with %, #, &, h, l, H and L, is that list of actions: tenths of a second, and levels watched for or driven on the port of the first signal of that name, 255 if there is none |
| EngineTokens.StuckIff | src/pin_seq.c:360-374 | a token asks for nothing if and only if it has no second key or does not begin with %, #, & or a capital letter |
| EngineTasks.SequenceEngine.ClkPitPush | src/clk_pit.c:111-131 | the event goes into the next ring entry with five ticks per tenth of a second |
| EngineTasks.SequenceEngine.ClkPitUpdate | src/clk_pit.c:71-99 | one pass counts every active entry down once and marks the expired ones done |
| EngineTasks.SequenceEngine.ClkPitNext | src/clk_pit.c:133-151 | reports the first done entry and frees it, or reports none and changes nothing |
| EngineTasks.SequenceEngine.PinEvtPush | src/pin_evt.c:130-152 | the event goes into the next entry of the ring for its direction |
| EngineTasks.SequenceEngine.PinEvtUpdate | src/pin_evt.c:172-195 | one pass drives every pending output level and activates every pending input whose level was seen |
| EngineTasks.SequenceEngine.PinEvtNext | src/pin_evt.c:154-170 | reports the first active input entry and frees it, or reports none and changes nothing |
| EngineTasks.SequenceEngine.PinSeqDelay | src/pin_seq.c:274-297 | a slot standing at a delay token is moved past it, any other is left alone |
| EngineTasks.SequenceEngine.PinSeqSignal | src/pin_seq.c:299-329 | a slot standing at a signal token is moved past it if the port or the level agrees |
| EngineTasks.SequenceEngine.PinSeqEvent | src/pin_seq.c:331-394 | an active slot is finished, armed, made to wait or advanced as its current token says |
| EngineTasks.SequenceEngine.PinSeqUpdate | src/pin_seq.c:247-272 | one pass absorbs all events and then fires every active slot in order |
| EngineTasks.SequenceEngine.PinSeqPush | src/pin_seq.c:195-221 | the sequence takes the cursor's slot from its first token, and the cursor moves to the next free one |
| EngineTasks.SequenceEngine.PinSeqNext | src/pin_seq.c:224-245 | hands out the first done slot and frees it |
| EngineTasks.SequenceEngine.QueuesFlush | src/pin_seq.c:177-193 | every slot and event is dropped and every cursor reset |
| EngineProofs.StepKeeps | src/pin_seq.c:195-394 | one clean step of any task keeps the engine's invariant |
| EngineProofs.ReachableInv | src/pin_seq.c:195-394 | the invariant linking slots and events holds in every reachable state of every clean interleaving |
| EngineProofs.EngineRefinesInterpreter | src/pin_seq.c:247-394 | in every clean interleaving, what each slot has carried out, an output counting once it is queued, is exactly what a one-sequence interpreter does with the first index tokens plus a start of the next; a reported sequence was carried out whole |
| EngineProofs.PendingHasOneEvent | src/pin_seq.c:331-394 | a slot is pending exactly when one live event carries its number, in the right ring and with the right port and level; no other slot has any |
| EngineProofs.AbsorbClkKeeps | src/pin_seq.c:253-255 | no stale clock event ever advances a slot |
| EngineProofs.AbsorbInKeeps | src/pin_seq.c:257-259 | no stale input event ever advances a slot, although the signal check accepts a match of port or level alone |
| EngineProgress.UpdateProgress | src/pin_seq.c:247-272 | every pass moves every slot that can be moved, and none backwards |
| EngineProgress.UsefulPassesBounded | src/pin_seq.c:247-394 | 3*(tokens-index) plus a status rank, which never gets below zero, bounds the number of passes that move a slot, whatever the interleaving |
| EngineProgress.FireArms | src/pin_seq.c:360-373 | arming a delay token stores its ticks for that slot |
| EngineProgress.DelayNeverEarly | src/clk_pit.c:71-99 | until as many clock passes as the delay has ticks, its slot has not moved, however the tasks interleave |
| EngineProgress.DelayExpires | src/clk_pit.c:71-99 | the clock pass after those expires the delay, and the next pass of the sequence task moves the slot |
| EngineInputs.PassAt | src/pin_evt.c:172-195 | after a pass an input event is active if and only if it was, or was pending and its level was seen; nothing else of it changes |
| EngineInputs.LevelNeverEarly | src/pin_evt.c:187-193 | in every clean run without a flush whose passes never see an event's level, the event stays pending and its slot does not move |
| EngineInputs.LevelMoves | src/pin_evt.c:187-193 | the first pass that sees the level makes the event active, and then, whatever comes between, the next pass of the sequence task moves the slot |
| EngineInputs.FireStartsWatching | src/pin_seq.c:374-392 | reaching an input token stores the port and the level it watches, for its slot |
| EngineOverrun.OverrunStrands | src/clk_pit.c:111-131 | pushing onto a live ring entry leaves the overwritten event's slot pending without an event |
| EngineOverrun.StrandedForever | src/pin_seq.c:247-394 | such a slot is never moved again before a flush or a reuse |
| EngineSlots.PushDisplacesIff | src/pin_seq.c:195-221 | a push displaces a sequence in use if and only if the search of the last push found no free slot behind its own and slot 0 is in use now; the search takes the first free one |
| EngineInputs.DisplacedInputSkipsIff | src/pin_seq.c:299-330 | the event of a sequence displaced while it waited moves the new one past its first token, not carried out, if and only if that token is about the same port or the same level |
| EngineInputs.DisplacedDelaySkipsIff | src/pin_seq.c:274-297 | an expired delay of a displaced sequence does so if and only if the new one begins with a delay |
| EngineSlots.Fresh | src/pin_seq.c:183-193 | the start and a flush leave all 128 slots free and the cursor at 0 |
| EngineSlots.FirstLap | src/pin_seq.c:195-221 | in every clean run without a flush the first 128 pushes take the 128 slots in order, whatever the tasks do meanwhile |
| EngineSlots.NextReports | src/pin_seq.c:224-245 | a report frees exactly the first finished slot and touches no other |
| EngineSlots.AllReported | src/pin_seq.c:224-245 | as many reports as there are finished slots report every one |
| EngineRings.PassFitsIff | src/clk_pit.c:111-131 | a pass of the sequence task overruns no ring if and only if, from the indices on and around, as many of the 64 clock entries are free as slots are about to arm a delay, and as many of the 256 input entries as slots are about to watch a port |
| EngineRings.TurnedAtFirst | src/pin_seq.c:177-189 | the start and a flush begin at entry 0 of the clock and input rings |
| EngineRings.RingsTurn | src/pin_evt.c:130-152 | in every run, clean or not, the n-th delay since the last flush takes clock entry n mod 64 and the n-th watched port input entry n mod 256, counted from zero |
| EngineOverrun.KeepsExactlyWhenClean | src/pin_seq.c:195-394 | the invariant of slots and events survives a step if and only if the step overruns no live entry of the clock or input ring and pushes nothing malformed or onto a pending slot |
| EngineOutputs.EnqueueKeepsIff | src/pin_evt.c:130-152 | queueing an output keeps the order of a push's outputs if and only if it does not overwrite a waiting one of them |
| EngineOutputs.PassKeepsIff | src/pin_evt.c:172-185 | a pass over the output ring keeps that order if and only if it does not find outputs of the push on both sides of the wrap |
| EnginePorts.WritesFollowQueueIff | src/pin_evt.c:130-185 | in every run, clean or not: the writes made for a push and then its waiting outputs are what it queued, each once and in order, if and only if none was overwritten, none passed over on both sides of the wrap, none flushed |
| EnginePorts.PortsFollowScriptIff | src/pin_seq.c:331-394 | in every clean run the port writes made for a sequence, followed by what waits, are exactly the outputs its first index tokens ask for, in order, if and only if none of those three things happened to it |
| EnginePorts.FinishedIsWrittenIff | src/pin_seq.c:224-245 | and after it has been finished, in every continuation, they are all its script asks for, under the same condition |
| EnginePorts.DangersByCounting | src/pin_evt.c:130-185 | in every run the next output overwrites a waiting one exactly when 256 were queued since the last pass, and a pass meets the wrap exactly when more were queued since the last than the index has counted |
| EnginePorts.PassWritesItsTags | src/pin_evt.c:172-185 | in every run the history of writes grows by what the pass writes to the ports, in the order of the ring |
| EngineWrap.ReversedAtTheWrap | src/pin_evt.c:130-185 | a clean run from the start after which a port was written in reverse order and is left at the level asked for first |
| EngineOverrun.SoundThroughoutIff | src/pin_seq.c:177-394 | slots, events and the order of every push's port writes are sound throughout a run from the start if and only if no step overruns any of the three rings, pushes onto a pending slot or something malformed, meets the wrap or flushes a waiting output |
| Flash.NumeralOfDecimal | src/machines.c:398-419 | a zero-padded counter reads back as the number written |
| Flash.DecimalInjective | src/machines.c:512-515 | different numbers have different file names |
| Machine.SavedFlags | src/machines.c:331-339 | flags read back from their file are the flags saved |
| Machine.SavedStatic | src/machines.c:321-329 | static information read back from its file is the one saved |
| RegistryTasks.MachineTable.FindName | src/machines.c:492-510 | the first machine of that name, or 255 |
| RegistryTasks.MachineTable.CheckPortFree | src/machines.c:690-705 | answers whether some machine owns the port |
| RegistryTasks.MachineTable.UpdateMetadata | src/machines.c:398-407 | the counter file follows the count where it exists |
| RegistryTasks.MachineTable.SaveMachine | src/machines.c:567-582 | the machine is appended, its two files written under the next number, and the counter updated |
| RegistryTasks.MachineTable.FreeFiles | src/machines.c:421-445 | the machine's files go and the last machine's files take their names |
| RegistryTasks.MachineTable.FreeMachine | src/machines.c:472-490 | the last machine takes the freed one's place in the table and in flash |
| RegistryTasks.MachineTable.ClearEvery | src/machines.c:312-319 | every machine and file is removed, last to first |
| RegistryTasks.MachineTable.ChangeFlags | src/machines.c:557-565 | the machine has the new flags and is marked dirty |
| RegistryTasks.MachineTable.UpdateMachine | src/machines.c:915-927 | a dirty machine's flags are written to its file and the mark cleared |
| RegistryTasks.MachineTable.UpdateChanged | src/machines.c:929-941 | every dirty machine is written |
| RegistryTasks.MachineTable.ClearMemory | src/machines.c:447-458 | the table is emptied, the flash left alone |
| RegistryTasks.MachineTable.Start | src/machines.c:292-301 | as many machines as the counter says are loaded from their files |
| RegistryTasks.MachineTable.FillSignals | src/deployment.c:510-577 | the signals are filled in one by one until one is malformed or one of its two ports is taken |
| RegistryTasks.MachineTable.Deploy | src/deployment.c:361-449 | an accepted deployment is saved disabled, idle and dirty; any other changes nothing |
| Deployment.DeployAdds | src/deployment.c:361-449 | an accepted deployment appends the machine asked for, signal by signal and with its sequences, denied, idle, free and without action, and a restart brings it back so |
| Deployment.DeployedWaitsForAllow | src/deployment.c:424-433 | a deployed machine takes no trigger before an allow action has been carried out on it |
| RegistryProofs.CandidateIsAdmissible | src/deployment.c:451-580 | a deployment is accepted if and only if its name is new, its fields well formed, at most two signals, and all ports free; the machine is filled in as asked |
| RegistryProofs.SaveRefines | src/machines.c:567-582 | saving appends to the list |
| RegistryProofs.FreeFiles | src/machines.c:421-445 | the files below the new count are those of the shortened list |
| RegistryProofs.FreeRefines | src/machines.c:472-490 | freeing is a swap removal from the list |
| RegistryProofs.ClearAllRefines | src/machines.c:312-319 | clearing leaves the empty list, and the counter at zero |
| RegistryProofs.FlushRefines | src/machines.c:929-941 | after a flush every machine's saved flags are its flags: the dirty marks miss none |
| RegistryProofs.RebootRefines | src/machines.c:292-361 | whatever RAM held, a restart yields the listed machines with the flags last saved |
| RegistryCuts.RegistryRefinesList | src/machines.c:292-582 | over every run of deployments, clears, flag changes, dumps, restarts, updates and power cuts at any harmless point inside any of them, table and numbered files stay in step with a plain list; names stay distinct, ports disjoint, and no other file changes |
| RegistryCuts.FirstBoot | src/machines.c:198-209 | a flash without the counter file starts an empty registry |
| RegistryCuts.UpdateRebuilds | src/MFSMEffects.c:99-108 | after any run, flushing, clearing RAM and reloading rebuilds the same registry at the same indexes |
| RegistryCuts.PowerCutKeeps | src/machines.c:292-361 | after any run, a restart loses no machine and only flags of machines marked dirty |
| RegistryCuts.LookupIsUnique | src/machines.c:637-648 | after any run, a name is found if and only if a machine has it, and only one does |
| RegistryCuts.PortsStayDisjoint | src/deployment.c:540-571 | after any run, no port has two owners |
| RegistryCuts.ClearRemovesOnlyThat | src/deployment.c:724-736 | clearing a name removes that machine and leaves every other findable, unchanged |
| RegistryCuts.CutHarmlessIff | src/machines.c:292-582 | power cut after any number of writes of any operation: the restart yields a list of machines at all if and only if the cut is not inside the freeing of one, and then it is the list before or after, or with as many machines cleared or dumped as the writes had come to |
| RegistryCuts.WritesMakeStep | src/machines.c:312-582 | the listed writes, one after the other, make each operation's flash |
| RegistryCuts.TornSave | src/machines.c:547-582 | power lost between the writes of a save leaves the files of the machines there were |
| RegistryCuts.TornFree | src/machines.c:421-490 | power lost after any write of a free but the last: the counter still counts all machines, and it is stated for every entry which halves of it the restart makes up and which it takes from where |
| RegistryCuts.TornClearAll | src/machines.c:312-319 | power lost after j writes of clearing all: j div 3 machines are gone, and the last one left is whole if and only if 3 divides j or all is written |
| RegistryCuts.TornFlush | src/machines.c:929-941 | power lost after j dumps of a flush: exactly the first j dirty machines have their flags in flash |
| RegistryCuts.NothingLeftBehind | src/machines.c:312-582 | without cuts inside an operation, no run leaves a machine file that the counter does not count |
| KeysTasks.KeyTable.constructor | src/registration.c:417-439 | the tables are loaded, or start empty and the current one is saved |
| KeysTasks.KeyTable.RotateKey | src/registration.c:310-348 | the marks move to the other slot under a new version, and value and tables are written in that order |
| KeysTasks.KeyTable.RollBackKey | src/registration.c:278-308 | the two marks are swapped and both tables written |
| KeysTasks.KeyTable.ForwardKeys | src/registration.c:214-219 | the attempts counter is reset |
| KeysTasks.KeyTable.ConnectionFailed | src/registration.c:221-246 | nothing unless some key is rolled; two failures are counted, the third rolls every rolled key back |
| Keys.SavedMarks | src/registration.c:248-272 | a saved table of marks reads back as it was |
| KeysProofs.Names | src/params.c:241-251 | the two slots of the eleven keys and the two tables have pairwise different names |
| KeysProofs.RotateRefines | src/registration.c:310-348 | rotation: previous becomes the current value, current the new one, all other keys untouched |
| KeysProofs.TornRotateRefines | src/registration.c:310-348 | power lost between any two writes of a rotation leaves the old value current before the second write and the new one from then on |
| KeysProofs.SwapRefines | src/registration.c:238-244 | rolling back exchanges current and previous of every rolled key |
| KeysProofs.TornSwapRefines | src/registration.c:238-244 | power lost anywhere in a rollback leaves each key with its current or its previous value |
| KeysProofs.KeysRefinePairs | src/registration.c:214-348 | over every run of rotations, failures, confirmations and power cuts between any two writes, each key loads the current value of an abstract pair, rolled keys can go back, and no other file changes |
| KeysProofs.FirstBoot | src/registration.c:417-439 | a flash without tables starts with the plainly named values |
| KeysProofs.EveryThirdFailureSwaps | src/registration.c:221-246 | n failures from t counted ones swap all rolled keys (t+n) div 3 times |
| KeysProofs.SwappingTwice | src/registration.c:278-308 | two swaps restore every pair |
| KeysVersions.TornTopIff | src/registration.c:221-308 | power cut after any number of writes of a failure: a key's highest version on record is kept if and only if the cut is not between the two tables of that key with its current version the newer |
| KeysVersions.CountKeptIff | src/registration.c:214-348 | below the 8-bit limit the highest version on record goes up by one with each rotation of the key and nothing else, throughout a run, if and only if no cut of the run is such a one |
| KeysVersions.VersionsCountUp | src/registration.c:310-335 | and then the versions issued for the key count up by one, whatever rotations, failures, confirmations and cuts are mixed |
| KeysVersions.ForgottenIsReissued | src/registration.c:303-335 | after such a cut the next rotation issues a number on record already, one of those issued in the run if the older version is no older than the run |
| KeysVersions.VersionIssuedTwice | src/registration.c:221-335 | a run from the first start in which two rotations of a key both issue version 1 |
| KeysVersions.VersionGrows | src/registration.c:314-317 | a new version exceeds both recorded ones if and only if neither is 255 |
| MessageQueue.ExecutionQueue.QueueMessage | src/execution.c:462-487 | the message takes the cell at the index, which wraps past cell 55 to cell 1 and counts a lap |
| MessageQueue.ExecutionQueue.DequeueMessage | src/execution.c:489-519 | the message in turn is handed over if one waits and the post succeeds; otherwise nothing changes |
| MessageQueue.NextSlot | src/execution.c:476-481 | message n >= 1 sits at cell 1+((n-1) mod 55), and laps are counted where the index wraps |
| MessageQueue.GuardIsExact | src/execution.c:491-492 | the guard holds if and only if a message waits, and the cell in turn holds the oldest |
| MessageQueue.EnqueueRefines | src/execution.c:462-487 | with room, queueing keeps every waiting message |
| MessageQueue.DequeueRefines | src/execution.c:489-519 | delivering takes the oldest message, a failed post none |
| MessageQueue.NothingLostIff | src/execution.c:462-487 | queueing keeps every waiting message in its cell if and only if fewer than 55 wait (or the first 55 do), else the one queued 55 before is overwritten |
| MessageQueue.RingRefinesQueue | src/execution.c:462-519 | over every run with room, the ring is a first-in first-out queue: each message delivered once, in order |
| MessageQueue.DeliversInOrder | src/execution.c:462-519 | from the ring as it starts, what has been delivered is a prefix of what was queued, and the guard is down exactly when it is all of it |
| MessageQueue.SentMarkIff | src/execution.c:462-519 | over every run with room, of the last 55 messages a cell is marked sent if and only if its message has been delivered |
| OfflineLog.SavedPage | src/machines.c:1015-1024 | a page read back is the page written |
| OfflineLog.LogTable.LogStep | src/machines.c:1290-1326 | a full page is rotated out first, then the entry is appended in RAM |
| OfflineLog.LogTable.RotateLogs | src/machines.c:1047-1056 | the RAM page goes to the numbered file, the number wrapping after ten |
| OfflineLog.LogTable.RewindLog | src/machines.c:1068-1078 | the last saved page is read over the RAM page |
| OfflineLog.LogTable.UnlogStep | src/machines.c:1204-1236 | hands out the entry at the cursor, or what lies past a full page, and steps it back, across pages, or withdraws the dump request |
| OfflineLog.BlankIsZero | src/machines.c:946-948 | the blank entry is what a zeroed static array holds |
| OfflineLog.AppendLogs | src/machines.c:1290-1326 | one logged entry keeps the correspondence of RAM page and saved pages to everything logged |
| OfflineLog.RetainedIsSuffix | src/machines.c:1047-1056 | saved pages and RAM entries together are a suffix of everything logged, without a gap |
| OfflineLog.WholeIff | src/machines.c:1290-1326 | from an empty log, everything logged is retained if and only if it is at most 55 entries |
| OfflineLog.DrainReverses | src/machines.c:1204-1236 | a drain hands out RAM slots count..0 and then each saved page from last slot to first, newest page first, each once |
| OfflineLog.DrainedAt | src/machines.c:1204-1236 | call i of a drain hands out entry 5*page+count-i of what the log holds |
| OfflineLog.DrainEnds | src/machines.c:1219-1231 | 5*page+count falls by one per call, and the dump request is withdrawn by exactly the last call |
| OfflineLog.LoggedIsDrained | src/machines.c:1204-1326 | from an empty log a dump is asked for if and only if anything was logged, and the request stands until everything retained has been handed out |
| OfflineLog.DrainAfterLogging | src/machines.c:1204-1326 | draining right after logging hands out one left-over entry first, or what lies past the page if it is full, and then everything retained, newest first, each once |
| OfflineLog.ReadsOutsideIff | src/machines.c:1204-1326 | from an empty log a drain hands out memory past the page if and only if a positive multiple of five entries was logged; after the flush it never does |
| OfflineLog.FlushThenDrain | src/machines.c:1277-1281 | after the flush that precedes a drain, of the RAM page only the first entry is handed out; exactly the later ones are lost |
| LogRestart.FilesKeepUp | src/machines.c:962-1001 | over every run of log steps, drain calls, flushes and restarts the page counter on file is the log's, and the other one too unless a flush has reset it |
| LogRestart.RunDrains | src/machines.c:1204-1236 | a drain that saves its counters with every call is the drain of the log |
| LogRestart.RestartKeepsIff | src/machines.c:962-1078 | after any run a restart brings back every saved page, and what the log holds is unchanged by it if and only if the page last flushed begins with RAM's entries and their counter is the one on file; it asks for a dump if and only if it brings back some of the RAM page |
| LogRestart.RestartAfterFlush | src/machines.c:1277-1281 | a flush and then a restart bring back everything the log held before the flush |
| LogRestart.RestartWithoutFlush | src/machines.c:1058-1066 | in runs without a flush a restart reads a blank page into RAM |
| Transactions.FlagRecord.Dispatch | src/machines.c:812-837 | triggers are ignored on a denied or controlled machine, actions on a running one, everything else accepted |
| Transactions.FlagRecord.FinishSequence | src/execution.c:423-432 | an accepted finished sequence changes the flags and logs as its kind and status say; an ignored one changes nothing |
| Transactions.FlagRecord.ReceiveAction | src/execution.c:434-448 | an accepted running action takes control unless the hub has it, and becomes the current action |
| Transactions.FlagRecord.ClearStatus | src/machines.c:775-789 | a fix denies, idles and frees the machine |
| Transactions.ControlHeld | src/machines.c:812-913 | control never passes directly between hub and transaction: it is held until a success event or a fix |
| Transactions.FreedOnlyByAnEnd | src/machines.c:812-913 | a change of who controls always goes through a free machine, at a success event or a fix |
| Transactions.RunningHeld | src/machines.c:812-885 | while running, idle returns and allowed changes only by a success event or a fix |
| Transactions.ActionHeld | src/machines.c:812-913 | the action of a controlled running machine stays until the transaction ends |
| Transactions.TriggersAreSeparated | src/machines.c:820-829 | between two accepted triggers there is always a success event or a fix |
| Transactions.ActionsAreSeparated | src/machines.c:833-836 | between two actions that set the machine running there is always a success event or a fix |
| Transactions.NoTriggerWhileDenied | src/machines.c:823-825 | a denied machine takes no trigger before an allow action has finished |
| Transactions.ChangedMeansOffline | src/machines.c:848-875 | sequence_changed is set if and only if a trigger was taken offline and the machine neither allowed nor fixed since |
| Transactions.LogsWhatItLeaves | src/machines.c:842-913 | nothing is logged online; offline a step logs at most one entry, the flags it leaves with the old sequence_changed |
| TransactionHistory.AllowedIff | src/machines.c:866-885 | at any point of any run a machine is allowed if and only if "allow" was carried out on it while idle with neither "deny" nor a fix since, or it was so at first and there was neither |
| TransactionHistory.RunningIff | src/machines.c:842-885 | it is running if and only if a running action began on it while idle, or it was so at first, with no success event and no fix since |
| TransactionHistory.ControlIff | src/machines.c:842-913 | the hub controls it if and only if one of its triggers took it while allowed and free, a transaction if and only if an ordered action found it idle and free, with no success event and no fix since |
| TransactionHistory.ActionIs | src/machines.c:842-913 | its action is the name of the last trigger or ordered action taken, or none if "allow" or a fix came since |
| MasterFsm.MasterMachine.QueueEvent | src/lavigoMasterFSM.c:67-81 | the event goes into the cell at the tail, marked pending |
| MasterFsm.MasterMachine.GetEvent | src/lavigoMasterFSM.c:83-101 | the event at the head is taken and its mark cleared |
| MasterFsm.MasterMachine.Turn | src/lavigoMasterFSM.c:120-143 | a pending event runs the old state's effect and then moves to the next state |
| MasterFsm.MasterMachine.constructor | src/lavigoMasterFSM.c:115-118 | the machine starts with the flash event queued |
| MasterFsm.RingRefinesQueue | src/lavigoMasterFSM.c:67-143 | while at most ten events wait, the mode is the fold of the tables over the events in the order queued |
| MasterFsm.EleventhOverwrites | src/lavigoMasterFSM.c:67-81 | an eleventh waiting event overwrites the oldest one |
| MasterFsm.ReactSafe | src/lavigoMasterFSM.c:31-65 | every entry of the two tables keeps the safety invariant |
| MasterFsm.EveryRunIsSafe | src/MFSMEffects.c:22-206 | in every run all five services are off in the update and access point states, an update flag means update or error with services off, and services are only on in nested sets |
| MasterFsm.NothingAfterUpdateOrError | src/lavigoMasterFSM.c:42-49 | error is never left, an update only into error, and no flag changes any more |
| MasterFsm.UpdateIsForever | src/MFSMEffects.c:99-108 | once up, the update flag stays up with all services off |
| MasterFsm.FallbackOutlivesItsMode | src/lavigoMasterFSM.c:31-65 | the tables admit a word of events into engagement with the fallback service still switched on |
| FsmModes.EntersRow | src/lavigoMasterFSM.c:31-48 | the table of states, by the mode each entry leads to: all 224 entries |
| FsmModes.AppliesRow | src/lavigoMasterFSM.c:50-65 | the table of effects, by effect |
| FsmModes.ApplyGets | src/MFSMEffects.c:42-206 | which effects raise and lower each of the twelve flags |
| FsmModes.ModeIff | src/lavigoMasterFSM.c:31-48 | along every word of events the mode is that of the last event that entered one, with the ways into each mode listed by mode |
| FsmModes.FlagIff | src/MFSMEffects.c:42-206 | along every word of events a flag is up if and only if something raised it and nothing lowered it since, with the causes listed by flag |
| FsmModes.WishIs | src/MFSMEffects.c:53-206 | along every word of events the launcher is asked for the mode last asked for: 15, 75, 9 or nobody |
| FsmModes.AskedFor | src/lavigoMasterFSM.c:31-48 | no word of events leads to update, access point, fallback, idle or running mode without the events that ask for it and report it |
| FsmModes.SwitchedOnFor | src/MFSMEffects.c:84-206 | nor is execution, deployment, fallback or the update switched on without the reports they need |
| FsmModes.ChecksChangeNothing | src/lavigoMasterFSM.c:31-65 | what the connection and validation checks report changes nothing in any mode |
| FsmModes.UpdateMet | src/lavigoMasterFSM.c:31-65 | an update asked for in running, fallback or idle mode is in progress with its flag up and services off once disengagement is reported, whatever the checks report meanwhile |
| FsmModes.ApMet | src/lavigoMasterFSM.c:31-65 | an access point asked for in running mode is open with services and MQTT off once disengagement is reported |
| FsmModes.FallbackMet | src/lavigoMasterFSM.c:31-65 | fallback mode asked for in running mode, idle mode or registration is on with its services once it is reported |
| FsmModes.IdleMet | src/lavigoMasterFSM.c:31-65 | idle mode asked for in running mode or registration is on once it is reported, with execution off |
| FsmModes.DisengagementMet | src/lavigoMasterFSM.c:31-65 | a new layout leads back to registration with all services off once disengagement is reported |
| FsmModes.FallbackLeft | src/lavigoMasterFSM.c:31-65 | asking for fallback mode again leaves it, to registration with all services off |
| FsmModes.EngagementMet | src/lavigoMasterFSM.c:31-65 | loaded keys in registration lead to running mode with all its services once engagement is reported |
| FsmModes.ApLeft | src/lavigoMasterFSM.c:31-65 | the access point is left by asking again, and loaded keys then engage running mode |
| Launcher.UpdateCurrent | src/launcher.c:101-109 | the shift-or loop computes the number of the seven confirmations |
| Launcher.CodeInjective | src/launcher.c:101-109 | different confirmations give different numbers |
| Launcher.NumberMeansSet | include/launcher.h:20-26 | a mode's number is polled if and only if the confirmations are exactly that mode's |
| Launcher.Board.Request | src/launcher.c:120-277 | the request flags each launch raises and lowers |
| Launcher.Board.Turn | src/launcher.c:62-99 | one step of the launcher: request, poll, compare, report |
| Launcher.Board.ServiceTurn | src/execution.c:181-205 | one turn of a service task: engage before run before disengage |
| Launcher.ReportsAreOfTheWish | src/launcher.c:120-277 | in every run the confirmations polled before a report are those of the wish compared with; the event names them if and only if that wish is still the mode launched |
| Launcher.SteadyWishIsReported | src/launcher.c:120-277 | while the wish does not change, every report is its event with exactly its confirmations |
| Launcher.ChangedWishIsMisreported | src/launcher.c:173-200 | the confirmations of a wish changed to during a launch are reported as the event of the mode launched, for all pairs of modes |
| Launcher.SilentUntilRaised | src/launcher.c:202-224 | services that are off stay off until an engage flag goes up |
| Launcher.DisengagedMeansOff | src/launcher.c:202-224 | after an undisturbed disengagement is reported, no service is confirmed, then or later |
| Launcher.ReadyLaunchReports | src/launcher.c:120-277 | however launcher and services interleave, two turns of each service and then four of the launcher bring exactly one report, of the mode, with its confirmations |
| Launcher.StuckForever | src/launcher.c:120-277 | a launch with an unwanted service that was not asked to leave, or is kept running, never reports |
| Launcher.LaunchCompletesIff | src/launcher.c:120-277 | in every such interleaving a launch reports if and only if every unwanted service that is on is dismissed by it and not kept running; otherwise it never does |
| Launcher.IdleNeedsOthersOff | src/launcher.c:257-277 | idle mode is never reached with the deployment, execution or fallback service on: nobody dismisses them |
| Launcher.RunningWithFallbackIsStuck | src/launcher.c:173-200 | running mode is never reached while the fallback service is kept on |
| LaunchProgress.LaunchUnderWayIff | src/launcher.c:120-277 | a launch under way, whatever the wish has become: some interleaving ends it if and only if every service can come to where the wish needs it; the first report is then the launched mode's event with the wish's confirmations |
| LaunchProgress.RequestsEnd | src/launcher.c:120-277 | while the wish stays, no request flag is up once a launch is over, in every run |
| LaunchProgress.AnsweredIsWithdrawn | src/execution.c:181-205 | a service that comes on or goes takes its request down, except the console, which leaves it to the launcher |
| Hub.EveryRunComposed | src/MFSMEffects.c:22-206 | in every run of state machine, launcher and registration together the flags are safe, the board obeys them, and what was polled before a report is the mode wished for when it was compared |
| Hub.IdleIsNotAskedWhenRunning | src/registration.c:712-739 | in no run that does not overrun the ring is the event that asks for idle mode polled in running mode or on the way there |
| Hub.ReportCompletes | src/launcher.c:120-277 | the report of an undisturbed launch and the next turn of the state machine complete what it was engaged in: running, fallback or idle mode, registration, update or access point |
| HubModes.ServicesRunAsSwitched | src/MFSMEffects.c:53-206 | in every composed run each service finds its run flag as the effects set it, execution and fallback only with a hardware version selected, and the launcher's switch and wish are those of the state machine |
| HubModes.CheckResumes | src/registration.c:712-739 | from the trigger that asks for fallback mode to the one that leaves it, every registration check that succeeds with a hardware version asks for fallback mode again, otherwise for running mode, and without one for idle mode |
| HubModes.LayoutNeedsHardware | src/drv_console_effects.c:46-58 | in every composed run the event of a new layout is queued again only once a hardware version is selected |
| HubRuns.AskedTooSoonHangs | src/launcher.c:202-224 | a run from the start in which fallback is asked for while idle mode's services are sent away; in every continuation the hub waits for fallback mode or ends in error, and nothing more is reported |
| HubRuns.IdleTooLateHangs | src/launcher.c:257-277 | a run from the start in which idle mode is asked for by a check begun before fallback was; in every continuation the hub waits for idle mode or ends in error, and nothing is reported |
| HubRuns.MisreportedHangs | src/lavigoMasterFSM.c:31-65 | a run from the start in which a disengagement is reported with every fallback service confirmed; after it nothing is ever reported again |
| HubRuns.FallbackKeptHangs | src/lavigoMasterFSM.c:31-65 | a run from the start into engagement with the fallback service confirmed and kept on; in no continuation is running mode reached or anything reported |
| Handoff.Messenger.ArriveMessage | src/msg_fmt.c:167-198 | a valid arrival on a free channel takes the lock and the buffer; any other changes nothing |
| Handoff.Messenger.MarkMessage | src/msg_fmt.c:200-219 | the status flag goes up for the message in place |
| Handoff.Messenger.LoadMessage | src/msg_fmt.c:272-288 | a template is loaded unless the channel is sending |
| Handoff.Messenger.SendMessage | src/msg_fmt.c:513-525 | the loaded message takes the lock, or the send fails |
| Handoff.Messenger.UpdateMessages | src/msg_fmt.c:137-161 | the channel in turn is handed on and freed, and the turn moves |
| Handoff.NothingLostOrTwice | src/msg_fmt.c:137-221 | on every channel, in every run, what got the lock is what was handed on, unmodified, once and in order, then the one waiting; the lock is held exactly while one waits |
| Handoff.PassedWithinFive | src/msg_fmt.c:137-161 | a waiting message is handed on within five turns, whatever else happens |
| Handoff.AcceptedIsPassed | src/msg_fmt.c:137-219 | a valid arrival on a free channel, or a send from one, is handed on after everything accepted there before, once its flag was raised and the visiting task had five more turns, in every run |
| Handoff.AcceptsIff | src/msg_fmt.c:167-198 | a channel accepts a message if and only if it is free and the message is a valid arrival there or a send from there |
| Handoff.LoadedIsSent | src/msg_fmt.c:272-288 | what was last loaded or edited on a free channel is what a later send takes |
| Handoff.EmptyWhenFree | src/msg_fmt.c:137-161 | a free inbound channel holds no text from before, in every run |
| Handoff.OutboundKeepsText | src/msg_fmt.c:137-161 | an outbound channel keeps its text, sent or not, until it is loaded or edited again |
| Handoff.LockedRefuses | src/msg_fmt.c:272-282 | while a message waits its channel refuses arrivals, loads and sends |
| PinFrames.InputFrames.UpdateInputs | src/pin_xio.c:285-318 | one sample of every present adapter goes into the frame being filled, which is swapped after six |
| PinFrames.InputFrames.GetInput | src/pin_xio.c:259-283 | reads a pin's bit from the frame not being filled |
| PinFrames.ShiftInjective | src/pin_xio.c:45-83 | no two pins of an adapter share a bit; outputs sit in one register and inputs in the other |
| PinFrames.WordBits | src/pin_xio.c:30-32 | input bits are complemented on the way in, output bits are not |
| PinFrames.PinBits | src/pin_xio.c:30-83 | which register bit each of the sixteen pins is read from, and that inputs are complemented |
| PinFrames.ReadsWholeFrame | src/pin_xio.c:224-318 | after m >= 6 updates, timestamp t of a pin is its bit of what its adapter showed at sample 6*(m div 6 - 1)+t: its answer, or else what it showed twelve samples before |
| PinFrames.ReadsOldSample | src/pin_xio.c:267-277 | an unsupported timestamp reads the fifth newest sample, but the eleventh newest just before the frames change places |

## Left out

- EngineProofs.EngineRefinesInterpreter: only for runs whose steps overrun neither the clock nor the input ring, which
  the source marks as not handled; EngineOverrun.KeepsExactlyWhenClean shows that the invariant needs exactly that.
- MessageQueue.RingRefinesQueue: only while there is room, since the source queues on regardless;
  MessageQueue.NothingLostIff shows that this is exact.
- MasterFsm.RingRefinesQueue: only while at most ten events wait, for the same reason.
- KeysVersions.VersionsCountUp: not across a power cut that forgets, where it is false (ForgottenIsReissued).
- KeysTasks.KeyTable.RotateKey: the key is one of the eleven; the help command, which the source would accept,
  indexes past the tables.
- RegistryTasks.MachineTable.Start: at most 32 machines, which every run keeps; a larger counter in flash would
  make the C code write past its table.
- Lock timeouts and task delays: every lock is taken, and each critical section is one atomic step.
- NVS failures: every call succeeds. Power is cut between calls of `src/drv_nvs.c`, also between the clear and the
  set of a rename, but not inside `drv_nvs_set`, which erases a key before it writes it.
- Sequence patterns that are malformed, on which the C code dereferences a null token: pushes are required to be
  well formed for the invariant, and a malformed token stops its slot in the specification.
- The scan for a free slot when all 128 are taken: C reads on past the table, the model stops one past it.
- The list of registered pins in `src/pin_evt.c` and the reading of ports: the set of ring entries whose level was
  seen is an input of the step.
- A machine freed while its sequences run: jobs carry their own copy of the signals, not a pointer.
- The need-report and need-recover bitmaps of machines and sequences.
- Aliasing of machine records: the registry's table holds them by value; a change is addressed by name.
- A flag change and its dirty mark are one step. A dump between them writes what a change to the partial flags
  followed by a dump would write if the machine was dirty before, and nothing otherwise, so no behaviour is lost.
- More than 32 machines: a deployment is only required to find room when it would be accepted.
- The clean-up of a rejected deployment, which frees a machine that was never registered: the model drops it.
- The sequence tables inside a machine's static information: opaque bytes, with the checks on them one input.
- The tables that map letters and colours to ports: the ports of a request are inputs. The check of the four row
  letters, which compares with eight names, is part of those inputs.
- The bytes after the NUL of an action name, and names longer than the field.
- Deleting keys by command, and the connection reset that follows a confirmation.
- Power cuts inside a step of the offline log: a restart comes between two steps. New entries during a half-finished
  drain.
- The two lookups of flags inside one dispatch are one step: a received action racing a finished sequence on the
  same machine is not modelled.
- What the effects do besides flags: connection resets and reports.
- Hub.IdleIsNotAskedWhenRunning: only in runs that never leave eleven events waiting, for the reason given for
  MasterFsm.RingRefinesQueue.
- The conditions under which the button, the network, the update task and the console queue their events: these may
  come at any moment. A registration check starts only while its flag is up and ends as the source's does; that its
  keys are all there, and that no command was handled instead, is an input of the step.
- The launcher's wait for the connection, and the unused launch functions.
- The message texts: parsing, templates and length limits. Edits of a message are required to come between its
  load and its send, which nothing in `src/msg_fmt.c` enforces.
- The XIO message queue of `src/port_xio.c`, the output side of `src/pin_xio.c`, Wi-Fi, MQTT, HTTP, the console,
  OTA download, I2C and the JSON library.
