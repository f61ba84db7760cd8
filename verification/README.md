# Haetae: a verified model of its permit protocol and evidence judges

Haetae puts a gate between a planner and a robot. What makes the gate count is at
its edges: a controller that drives its output only under a fresh, authenticated
permit; an authorizer that signs at most one permit per number and locks for good
on any failure; a relay that holds no key; a ROS node that signs short permits
against two clocks; and judges that read telemetry and logs and must not call a
delay a pass. This project models that code in Dafny and proves what it promises.

`dafny verify dfyconfig.toml` checks everything.

## How the model is laid out

| part | modules |
|---|---|
| bytes, decimals, hex, fields | `Bytes`, `Text` |
| signed payloads, permit lines, the C line buffer | `Payload`, `Frames`, `LineBuffer` |
| H2 controller: functions, the class, runs, true time | `Guard`, `PermitGuardClass`, `GuardRuns`, `GuardClock` |
| boot epochs, authorizer, the whole protocol | `Epoch`, `Authorizer`, `PermitSystem`, `PermitSafety` |
| reading a line, relay, the honest case, and the honest case as a behaviour | `Lines`, `Relay`, `HonestRun`, `HonestBehaviour`, `HonestWitness` |
| the ROS gate node: log theory, functions, invariant, histories, the class, the counterexample | `GateNode`, `GateSteps`, `GateRuns`, `GateSafety`, `Gate`, `GateOrphan` |
| H1 bench controller and its host link | `Bench`, `BenchGuardClass`, `BenchLink` |
| telemetry and log judges | `Refusal`, `Attempts`, `CoverageCut` |
| signed counters, braking, occupancy | `Counters`, `Kinematics`, `Lidar` |

Objects that the source updates in place are classes here (`PermitGuard`,
`BenchGuard`, `Session`, `PermitLink`, `SerialLink`, `Node`, `GrantChain`, `SourceSigner`,
`Base`, `Perception`); each method is tied to a function of the old state, and the
theorems are about those functions or about every run of them.

The protocol theorems (`PermitSafety`) hold for every interleaving of steps of one
device, any number of operator sessions, reboots and power cuts. The relay is not a
party there: it may drop, delay, repeat, reorder or invent bytes, because a device
step takes an arbitrary byte at an arbitrary time. Device steps are ordered by when
the controller is done with them (`PermitSystem.Done`): while it verifies a frame,
sessions may receive and answer any number of requests. What the relay cannot do is
stated in three predicates of `PermitSystem`: `Unforged` (where the controller gets as
far as checking a tag, a tag that verifies belongs to bytes that were signed, and a MAC
to bytes signed in that very session; frames it refuses before that may carry any tag),
`IssuesFresh` (a nonce is new when the controller issues it: no signed or pending
request carries it) and `FreshEphemeral` (no ephemeral key is used twice). The
controller sees time only as a 32-bit count since boot; consecutive readings are less
than 2^32 - 200 ms apart (`GuardClock.Near`). The theorems are not vacuous: timely
honest rounds are behaviours (`HonestBehaviour.RoundLeads`), and a concrete one ends
with output on (`HonestWitness.SomeBehaviourIsOn`).

The gate node is a state machine over events (`GateSteps.Happened`): requests with
everything the engine, the clocks and the action library contribute, telemetry
messages, goal and result callbacks, abort timers. The class computes exactly that
function (`Gate.RunNode`), and the theorems of `GateSafety` tie each permit in its log
to the events of the run.

## Results that need a condition

* **Arm leases of the gate node.** It is not true that every arm lease carries the
  digest of the most recent goal permit. `_execute_arm` names the goal before the
  permit for it is signed; if signing then fails as expired while the arm controller
  has not sent its first telemetry, `_cancel_arm` has no challenge to sign a stop
  with and leaves the unsigned goal in place; a re-arm before that telemetry signs no
  reset either. `GateOrphan.OrphanLease` is a concrete history of four events in which
  such a goal gets a lease. The exact condition holds for every history
  (`GateSafety.LeaseIsProperUnlessOrphan`): a lease is proper if and only if it is not
  the case that no arm permit was ever signed before it and the arm's latest message
  reported a digest that is not idle under number zero. A controller that reports
  number zero only with the idle digest gets only proper leases
  (`GateSafety.HonestControllerGetsProperLeases`).
* **ARM against a wrapped challenge.** An ARM may be measured against a challenge whose
  32-bit age has wrapped, so no true-time bound is claimed for it. A RUN cannot be: the
  armed lease bounds the age of the current challenge (`GuardClock.GrantKeepsTime`).

## Model

| member | source | states |
|---|---|---|
| `Text.NumberAcceptsExactlyCanonical` | hardware/uno_r4_permit/permit_guard.h:117-125 | the decimal parser returns v exactly for the canonical print of v, and accepts nothing outside 0..2^32-1 |
| `Text.UnhexAcceptsExactlyHex` | hardware/uno_r4_permit/permit_guard.h:126-136 | the hex parser returns b exactly for the lower-case print of b of the given size |
| `Text.SplitThenJoin` | hardware/uno_r4_permit/permit_guard.h:152-158 | the fields of a line are free of spaces and join back to the line |
| `Text.JoinThenSplit` | tools/permit_protocol.py:53-54 | space-free fields survive printing and splitting |
| `Payload.LedBytesInjective` | tools/permit_protocol.py:26-32 | equal permit payloads have equal install, counters, stamp, duration, action and nonce |
| `Payload.BindBytesInjective` | tools/permit_protocol.py:35-38 | equal key-exchange payloads have equal claims and equal keys of both sides |
| `Payload.DomainsDisjoint` | tools/permit_protocol.py:30-38 | no permit payload is a key-exchange payload, already by the domain |
| `Payload.WritePayload` | hardware/uno_r4_permit/permit_guard.h:76-86 | the controller's byte loops write exactly the authorizer's permit payload, and nothing beyond it |
| `Payload.WriteBindPayload` | hardware/uno_r4_permit/permit_guard.h:87-94 | the controller's buffer holds exactly the authorizer's key-exchange payload |
| `Payload.InputMessageInjective` | ros/haetae_gate/signing.py:19-24 | equal signed input messages have equal audience, epoch, counter, role and payload, of any length |
| `Frames.ParsePrint` | hardware/uno_r4_permit/permit_guard.h:150-165 | every well-shaped frame is read back as exactly the printed fields |
| `Frames.PrintParse` | hardware/uno_r4_permit/permit_guard.h:150-165 | every line that passes the syntax checks is the canonical print of the frame read from it |
| `Frames.PrintFits` | tools/permit_protocol.py:41-54 | a printed frame is at most 247 characters, an action frame at most 119 |
| `LineBuffer.ParseNumber` | hardware/uno_r4_permit/permit_guard.h:117-125 | the loop over the C string computes the canonical-decimal function and never overflows |
| `LineBuffer.ParseHex` | hardware/uno_r4_permit/permit_guard.h:126-136 | the loop over the C string computes the hex function |
| `LineBuffer.SplitFields` | hardware/uno_r4_permit/permit_guard.h:152-158 | cutting in place succeeds exactly for that many fields with a non-empty last one, and leaves each field as a C string |
| `Guard.TakeCases` | hardware/uno_r4_permit/permit_guard.h:51-65 | a byte is quiet, or locks, or greets, or re-challenges, or grants the one frame it completes: there is no other way to gain authority |
| `Guard.CommandCases` | hardware/uno_r4_permit/permit_guard.h:137-212 | the same for a complete line |
| `Guard.PermitCases` | hardware/uno_r4_permit/permit_guard.h:166-212 | a parsed frame either locks with the counters kept, or is current, authentic and in time and is granted |
| `PermitGuardClass.PermitGuard.constructor` | hardware/uno_r4_permit/permit_guard.h:14-31 | power-on state; locked for good without an epoch or keys |
| `PermitGuardClass.PermitGuard.Fail` | hardware/uno_r4_permit/permit_guard.h:38-44 | refines `Guard.Fail` |
| `PermitGuardClass.PermitGuard.Tick` | hardware/uno_r4_permit/permit_guard.h:45-50 | refines `Guard.Tick` with wrapped subtraction |
| `PermitGuardClass.PermitGuard.Feed` | hardware/uno_r4_permit/permit_guard.h:51-65 | the object's byte step is `Guard.Feed` of the state it stands for; a reply is due exactly after a line feed |
| `PermitGuardClass.PermitGuard.Issue` | hardware/uno_r4_permit/permit_guard.h:106-111 | refines `Guard.Issue`: stamp and nonce of a new challenge |
| `PermitGuardClass.PermitGuard.Command` | hardware/uno_r4_permit/permit_guard.h:137-212 | refines `Guard.Command` on the text in the buffer |
| `PermitGuardClass.ReadFrame` | hardware/uno_r4_permit/permit_guard.h:150-165 | the in-place parser computes `Frames.Parse` of the line |
| `PermitGuardClass.PermitGuard.Permit` | hardware/uno_r4_permit/permit_guard.h:166-212 | refines `Guard.Permit` |
| `PermitGuardClass.PermitGuard.Objection` | hardware/uno_r4_permit/permit_guard.h:166-178 | the refusals before any cryptography, in their order |
| `PermitGuardClass.PermitGuard.Verify` | hardware/uno_r4_permit/permit_guard.h:179-197 | output is off while the tag is checked, and the second clock reading is ticked |
| `PermitGuardClass.PermitGuard.Settle` | hardware/uno_r4_permit/permit_guard.h:198-211 | grants exactly the frames still in time after verification |
| `GuardRuns.EveryReachableStateIsLatched` | hardware/uno_r4_permit/permit_guard.h:38-44 | every reachable state: on, armed, bound, not bindable imply one another in that order, with the sequence floors 0, 1, 2 and 3 |
| `GuardRuns.OnlyHelloUnlocks` | hardware/uno_r4_permit/permit_guard.h:137-145 | a locked guard stays locked under every byte stream that completes no HELLO line |
| `GuardRuns.EveryPathToOn` | hardware/uno_r4_permit/permit_guard.h:140-212 | since the last HELLO exactly BIND, ARM, RUN, RUN, ... were granted, numbered 1, 2, 3, ... in the current generation; output needs at least three |
| `GuardClock.WrappedDifference` | hardware/uno_r4_permit/permit_guard.h:45-47 | wrapped subtraction of near readings is true elapsed time |
| `GuardClock.GrantKeepsTime` | hardware/uno_r4_permit/permit_guard.h:196-211 | a granted RUN was less than 50 ms of true time, and less than its duration, after its challenge |
| `GuardClock.EveryStateIsTimed` | hardware/uno_r4_permit/permit_guard.h:45-65 | in every run, an armed guard's lease started less than its duration before the latest reading |
| `GuardClock.OnMeansLatestRun` | hardware/uno_r4_permit/permit_guard.h:146-149 | output is on only from the latest granted RUN, whose challenge starts the lease; nothing since moved it |
| `GuardClock.OutputIsYoung` | hardware/uno_r4_permit/permit_guard.h:45-65 | output on after any reading: fewer than `duration`, at most 200, true ms since that challenge was issued |
| `Epoch.ReserveBootEpoch` | hardware/uno_r4_permit/epoch.h:8-25 | one boot, cut short or not, is a `BootStep`; why it got an epoch and, when it got none, which fault, hole or full store explains it |
| `Epoch.FlashOnlyGrows` | hardware/uno_r4_permit/epoch.h:5-18 | used slots only grow, stay a hole-free prefix, and a full or holed store never changes |
| `Epoch.EpochsIncrease` | hardware/uno_r4_permit/epoch.h:19-24 | over any boots with power cuts and torn words, non-zero epochs strictly increase |
| `Epoch.SpentStoreGivesNothing` | hardware/uno_r4_permit/epoch.h:12-19 | a full or holed store returns 0 forever |
| `Epoch.AtMostSlotsEpochs` | hardware/uno_r4_permit/epoch.h:8-25 | at most as many boots as slots ever get an epoch |
| `Authorizer.Session.ApproveRequest` | tools/permit_authorizer.py:43-92 | the object's call is `Authorizer.Approve` of its state, for every gate outcome |
| `Authorizer.ApproveKeepsOrder` | tools/permit_authorizer.py:43-92 | one call keeps the order of permits; a locked session answers nothing, and a terminal answer locks |
| `Authorizer.OnePermitPerSequence` | tools/permit_authorizer.py:62-92 | over every session: permit k grants number k+1, BIND, ARM, RUN, ... for one controller session with growing challenges; unlocked exactly while every call was granted |
| `PermitSafety.StepKeepsInv` | hardware/uno_r4_permit/permit_guard.h:51-65 | every step of device, relay, reboot and sessions keeps the protocol invariant |
| `PermitSafety.BehaviourInv` | tools/permit_link.py:91-141 | so does every interleaving |
| `PermitSafety.LockedSessionGoesDark` | tools/permit_authorizer.py:90-92 | once the authorizer of the bound session locked at T, output is off in every state whose latest reading is at or after T + 200 ms, whatever the relay does |
| `PermitSafety.LockedSessionIsReadDark` | hardware/uno_r4_permit/permit_guard.h:45-47 | the same for the reading with which an input begins, also when a frame is verified after it |
| `PermitSafety.AllLockedGoesDark` | tools/permit_authorizer.py:76-92 | if all sessions had locked by T, there is no output at all in any state whose latest reading is at or after T + 200 ms |
| `PermitSafety.AllLockedIsReadDark` | hardware/uno_r4_permit/permit_guard.h:45-47 | the same for the reading with which an input begins |
| `PermitSafety.AcceptedFramesAreJustified` | tools/permit_authorizer.py:74-89 | accepted frames map injectively and in order to grants; the call behind each lies between issue and acceptance, which for a RUN are less than 50 ms apart |
| `PermitSafety.GrantsComeFromAllowedCycles` | tools/permit_authorizer.py:62-89 | every grant answers one request in a call whose gate cycle allowed it |
| `PermitSafety.NothingIsAcceptedTwice` | hardware/uno_r4_permit/permit_guard.h:166-168 | acceptances strictly increase in (epoch, generation, sequence) through HELLOs, reboots and exhaustion, and no authenticated bytes are accepted twice |
| `PermitSafety.SessionsDistinct` | tools/permit_authorizer.py:53-58 | two sessions never share a key |
| `Relay.FrameIsReadBack` | tools/permit_protocol.py:41-54 | what `frame` prints for any valid context fits the 256-byte line, uses accepted characters only, and is read back as exactly the printed fields |
| `Relay.ReplyIsReadBack` | tools/permit_link.py:43-53 | after an OK reply the relay's context is exactly the controller's |
| `Relay.ReplyFits` | hardware/uno_r4_permit/permit_guard.h:66-73 | every reply, whatever the state, has at most 144 plain characters |
| `Lines.ReadLine` | tools/permit_link.py:32-42 | the read loop over chunks computes `Lines.Gather`: it ends at a line feed, a deadline, a closed port or beyond the limit |
| `Lines.GatherWhole` | tools/permit_link.py:32-43 | a line within the limit is gathered whole, however it is cut into chunks |
| `Relay.ReplyIsHeard` | tools/permit_link.py:32-53 | so every reply of the controller passes the 160-byte read loop and is read as its context and state |
| `Relay.PermitLink.Wire` | tools/permit_link.py:43-53 | reads chunks up to the limit; the context changes exactly with a valid reply that nothing follows |
| `Relay.PermitLink.Query` | tools/permit_link.py:55-68 | which words it sends, the answer it accepts, and the context it ends with, also when it refuses |
| `Relay.PermitLink.Execute` | tools/permit_link.py:70-82 | sends the frame exactly for a well-formed permit, and succeeds exactly when the reply acknowledges the next number and challenge in the right state |
| `HonestRun.LineIsExecuted` | hardware/uno_r4_permit/permit_guard.h:51-65 | a prompt line of accepted characters is executed as one command |
| `HonestRun.HelloInStep` | tools/permit_link.py:99-101 | HELLO puts controller, relay and a new session in step |
| `HonestRun.StatusInStep` | tools/permit_link.py:103-104 | STATUS keeps them in step with a fresh challenge |
| `HonestRun.FrameIsSent` | tools/permit_link.py:70-76 | the line the relay prints from the authorizer's hex answer is exactly the frame that carries the approval |
| `HonestRun.PermitInStep` | tools/permit_link.py:105-131 | a BIND, ARM or RUN round within the guard's own limits (500 ms from the challenge for a BIND, however long its verification takes) is approved, sent as its frame, accepted and, with the reply in any chunks, acknowledged; it keeps all three in step |
| `HonestRun.BootstrapArms` | tools/permit_link.py:99-140 | HELLO, BIND, ARM from power-on arm the controller |
| `HonestRun.HonestSessionStaysInStep` | tools/permit_link.py:102-141 | every further STATUS and RUN round, with replies in any chunks, is accepted by both ends until a counter nears 2^32 - 1 |
| `HonestBehaviour.WordLeads` | tools/permit_link.py:99-104 | HELLO or STATUS, byte by byte, is a run of enabled system steps that issues one challenge |
| `HonestBehaviour.RoundLeads` | tools/permit_link.py:105-131 | a timely round of an honest session is a run of enabled system steps: request, answer after a gate cycle of any length, every byte of the frame, and its acceptance |
| `HonestWitness.SomeBehaviourIsOn` | tools/permit_link.py:99-131 | some behaviour of the system accepts BIND, ARM and RUN and ends with output on |
| `GateNode.AnchorIsFirstNewest` | ros/haetae_gate/controller_permits.py:31-37 | the anchor is the newest stamp ever accepted, with the wall start of the first request that brought it |
| `GateNode.FrozenWorldKeepsAnchor` | ros/haetae_gate/controller_permits.py:31-44 | answers that bring nothing newer never move the anchor |
| `GateNode.LeaseChoice` | ros/haetae_gate/node.py:405-413 | an owner that agrees with what it signed leases either its own goal or an orphan, never both |
| `GateNode.ProperLeaseNamesItsGoal` | ros/haetae_gate/node.py:395-417 | a proper lease names one goal permit of all ever signed: the governing one, with the same digest and nothing revoked since; without a number it is idle |
| `GateNode.NumbersIncrease` | ros/haetae_gate/controller_permits.py:126-132 | permits to one target are numbered upward without gaps |
| `GateRuns.PermitGoes` | ros/haetae_gate/node.py:372-387 | a permit is signed exactly on time with a challenge, keeps the request's clocks, expiry, world and telemetry, and stays within every bound |
| `GateRuns.CommandGoes` | ros/haetae_gate/node.py:350-370 | at most one permit, for the base; only a stop when zero and stopping; the arm's books and the deadlines stay |
| `GateRuns.CancelGoes` | ros/haetae_gate/node.py:304-322 | with a challenge exactly one stop is signed and the owner's goal is gone; without one nothing is signed and the goal stays |
| `GateRuns.ExecuteGoes` | ros/haetae_gate/node.py:218-246 | a goal is sent exactly when its permit was signed, and is then the owner's goal under that number; otherwise the log is as it was |
| `GateRuns.PublishGoes` | ros/haetae_gate/node.py:160-186 | command then arm sign only permits of the request in hand; an answer to a reject is always published and adds only stops |
| `GateRuns.RetiringWouldExpire` | ros/haetae_gate/node.py:188-216 | a retiring renewal suppresses nothing that could have been signed |
| `GateRuns.BeatGoes` | ros/haetae_gate/node.py:395-417 | a lease or reset is signed exactly when due and on time; a lease carries what telemetry names |
| `GateRuns.BudgetGoes` | ros/haetae_gate/node.py:448-459 | the span in hand respects 200 ms, the world's age, the accepted world and the active expiry |
| `GateRuns.RecoverGoes` | ros/haetae_gate/node.py:468-486 | every exception path adds only stops, leaves the node stopping, and fails it exactly on a broken answer, a failed reject or one that does not disarm |
| `GateRuns.ReceiveGoes` | ros/haetae_gate/node.py:432-486 | one request on every path: the invariant, permits that stem from this request alone, only stops for a missing or untimely answer, exactly the observation of a timely one, telemetry and challenges untouched |
| `GateSafety.EventGoes` | ros/haetae_gate/node.py:248-293 | the same for every event: callbacks add only stops and learn nothing, messages change only telemetry and challenges |
| `GateSafety.RunGoes` | ros/haetae_gate/node.py:432-486 | over every history: the world clock saw exactly the timely answers of a running node in order, telemetry is the arm's latest message, and the invariant holds |
| `GateSafety.EveryPermitHasItsRequest` | ros/haetae_gate/node.py:432-467 | every permit that can act was signed during one timely request and takes its clocks, the reading before that signature, its expiry, accepted world and the arm message before it; leases and resets only from an answer that renews |
| `GateSafety.EveryPermitEndsInTime` | ros/haetae_gate/node.py:372-387 | it lasts at most 200 ms, ends within the anchored world's age on both clocks and within the active expiry, and by the request's own reading before that signature it was signed less than 50 ms after its start and with more than 50 ms left |
| `GateSafety.FrozenWorldEndsPermits` | ros/haetae_gate/controller_permits.py:31-44 | while nothing newer is accepted, no later permit ends after the anchored world's age |
| `GateSafety.LeaseIsProperUnlessOrphan` | ros/haetae_gate/node.py:395-417 | every lease carries digest and number of the arm's latest message, and is proper exactly when it is not an orphan |
| `GateSafety.HonestControllerGetsProperLeases` | ros/haetae_gate/node.py:405-413 | a controller that reports number zero only with the idle digest gets only leases of the governing goal, or idle ones |
| `GateOrphan.GoalExpires` | ros/haetae_gate/node.py:239-242 | a goal that expires before the arm's first telemetry stays the owner's goal unsigned, through the whole expiry path |
| `GateOrphan.OrphanLease` | ros/haetae_gate/node.py:405-413 | the concrete history in which it then gets an improper lease |
| `Gate.Node.Sign` | ros/haetae_gate/controller_permits.py:126-141 | refines `GateSteps.Signed`: exactly with a challenge and a positive span |
| `Gate.Node.Permit` | ros/haetae_gate/node.py:372-387 | refines `GateSteps.Permitted`: the two refusals together are `OnTime` |
| `Gate.Node.StopPermit` | ros/haetae_gate/node.py:389-393 | refines `GateSteps.Stopped` |
| `Gate.Node.PublishCommand` | ros/haetae_gate/node.py:350-370 | refines `GateSteps.CommandSent` |
| `Gate.Node.CancelArm` | ros/haetae_gate/node.py:304-322 | refines `GateSteps.Cancelled` |
| `Gate.Node.ExecuteArm` | ros/haetae_gate/node.py:218-246 | refines `GateSteps.Executed` |
| `Gate.Node.Publish` | ros/haetae_gate/node.py:160-186 | refines `GateSteps.Published` and tells whether a renewal is retiring |
| `Gate.Node.Heartbeat` | ros/haetae_gate/node.py:395-417 | refines `GateSteps.Beaten`: the early returns together are `Renews` |
| `Gate.Node.Budget` | ros/haetae_gate/node.py:450-459 | refines `GateSteps.Budgeted` |
| `Gate.Node.Act` | ros/haetae_gate/node.py:441-467 | refines `GateSteps.Acted`: freshness, world clock, budget, publication, heartbeat |
| `Gate.Node.Recover` | ros/haetae_gate/node.py:468-486 | refines `GateSteps.Recovered` |
| `Gate.Node.Abort` | ros/haetae_gate/node.py:324-334 | refines `GateSteps.Aborted` |
| `Gate.Node.Receive` | ros/haetae_gate/node.py:432-486 | refines `GateSteps.Received` |
| `Gate.Node.Telemeter` | ros/haetae_gate/controller_permits.py:106-124 | refines `GateSteps.Telemetered` |
| `Gate.Node.OnArmGoal` | ros/haetae_gate/node.py:248-271 | refines `GateSteps.GoalAnswered` |
| `Gate.Node.OnArmResult` | ros/haetae_gate/node.py:273-293 | refines `GateSteps.GoalResulted` |
| `Gate.RunNode` | ros/haetae_gate/node.py:432-486 | handling any events one after the other is a run of the state machine, so the theorems of `GateSafety` are about the object |
| `Refusal.HoldRow` | ros/gazebo/permit_attempts.py:205-217 | finds exactly the first hold stamped at or after the bound |
| `Refusal.HoldEvidence` | ros/gazebo/permit_attempts.py:220-241 | a hold exactly when it is the first and within three updates; pending exactly while none is due |
| `Refusal.LapseEvidence` | ros/gazebo/permit_attempts.py:255-269 | yes exactly when the event can be the lapse of the grant |
| `Refusal.Judge` | ros/gazebo/permit_attempts.py:334-426 | the verdict for every telemetry: a result exactly when rows split into a calm part and a part with one more rejection, with the expected reason, its latch and for the arm a prompt hold before the lease's end; inconclusive exactly when a delay explains the first event; undecided exactly while open; failed otherwise |
| `Attempts.CountNamesTheGrant` | ros/gazebo/permit_attempts.py:160-193 | sending one permit at a time, the controller's count names exactly the grant it counted, in every exchange with loss and delay |
| `Attempts.GrantChain.SendIfCounted` | ros/gazebo/permit_attempts.py:172-184 | a permit leaves exactly when none is in flight by the count last seen |
| `Attempts.GrantChain.AdmittedGrant` | ros/gazebo/permit_attempts.py:186-193 | the grant a count names, or the failure where it names none |
| `Attempts.Play` | ros/gazebo/permit_attempts.py:160-193 | whatever is attempted, the object's history is such an exchange, and at its end the grants the object names for the counts are exactly those counted |
| `Attempts.FirstFailClosed` | ros/gazebo/permit_attempts.py:196-202 | finds exactly the first counted rejection or lapse after the checkpoint |
| `Attempts.GoalWindowEvidence` | ros/gazebo/permit_attempts.py:272-279 | yes exactly when the goal's 50 ms window could have closed by a prompt hold |
| `Attempts.RequireNoFailClosed` | ros/gazebo/permit_attempts.py:282-322 | clear exactly without an event, a delay exactly when the freshness refusal or a signed bound explains the first one, waiting exactly while its hold is pending, a fault otherwise |
| `Attempts.BoundedAttempts` | ros/gazebo/permit_attempts.py:651-680 | passes at attempt k exactly when it passed after delays alone, within the limit; delays alone never pass |
| `CoverageCut.CoverageCutRecord` | ros/gazebo/stop_evidence.py:135-183 | the one-pass judge is true exactly when every line is well formed and the window decomposes as benign prefix, named reject, Denied stop at the same time, calm stretch, given unknown world, anything |
| `CoverageCut.TakeRecord` | ros/gazebo/stop_evidence.py:161-182 | one record moves the judge on, or is a dead end |
| `CoverageCut.DeadEndStaysDead` | ros/gazebo/stop_evidence.py:161-182 | no continuation of a dead end decomposes |
| `Counters.SourceSigner.Boot` | ros/haetae_gate/signing.py:51-58 | loads the counters of the same epoch, starts at zero for an older file, refuses a newer one |
| `Counters.SourceSigner.Reserve` | ros/haetae_gate/counter_store.py:27-42 | whether torn or not, file and durable content cover everything published; when it returns both are the new counters |
| `Counters.SourceSigner.Send` | ros/haetae_gate/source_node.py:63-67 | publishes exactly the next counter after reserving it, or ends the process having published nothing |
| `Counters.SourceSigner.Propose` | ros/haetae_gate/source_node.py:75-95 | nothing at clock zero; otherwise the proposal's id is the envelope's counter |
| `Counters.RunHistory` | ros/haetae_gate/source_node.py:36-95 | over every crash, power-cut and restart history, published (epoch, counter) strictly increase per role and every proposal id equals its counter |
| `Kinematics.Base.Command` | ros/haetae_sim/kinematics.py:25-30 | a finite command sets target, turn rate and time; any other changes nothing |
| `Kinematics.Base.Advance` | ros/haetae_sim/kinematics.py:32-47 | one step of at most 0.1 s; any other is refused without effect |
| `Kinematics.Base.CatchUp` | ros/haetae_sim/sim_node.py:50-57 | the loop runs the base over exactly the slices of the elapsed time |
| `Kinematics.SlicesPartition` | ros/haetae_sim/sim_node.py:51-56 | the slices add up to the elapsed time, in order, each within 10 ms |
| `Kinematics.Braking` | ros/haetae_sim/kinematics.py:32-44 | lapsed, over every partition: no reversal, speed falls with total time, path costs at most the energy |
| `Kinematics.StopsInTimeAndDistance` | ros/haetae_sim/kinematics.py:32-47 | at rest after speed/decel, within speed^2/(2 decel) of path |
| `Kinematics.SpeedNeverExceeds` | ros/haetae_sim/kinematics.py:25-44 | over every run of commands and steps, speed stays within the larger of what it was and what was commanded |
| `Kinematics.DisplacementWithinPath` | ros/haetae_sim/kinematics.py:45-47 | straight-line displacement is at most the path length |
| `Kinematics.CatchUpStops` | ros/haetae_sim/sim_node.py:50-57 | the stopping time and distance for `_step` itself |
| `Lidar.Perception.Receive` | ros/gazebo/lidar_perception.py:130-140 | accepts exactly strictly newer scans while connected |
| `Lidar.Perception.Choose` | ros/gazebo/lidar_perception.py:148 | the kept history yields the newest eligible frame of all accepted while it is kept, otherwise none that is eligible |
| `Lidar.Perception.Snapshot` | ros/gazebo/lidar_perception.py:142-195 | confident exactly inside the bay with a fresh chosen frame; a confident report loses no return, any other is empty |
| `Lidar.HealthyUsesNewest` | ros/gazebo/lidar_perception.py:148-160 | a healthy frame is the newest at or before now of all frames ever accepted |
| `Lidar.Clusters` | ros/gazebo/lidar_perception.py:168-173 | clusters partition the returns in order, cut exactly where the gap exceeds 0.16 m |
| `Lidar.HumansConservative` | ros/gazebo/lidar_perception.py:174-183 | every return has a human at most as far, and every human is a return |
| `Lidar.NearestHumanIsNearestReturn` | ros/gazebo/lidar_perception.py:166-176 | the nearest human is exactly as far as the nearest return |
| `Bench.ExecuteCases` | hardware/uno_r4_bench/guard.h:119-160 | an H1 order keeps the latches; only ARM and RUN renew, and only RUN turns output on |
| `Bench.TakeCases` | hardware/uno_r4_bench/guard.h:39-63 | the same for a byte |
| `Bench.EveryStateIsTimed` | hardware/uno_r4_bench/guard.h:29-36 | in every run an armed guard was renewed less than 200 true ms before its latest reading |
| `Bench.OutputIsYoung` | hardware/uno_r4_bench/guard.h:29-36 | output on after any reading: fewer than 200 true ms since the latest obeyed RUN arrived |
| `BenchGuardClass.ParseDigits` | hardware/uno_r4_bench/guard.h:84-94 | the H1 number loop: digits with leading zeros, no overflow |
| `BenchGuardClass.BenchGuard.Tick` | hardware/uno_r4_bench/guard.h:29-36 | refines `Bench.Tick` |
| `BenchGuardClass.BenchGuard.Feed` | hardware/uno_r4_bench/guard.h:39-63 | refines `Bench.Feed` |
| `BenchGuardClass.BenchGuard.Command` | hardware/uno_r4_bench/guard.h:96-161 | refines `Bench.Command` on the text in the buffer |
| `BenchGuardClass.BenchGuard.Execute` | hardware/uno_r4_bench/guard.h:118-160 | refines `Bench.Execute` |
| `BenchLink.SerialLink.Exchange` | tools/bench_link.py:42-80 | accepts exactly the answer for its own number, challenge and state, advances then only, and keeps every unread byte for the next exchange, also after a failure |
| `BenchLink.RequestIsRead` | tools/bench_link.py:43-45 | the device reads exactly the order the host printed |
| `BenchLink.ExchangeInStep` | tools/bench_link.py:42-80 | a prompt exchange the device can obey is accepted by the host and leaves both in step |
| `BenchLink.HostInStep` | tools/bench_link.py:55-80 | the same through the read buffer, with the reply in any chunks |
| `BenchLink.SessionStaysInStep` | tools/bench_link.py:42-80 | over a whole session host and device never lose step and nothing is left in the buffer |

## Left out

- Cryptography: signatures, MACs, key agreement and the challenge PRF are ideal functions; a session key is named by the signed bytes it is derived from, and a digest by its content.
- The Rust gate and the Arduino sketch: a gate cycle is any outcome, and the reserved epoch is handed to the controller's constructor.
- Serial ports, sockets, files, ROS callbacks and futures: one exchange is one step whose bytes, readings and answers are parameters.
- `decode_json`, `decode_scan`, `base_digest` and `arm_digest`: a request, a scan frame and a digest are values here.
- Text encoding: audience and payload of `input_message` are the bytes they encode to.
- GateSafety.RunGoes: assumes that the engine answers a `reject` with zero, no goal and no source armed on the malformed-proposal path, where the node publishes that answer unchecked; on the expiry path the node's own check is modelled.
- Gate.Node.Telemeter: an invalid message ends the process in the source and is modelled as failure.
- Epoch.ReserveBootEpoch: slot counts that the board's 32-bit `size_t` can hold; the returned epoch then never wraps.
- Kinematics.Braking: arithmetic over the reals, not floating point; the sign test on a product is stated on the signs, which over the reals is the same (`Kinematics.OpposedMeansNegativeProduct`).
- Kinematics.Base.Advance: the path length is an odometer added to the base's state for the distance bound.
- Lidar.Clusters: distances are compared as squares over the reals.
- Counters.RunHistory: one signer keeps its set of keys (world and fault, or vla) and its counter file for its life; a restart with other keys on the same file is not modelled, and two processes at once are excluded as by the source's lock file.
- BenchLink.ExchangeInStep: prompt delivery is an assumption, as it is for the relay's rounds; lateness is what the controllers' own theorems cover.
- The remaining field checks of `permit_attempts.py`, and `coverage_cut_first`, `motion_after_stop` of `stop_evidence.py`: they would add easy members beside the judges.
- Gazebo scenarios, reports, packaging, the browser demo and everything under `sim/`.
