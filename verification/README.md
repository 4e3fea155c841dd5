# Proofs about the motion-permission guard and its users

The robot moves an actuator only while a shared guard permits it.  This project models that guard, the
hardware and the coordinator that use it, the maintenance journal, and four smaller algorithms, and proves
what holds of them over all calls, all runs and all interleavings.  `dafny verify dfyconfig.toml`
checks the whole project.

## How the project is laid out

* `closure.dfy`: the least set closed under a finite edge relation, and its equality with reachability.
* `guard.dfy`: the guard as a value.  Its state, and the state after each call (`Step`).  Every public call
  of the guard holds one mutex, so one call is one atomic step; `now` is the clock of that step.
* `guard_domain.dfy`: the guard as programmed, a class whose calls update its tables in place with the loops
  of the source.  Each call is proved to leave exactly the state that `Step` gives.
* `guard_invariant.dfy`, `guard_sessions.dfy`, `guard_safety.dfy`: what every call keeps, and what holds over
  whole runs.
* `guard_gaps.dfy`, `guard_gap_runs.dfy`, `guard_gap_example.dfy`: gaps in physical evidence.
  `guard_enable.dfy`: arming, and enabling all groups together.
* `guard_fields.dfy`, `guard_tables.dfy`, `guard_runs.dfy`: the same guard once more, told in the fields of its
  tables only.  Which permits are given, what every call leaves in every table, and what a run needs to lift a
  latched event, an inhibit, a lost readiness or lost evidence.
* `motion_log.dfy`, `mock_system.dfy`, `motion_example.dfy`: the simulated hardware.  Between any two of its guard calls other
  threads may make any guard call, run prepare services and break axes.  Every deed is recorded, and the
  movement theorems are about that record.
* `adapter_fence.dfy`, `coordinator.dfy`: remote calls that succeed, fail or time out with their effect
  unknown, and the phased group operations built on them, with other threads at work on other groups and the
  monitor, which may stop any group at any moment without its lock.
* `journal_io.dfy`, `journal_policy.dfy`: the write-ahead maintenance journal over failing devices.
* `freshness.dfy`, `box_geometry.dfy`, `box_merge.dfy`, `box_order.dfy`, `jog.dfy`, `bridge.dfy`: feedback
  freshness, box merging, jogging, and the operator-input bridge.

Where a call of the source throws, the model returns `false` (or `Refused`) and leaves what the source leaves.

Six results are about behaviour that a reader of the comments might not expect.

* A readiness report updates readiness before it propagates (`robot_safety/src/domain.cpp:140-154`), so a gap
  in physical evidence can close unnoticed.  `GuardGaps.ReportClosesGapExactly` says exactly when,
  `GuardGapRuns.PermitAfterGap` that nothing else ever closes one, and `GuardGapExample.GapCanCloseUnnoticed`
  is a concrete run.
* A refused write looks at the group and withdraws the preparation later
  (`robot_safety/include/robot_safety/axis_session.hpp:17-24`, `robot_hardware/src/mock_system.cpp:246-252`).  A
  session armed in between loses its preparation.  `MotionLog.WithdrawalHitsExactly` says that this is the only
  case, and `MotionExample.NewSessionLosesPreparation` is a concrete run.
* Between the check that a group is settled and the request to arm it
  (`robot_hardware/robot_hardware_runtime/groups.py:183-186`) two kinds of calls may time out that nothing waits
  for: calls of a thread without a scope, and the halts of the monitor, which stops every group without its lock
  when it cannot read the status (`groups.py:297-306`, `node.py:388-395`).  `AdapterFence.ArmIsSettledExactly`
  says when the request overtakes nothing; `AdapterFence.UnlockedHaltSlipsThrough` and
  `AdapterFence.UnscopedSlipsThrough` are concrete runs.
* The monitor also writes Halted or Fault into the record of a group that an operation has locked, so a group
  whose phases have all succeeded may end stopped.  `GroupCoordination.Coordinator.Apply` says what is left then,
  and that the outcome is exact for every group whose record the monitor left alone.
* A mode switch that is refused by its service turns the mode over once more
  (`host_bridge/bridge_core.py:1106-1113`).  `OperatorBridge.RefusalRestoresExactly` says when that restores
  the mode: not when a key and a button switched it in the same message.
* The first write of a restore is not read back (`robot_hardware/robot_hardware_runtime/policy.py:163`).
  `JournalPolicy.RestoreIsUnmixedExactly` says when a restore keeps enabled limits unmixed: if the switch really
  stored 0, or one of the bounds did not have to change.

## Model

| member | source | states |
|---|---|---|
| Closure.LeastIsReachable | robot_safety/src/domain.cpp:88-99 | a group is in the least closed set exactly when a chain of edges leads to it from a source |
| Closure.Unique | robot_safety/src/domain.cpp:88-99 | any closed set between the sources and the least closed set is the least closed set, whatever the order in which it was grown |
| GuardInvariant.StepKeepsValid | robot_safety/src/domain.cpp:24-373 | every call, accepted or refused, keeps: live groups are ready, an emergency event or an expired lease inhibits, an inhibit leaves no group live, grouped mode keeps the legacy gate shut, the deadline stays within int64 |
| GuardInvariant.InitialIsValid | robot_safety/src/domain.cpp:23 | the new guard satisfies that invariant |
| GuardInvariant.PropagatedIs | robot_safety/src/domain.cpp:114-124 | what propagation makes of every group, in terms of the restrictions before it |
| GuardSessions.StepOnGroup | robot_safety/src/domain.cpp:68-72 | one call on one group: an epoch is never reused, Running is entered only by run from Armed at the same epoch, Armed only by arm under a larger epoch, Fault is left only by arm or reconfiguration under a larger epoch |
| GuardSessions.SpentForever | robot_safety/src/domain.cpp:257-261 | an epoch that was passed, or was read while the group was neither Armed nor Running, is never permitted after any run of calls |
| GuardSessions.RunningThenSpent | robot_safety/src/domain.cpp:68-72 | once a group that was Running at an epoch is not, that epoch is spent |
| GuardSessions.SessionIsOneStretch | robot_safety/src/domain.cpp:234-261 | between two moments of a run at which a group is Running at an epoch it is Running at that epoch throughout |
| GuardSessions.SessionStartsFromArmed | robot_safety/src/domain.cpp:241-246 | a stretch of Running begins with a run call on a group Armed at the same epoch |
| GuardSessions.PermitMeansRunning | robot_safety/src/domain.cpp:257-261 | a permit implies Running at exactly the asked epoch |
| GuardSessions.NoGapBetweenPermits | robot_safety/src/domain.cpp:257-261 | between two permits for the same epoch in a run no call ended the session |
| GuardSessions.FaultStaysLatched | robot_safety/src/domain.cpp:218-252 | along any run, refused arms included: a group that starts in Fault and does not end in it stayed in Fault up to one call, an accepted arm of that group or a reconfiguration, which took it out under a larger epoch |
| GuardSafety.ScopeIsReachability | robot_safety/src/domain.cpp:78-100 | the scope of an event is what unsatisfied applicable rules reach from its source groups |
| GuardSafety.ScopeIgnoresRuleOrder | robot_safety/src/domain.cpp:88-99 | two rule lists with the same rules give the same scope |
| GuardSafety.LostEvidenceWidensScope | robot_safety/src/domain.cpp:73-100 | losing evidence only widens every scope |
| GuardSafety.TimeLosesEvidence | robot_safety/src/domain.cpp:73-77 | evidence that holds later held earlier, so time alone only widens scopes |
| GuardSafety.PropagationIsExact | robot_safety/src/domain.cpp:114-124 | under a lease in order a group ends in Fault, with its epoch advanced once unless it was there already, exactly when a restriction covers it; its blockers are exactly the covering restrictions; all others keep state and epoch |
| GuardSafety.PropagationIsIdempotent | robot_safety/src/domain.cpp:114-124 | propagating twice at the same clock is propagating once |
| GuardSafety.PermitsExactly | robot_safety/src/domain.cpp:257-261 | a permit is given if and only if the group is Running at the epoch, the lease is fresh or not required, and no restriction covers the group |
| GuardSafety.PermitIsSound | robot_safety/src/domain.cpp:257-261 | at a permit all axes of the group are ready, no latched stop event and no unready group reaches it, nothing is inhibited and the lease is in order |
| GuardSafety.LapseNeverHeals | robot_safety/src/domain.cpp:274-297 | after a granted, required lease has lapsed, noticed already or not, no epoch handed out before is ever permitted again, whatever is called first |
| GuardSafety.LapsePreventsReset | robot_safety/src/domain.cpp:274-280 | a global reset is refused while the lease has lapsed |
| GuardSafety.LeaseIsLargestGrant | robot_safety/src/domain.cpp:291-297 | the deadline is the largest accepted issue time plus lifetime, never falls, and never exceeds int64 |
| GuardGaps.RenewalCommitsGap | robot_safety/src/domain.cpp:171-180 | renewing evidence first ends every live session that its gap exposed |
| GuardGaps.AcknowledgementCommitsGap | robot_safety/src/domain.cpp:218-233 | so does an acknowledgement |
| GuardGaps.ObservationCommitsGap | robot_safety/src/domain.cpp:234-263 | so do arming, running and every look at a group |
| GuardGaps.ReportClosesGapExactly | robot_safety/src/domain.cpp:140-154 | a report leaves a live session in a gap alone if and only if it is a ready report that completes the one group whose unreadiness restricts it, under a lease in order |
| GuardGapRuns.EveryCallInGap | robot_safety/src/domain.cpp:24-373 | every call, accepted or refused, ends a live session in a gap, or leaves it in the gap, or is the one kind of ready report that closes the gap |
| GuardGapRuns.PermitAfterGap | robot_safety/src/domain.cpp:140-154 | over whole runs: if an epoch is permitted although its session was once in a gap, such a report closed the gap in between |
| GuardEnable.ArmsExactly | robot_safety/src/domain.cpp:234-240 | arming succeeds if and only if nothing inhibits, the lease is fresh, the group is ready, uncovered and not Running |
| GuardEnable.DependentAloneIsRefused | robot_safety/src/domain.cpp:105-111 | a dependent group cannot be armed while its source is unready and the evidence between them is missing, not satisfied, from another source or out of date |
| GuardEnable.RestrictedArmIsRefused | robot_safety/src/domain.cpp:234-240 | arming a covered group is refused and leaves it in Fault |
| GuardEnable.JointEnableArmsEveryGroup | robot_hardware/robot_hardware_runtime/groups.py:158-193 | from any calm state whose pending stops the group services confirm: reporting every unready axis ready, serving every group and then arming every group arms all of them, in any order within each phase, with feedback, checks and heartbeats in between |
| GuardEnable.ServicesClearExactly | robot_safety/src/runtime.cpp:47-55 | with every axis ready, the acknowledge phase clears exactly the events that some served group confirms: its own stops other than maintenance and emergencies, and its own maintenance lock |
| GuardEnable.BackendEventBlocksEnable | robot_safety/src/runtime.cpp:50-55 | an event of a backend alone is confirmed by no group service, and while it is latched no group with an axis on that backend can be armed |
| GuardFields.ScopeInFields | robot_safety/src/domain.cpp:73-100 | a group is in the scope of an event exactly when a chain of rules leads to it from a group that the event speaks of, every rule counting for the event by its category and having evidence that is missing, not satisfied, from another source or out of date |
| GuardFields.PermitsInFields | robot_safety/src/domain.cpp:253-261 | a permit is given if and only if the group is Running at the epoch, the lease is not required or lasts beyond now, and no such chain leads to the group from a latched event or from another group with an unready axis |
| GuardFields.ArmsInFields | robot_safety/src/domain.cpp:234-240 | arming succeeds if and only if the group exists and is not Running, nothing inhibits, the lease is in order, all its axes are ready and no such chain leads to it; success is Armed under a new epoch, and a refusal never enters Armed |
| GuardFields.RunsInFields | robot_safety/src/domain.cpp:241-246 | running succeeds if and only if the group is Armed, the lease is in order and no such chain leads to it; the epoch stays |
| GuardFields.UnprovenRuleStopsDependent | robot_safety/src/domain.cpp:73-77 | while an axis of the source group is unready, evidence that is missing, not satisfied, from another source or out of date lets the dependent group neither be permitted nor armed |
| GuardFields.LatchedStopStops | robot_safety/src/domain.cpp:78-100 | no group that a latched stop speaks of is permitted, and none that an unproven rule ties to one |
| GuardTables.TablesInFields | robot_safety/src/domain.cpp:24-233 | what every call, accepted or refused, leaves in the tables of evidence, rules, events and axes, told by the arguments and the tables before |
| GuardTables.FlagsInFields | robot_safety/src/domain.cpp:264-373 | what every call leaves of the inhibit, the owner lease, the writers and the older gate |
| GuardTables.GroupsInFields | robot_safety/src/domain.cpp:24-373 | what every call makes of every group: a session ends exactly when the call is about ending it, or looks and finds the lease lapsed or a restriction of the group before or after what it records |
| GuardRuns.EventStaysLatched | robot_safety/src/domain.cpp:218-233 | over every run an event other than a warning leaves the table only by its own acknowledgement, given while the axes it speaks of are ready |
| GuardRuns.InhibitStays | robot_safety/src/domain.cpp:274-280 | over every run an inhibit is lifted only by a reset that finds the lease in order and no emergency latched |
| GuardRuns.UnreadyStays | robot_safety/src/domain.cpp:140-170 | over every run an unready axis becomes ready only by a report that says so of this axis |
| GuardRuns.NoPermitUntilProven | robot_safety/src/domain.cpp:171-180 | after evidence that is not satisfied has been recorded, the dependent group is permitted only once the named source has renewed with satisfied, the rules were configured anew, or every axis of the source group is ready |
| GuardGapExample.GapCanCloseUnnoticed | robot_safety/src/domain.cpp:140-154 | a run from the initial guard in which a readiness report heals an evidence gap and the old session goes on |
| GuardDomain.Domain.ScopeOf | robot_safety/src/domain.cpp:78-100 | the growing loop ends with the least closed set |
| GuardDomain.Domain.CollectRestrictions | robot_safety/src/domain.cpp:101-113 | the affected groups of every latched event and of every unready group |
| GuardDomain.Domain.ExpireOwner | robot_safety/src/domain.cpp:282-289 | a lapse of a granted lease is committed once, inhibiting and ending every session |
| GuardDomain.Domain.Propagate | robot_safety/src/domain.cpp:114-124 | the in-place propagation is the specified one |
| GuardDomain.Domain.Configure | robot_safety/src/domain.cpp:24-60 | reconfiguration refines its step and is refused for exactly the listed reasons |
| GuardDomain.Domain.UnprepareAxis | robot_safety/src/domain.cpp:125-131 | refines its step |
| GuardDomain.Domain.SetWarning | robot_safety/src/domain.cpp:132-139 | refines its step |
| GuardDomain.Domain.ReportAxis | robot_safety/src/domain.cpp:140-154 | refines its step |
| GuardDomain.Domain.ReportBackend | robot_safety/src/domain.cpp:155-170 | refines its step |
| GuardDomain.Domain.Renew | robot_safety/src/domain.cpp:171-180 | refines its step; propagates before and after recording |
| GuardDomain.Domain.Post | robot_safety/src/domain.cpp:181-217 | refines its step; a latched event is never replaced by a different one |
| GuardDomain.Domain.Acknowledge | robot_safety/src/domain.cpp:218-233 | refines its step; refused while the source is not ready |
| GuardDomain.Domain.Arm | robot_safety/src/domain.cpp:234-240 | refines its step; succeeds exactly when arming is accepted after propagation |
| GuardDomain.Domain.Run | robot_safety/src/domain.cpp:241-246 | refines its step |
| GuardDomain.Domain.Halt | robot_safety/src/domain.cpp:247-252 | refines its step |
| GuardDomain.Domain.Invalidate | robot_safety/src/domain.cpp:317-321 | refines its step; always advances the epoch |
| GuardDomain.Domain.CheckPermit | robot_safety/src/domain.cpp:253-261 | answers the specified permit and commits what has lapsed |
| GuardDomain.Domain.Snapshot | robot_safety/src/domain.cpp:253-263 | the group after propagation |
| GuardDomain.Domain.GloballyInhibited | robot_safety/src/domain.cpp:298 | commits a lapsed lease and reports the inhibit |
| GuardDomain.Domain.EngageGlobalStop | robot_safety/src/domain.cpp:267-273 | refines its step |
| GuardDomain.Domain.ResetGlobalStop | robot_safety/src/domain.cpp:274-280 | refines its step; refused under a stale lease or an emergency event |
| GuardDomain.Domain.RenewOwner | robot_safety/src/domain.cpp:291-297 | refines its step; refuses late, future and overflowing grants |
| GuardDomain.Domain.RegisterWriter | robot_safety/src/domain.cpp:310-315 | refines its step; writers never mix modes |
| GuardDomain.Domain.LegacyReport | robot_safety/src/domain.cpp:324-339 | refines its step |
| GuardDomain.Domain.LegacyFault | robot_safety/src/domain.cpp:340-348 | refines its step |
| GuardDomain.Domain.LegacyArm | robot_safety/src/domain.cpp:349-354 | refines its step; never while groups exist |
| GuardDomain.Domain.LegacyHalt | robot_safety/src/domain.cpp:360-369 | refines its step |
| GuardDomain.Domain.Perform | robot_safety/src/domain.cpp:24-373 | any call at all, in any state that the invariant allows, leaves exactly the specified state and the invariant |
| MotionLog.MovementIsOneSession | robot_hardware/src/mock_system.cpp:242-261 | from the capture of its epoch to its permit, a movement is covered by one uninterrupted session of its group, so its command was given in that session |
| MotionLog.MovementWasChecked | robot_hardware/src/mock_system.cpp:210-226 | the mode switch behind a movement saw the axis prepared and then its group Armed |
| MotionLog.PlantMovesOnlyWhenJustified | robot_hardware/src/mock_system.cpp:255-260 | any change of position is a movement under a permit for the latest captured epoch, by the latest command, which is younger than that capture |
| MotionLog.LatePreparationIsCancelled | robot_hardware/src/mock_system.cpp:103-115 | a stored preparation means that the epoch of the group did not change between ticket and confirmation |
| MotionLog.PreparationWasEarned | robot_hardware/src/mock_system.cpp:103-115 | a stored preparation was accepted while its group was not live, and stored after the guard was seen without an inhibit |
| MotionLog.WithdrawalHitsExactly | robot_safety/include/robot_safety/axis_session.hpp:17-24 | when a refused write withdraws a preparation, the group is not Running at the epoch of the axis and never will be; it is Armed if and only if an accepted arm of it lies between the look and the withdrawal and still stands |
| MotionExample.NewSessionLosesPreparation | robot_hardware/src/mock_system.cpp:246-252 | a run in which a refused write withdraws the preparation of a group that is Armed by then, in a new session |
| MockHardware.MockSystem.PerformModeSwitch | robot_hardware/src/mock_system.cpp:210-228 | accepted: every started axis was found prepared and then its group Armed, is started once, and had its epoch captured after that; refused: some started axis is named twice, or was not prepared, or its group was not Armed, and nothing changes; claims, commands, plants and permissions afterwards, with other threads in between |
| MockHardware.MockSystem.MayStart | robot_hardware/src/mock_system.cpp:212-217 | acceptance is on record: prepared when read, Armed when asked; a refusal means that at some moment since it was not prepared or not Armed |
| MockHardware.MockSystem.Capture | robot_hardware/src/mock_system.cpp:221-225 | a start forgets the old command and captures the current epoch |
| MockHardware.MockSystem.CheckPermit | robot_hardware/src/mock_system.cpp:246 | the permit asked for is the one for the captured epoch, and it is given exactly if the guard has the group Running at that epoch, the lease in order and nothing that restricts the group |
| MockHardware.MockSystem.Write | robot_hardware/src/mock_system.cpp:242-268 | while the component is active every axis is asked for during this write, and moves if and only if the guard has its group Running at the captured epoch at that moment, under a lease in order and with no restriction reaching it; then the command is applied, otherwise the output is stopped and the command forgotten; nothing is permitted while inactive |
| MockHardware.WrittenInFields | robot_hardware/src/mock_system.cpp:253-260 | what a write makes of a plant: the position asked for, or the velocity times the period, under a permit and a claim; otherwise it stands still |
| MockHardware.MockSystem.PreparationRevoked | robot_safety/include/robot_safety/axis_session.hpp:17-24 | the preparation is revoked if and only if the snapshot showed the group neither Armed nor Running at the epoch of the axis and the later reads find the permission newly lost, or the axis prepared under an inhibit or for another epoch; other threads act between the reads |
| MockHardware.MockSystem.ReadAxis | robot_hardware/src/mock_system.cpp:233-237 | an axis is ready at the guard afterwards if and only if it is prepared, the component is active and the axis is not offline |
| MockHardware.MockSystem.Read | robot_hardware/src/mock_system.cpp:231-238 | every axis is reported once, by what it is prepared for at that moment, with other threads in between |
| MockHardware.MockSystem.Unprepare | robot_hardware/src/mock_system.cpp:41-45 | the preparation is taken back here and later at the guard, other threads acting in between; only a request that had passed its last look at the component can have prepared the axis again |
| MockHardware.MockSystem.PrepareStep | robot_hardware/src/mock_system.cpp:103-115 | every step of the ticket protocol goes to the next stage that the guard, the component and the axes allow, and stores the preparation only at the last one; the record stays sound |
| MockHardware.MockSystem.Interfere | robot_hardware/src/mock_system.cpp:183 | any number of steps of other threads keep the record sound and leave captured epochs alone; while the component is inactive no request passes its last look at it |
| MockHardware.MockSystem.Deactivate | robot_hardware/src/mock_system.cpp:190-193 | every preparation is taken back here and at the guard, every command forgotten; an axis is prepared afterwards only if the request of its group had already passed its last look at the component |
| AdapterFence.NothingWaitsExactly | robot_hardware/robot_hardware_runtime/node.py:38-42 | the pending lists are empty for a key if and only if every call that timed out under it or unscoped has been answered |
| AdapterFence.ArmWaitsForLateCalls | robot_hardware/robot_hardware_runtime/groups.py:183-188 | in every run, a request to arm comes after a check before which every earlier time-out of that group, and every unscoped one, had been answered; nothing that a holder of the lock of the group left behind is overtaken by the request |
| AdapterFence.SettledSinceExactly | robot_hardware/robot_hardware_runtime/groups.py:183-186 | what was settled at the check is settled at the request if and only if everything that timed out in between has been answered by then |
| AdapterFence.ArmIsSettledExactly | robot_hardware/robot_hardware_runtime/groups.py:183-186 | a request to arm overtakes nothing of its group if and only if every call that a thread without the lock left behind between check and request has been answered by then |
| AdapterFence.UnlockedHaltSlipsThrough | robot_hardware/robot_hardware_runtime/groups.py:297-306 | a run in which the halt of the monitor times out between check and request, and the request overtakes it |
| AdapterFence.UnscopedSlipsThrough | robot_hardware/robot_hardware_runtime/groups.py:183-186 | a run in which an unscoped call that times out after the check is overtaken |
| AdapterFence.Adapter.EnsureSettled | robot_hardware/robot_hardware_runtime/node.py:38-42 | refuses exactly when something may still take effect, and loses no pending call |
| AdapterFence.Adapter.TimeOut | robot_hardware/robot_hardware_runtime/node.py:85-95 | a timed-out mutation is kept under its scope and its resource |
| AdapterFence.Adapter.Resolve | robot_hardware/robot_hardware_runtime/node.py:77-80 | a late answer keeps the pending lists exact |
| GroupCoordination.TraceGrows | robot_hardware/robot_hardware_runtime/groups.py:219-236 | phases are barriers, a failed group runs no later phase, every other group runs every phase |
| GroupCoordination.StillFenced | robot_hardware/robot_hardware_runtime/groups.py:183-188 | the check covers the request as long as only threads without the lock of the group have left anything behind since |
| GroupCoordination.OperationsAreWellPhased | robot_hardware/robot_hardware_runtime/groups.py:245-269 | in every phased operation a group becomes live only after the journal has been looked at |
| GroupCoordination.StandingStays | robot_hardware/robot_hardware_runtime/groups.py:297-306 | what the monitor may write leaves a selected group where the operation may have brought it |
| GroupCoordination.Coordinator.constructor | robot_hardware/robot_hardware_runtime/groups.py:13-39 | a restart with any dirty journal records every group Stopped |
| GroupCoordination.Coordinator.InterfereWithRecords | robot_hardware/robot_hardware_runtime/groups.py:297-306 | other threads record what they like for groups that this thread has not locked; for a locked one only the monitor writes, a larger generation with Halted or Fault; a live group never owns a dirty axis |
| GroupCoordination.Coordinator.Call | robot_hardware/robot_hardware_runtime/node.py:70-98 | one mutation succeeds if and only if it is neither denied nor given up; what is given up has just timed out under exactly the scope of its thread and the component it was for |
| GroupCoordination.Coordinator.TouchResource | robot_hardware/robot_hardware_runtime/groups.py:130-141 | a hardware component is brought up only after it was found settled, and what times out is kept under the component as well |
| GroupCoordination.Coordinator.Apply | robot_hardware/robot_hardware_runtime/groups.py:96-128 | refused exactly if groups are missing, unknown or named twice, the previous owner is not reconciled, a lock is taken or a status is not allowed; otherwise a failed group ends stopped, any other where its phases lead or stopped by the monitor; exactly Fault or the final status where the monitor has not written; progress recorded; every lock released; whatever timed out is kept under the group it was for; no live group owns a dirty axis |
| GroupCoordination.Coordinator.ApplyLocked | robot_hardware/robot_hardware_runtime/groups.py:213-240 | the same outcome under the locks, with the record of which phase ran on which group |
| GroupCoordination.Coordinator.Advances | robot_hardware/robot_hardware_runtime/groups.py:223-236 | one phase on one group, other threads and the monitor at work before, during and after it: the group stands where the phases so far lead or was stopped, and what they ask for has been asked for in order; a failing phase asks for a halt and takes the group out, in Fault unless the monitor writes, and only for a cause |
| GroupCoordination.Coordinator.RunPhase | robot_hardware/robot_hardware_runtime/groups.py:249-269 | a phase succeeds if and only if it suits the status and the journal of its group and nothing asked for in it was denied or found pending; then it has asked for what it stands for in order, and left its status or that of a stop by the monitor |
| GroupCoordination.Coordinator.Init | robot_hardware/robot_hardware_runtime/groups.py:143-156 | succeeds if and only if the group is not live, no axis to verify is in dirty maintenance and nothing failed; then every hardware component was found settled and brought up, the CANopen axes were initialized and verified, and Initialized is recorded; a live group is refused with nothing asked for; a failure leaves the record as it was, the writes of the monitor apart |
| GroupCoordination.Coordinator.Enable | robot_hardware/robot_hardware_runtime/groups.py:245-247 | refused exactly if a group is not Initialized or Halted, or cannot be selected or locked; a group that did not fail had its controllers stopped, was prepared, awaited, cleared, acknowledged and then armed, in this order; a group that failed had a call denied or pending, was written by the monitor, or has an axis in dirty maintenance; Armed or Fault afterwards, or stopped by the monitor |
| GroupCoordination.Coordinator.Resume | robot_hardware/robot_hardware_runtime/groups.py:249-262 | refused exactly if a group is not Armed or Halted, or cannot be selected or locked; a group that did not fail had its controllers started and was run last, and, if it was found Halted, was initialized, prepared, awaited, acknowledged and armed before, in this order; failures have the same causes; Running or Fault afterwards, or stopped by the monitor |
| GroupCoordination.Coordinator.Recover | robot_hardware/robot_hardware_runtime/groups.py:267-269 | from any status: a group that did not fail was halted first, then initialized, prepared, awaited, acknowledged and armed, in this order; failures have the same causes; Armed or Fault afterwards, or stopped by the monitor |
| GroupCoordination.Coordinator.InitAll | robot_hardware/robot_hardware_runtime/groups.py:242-243 | refused exactly if a group is live, or cannot be selected or locked; a group that did not fail is Initialized or stopped by the monitor, with its axes initialized and verified; failures have the same causes |
| GroupCoordination.Coordinator.HaltAll | robot_hardware/robot_hardware_runtime/groups.py:264-265 | from any status: a group that did not fail was asked to halt and its controllers to stop, and is Halted or stopped by the monitor; a failed one is in Fault |
| GroupCoordination.Coordinator.Prepare | robot_hardware/robot_hardware_runtime/groups.py:158-175 | succeeds if and only if the group is Initialized or Halted and nothing failed or was pending; then lingering controllers were stopped, every hardware component was found settled and brought up, the group was prepared and awaited |
| GroupCoordination.PhaseWorked | robot_hardware/robot_hardware_runtime/groups.py:219-236 | one more phase: a group is taken out exactly for a cause, and otherwise has asked for the operations of all phases so far, in order |
| GroupCoordination.InOrderExactly | robot_hardware/robot_hardware_runtime/groups.py:245-269 | requests were made in order exactly if they stand in the record at increasing positions |
| GroupCoordination.Coordinator.Arm | robot_hardware/robot_hardware_runtime/groups.py:183-188 | succeeds if and only if nothing failed or was pending; asks only for a group without a dirty axis and behind a check that only threads without the lock may have left something behind since; success records Armed and advances the generation, by exactly one where the monitor has not written |
| GroupCoordination.Coordinator.Acknowledge | robot_hardware/robot_hardware_runtime/groups.py:177-181 | succeeds if and only if the group owns no dirty axis and nothing failed; then the maintenance lock was cleared first and the group acknowledged next; with a dirty axis nothing is asked for |
| GroupCoordination.Coordinator.Stop | robot_hardware/robot_hardware_runtime/groups.py:195-211 | the halt is the first thing asked for, with no fence, and the controllers are stopped next, even if it failed; Halted if neither failed, Fault otherwise, and the generation advanced, by exactly one where the monitor has not written |
| GroupCoordination.Coordinator.Acquire | robot_hardware/robot_hardware_runtime/groups.py:103-106 | all locks exactly when none is taken, otherwise none |
| GroupCoordination.Coordinator.CheckOwner | robot_hardware/robot_hardware_runtime/groups.py:41-58 | once per process: without an answer of the guard nothing is done; the groups that it reports live from an earlier process are released at the guard, their controllers stopped, and recorded in Fault; nothing is touched if there are none |
| GroupCoordination.Coordinator.Maintain | robot_hardware/robot_hardware_runtime/groups.py:343-369 | refused exactly if the previous owner is not reconciled or the lock is taken; all of it under the lock of the group, with a halt asked for first; success if and only if nothing failed and the axis was not already dirty, except for a restore, and then the group was halted, the axis disabled and verified, in this order, and it is Initialized with a clean axis, or stopped by the monitor; no outcome leaves it live, or Initialized with a dirty axis |
| GroupCoordination.Coordinator.MaintainLocked | robot_hardware/robot_hardware_runtime/groups.py:356-369 | the halt is asked for before anything else, and without it, or without the axis disabled and verified, the policy is not started; after the policy, whether it raised or not, the group is Initialized with its axis clean, or in Fault (Halted if the monitor writes) with the maintenance lock asked for and its axis dirty; success exactly when the policy returned |
| GroupCoordination.Coordinator.RunPolicy | robot_hardware/robot_hardware_runtime/groups.py:361-369 | a journal dirty for another axis makes the policy refuse, with nothing written; otherwise its device writes may time out in the scope of the group, it keeps the record of the group, the monitor apart, and it returns normally exactly if nothing failed, with a clean axis |
| GroupCoordination.Coordinator.CloseJournal | robot_hardware/robot_hardware_runtime/policy.py:95-100 | the journal ends clean or dirty for the maintained axis, and the dirty axes of every other group stay |
| GroupCoordination.Coordinator.MonitorGroup | robot_hardware/robot_hardware_runtime/groups.py:393-405 | a group is revoked, with a halt asked for, if and only if it is live, its lock is free and its record is still the observed one; otherwise nothing changes |
| JournalIo.CrashKeepsDiscipline | robot_hardware/robot_hardware_runtime/policy.py:95-132 | the write-ahead discipline holds at every possible crash point |
| JournalIo.DirtySpanIsFixed | robot_hardware/robot_hardware_runtime/policy.py:95-173 | from the first dirty record to the next clean one the joint and the before-values never change, through any number of operations |
| JournalIo.WritesAreRecoverable | robot_hardware/robot_hardware_runtime/policy.py:95-173 | at every device write the journal in force holds that joint and the values recorded when it went dirty |
| JournalPolicy.CountsAreNearest | robot_hardware/robot_hardware_runtime/policy.py:15-19 | device counts are the nearest 32-bit integer, halves away from zero, and monotone |
| JournalPolicy.CountsAreExact | robot_hardware/robot_hardware_runtime/policy.py:15-19 | exactly the values outside 32 bits are refused, and whole numbers are kept |
| JournalPolicy.SignedUndoesMask | robot_hardware/robot_hardware_runtime/policy.py:13 | reading a masked 32-bit value back as signed gives it again |
| JournalPolicy.LimitsAreNeverMixed | robot_hardware/robot_hardware_runtime/policy.py:148 | wherever the forward limit sequence is cut off, and whatever a device stores in place of the asked value, enabled limits are the old pair or the new pair |
| JournalPolicy.SwitchedOffIsUnmixed | robot_hardware/robot_hardware_runtime/policy.py:162-167 | a restore whose first write switched the limits off never enables a mixed pair, wherever it is cut off and whatever the devices store |
| JournalPolicy.RestoreIsUnmixedExactly | robot_hardware/robot_hardware_runtime/policy.py:162-167 | a restore that writes everything back keeps enabled limits unmixed if and only if the switch stored 0 or one of the bounds did not have to change |
| JournalPolicy.StuckSwitchMixesLimits | robot_hardware/robot_hardware_runtime/policy.py:163-166 | a concrete case: a switch that acknowledges 0 but stays on has limits 10 to 40 enabled between 10 to 20 and 30 to 40 |
| JournalPolicy.Policy.Forward | robot_hardware/robot_hardware_runtime/policy.py:110-113 | every write of the forward half is on top of the complete earlier updates |
| JournalPolicy.Policy.RollBack | robot_hardware/robot_hardware_runtime/policy.py:121-128 | four writes, of the home offset, the upper limit, the lower limit and last the switch, each of the value before; success means exactly the before-values, and comes if every call works |
| JournalPolicy.Policy.Transaction | robot_hardware/robot_hardware_runtime/policy.py:102-132 | done means all updates folded in, a clean journal, and, exactly if a save was asked for, one request to save with the word "save" between the last update and the clean record; raised means nothing changed or a dirty journal with the right before-values after a full rollback; it is done whenever it may begin and every call works; other joints never change |
| JournalPolicy.Policy.RequestSave | robot_hardware/robot_hardware_runtime/policy.py:114-117 | one write of the save object of the joint, asked for with 0x65766173, and no maintained value changes |
| JournalPolicy.Policy.DirtyAxes | robot_hardware/robot_hardware_runtime/policy.py:50-55 | the joint of a dirty journal, or all six if it names none of them |
| JournalPolicy.Policy.Restore | robot_hardware/robot_hardware_runtime/policy.py:153-173 | done exactly writes the four recorded values, asks for a save and leaves a clean journal, and comes whenever the journal is in order and every call works; every later failure leaves it dirty with the same record; what was written, and that enabled limits are never mixed when the first write really stored 0 |
| JournalPolicy.Policy.constructor | robot_hardware/robot_hardware_runtime/policy.py:39-43 | a restart takes its flag from the journal on disk |
| JournalPolicy.Policy.SetZero | robot_hardware/robot_hardware_runtime/policy.py:138-143 | on success the home offset is lowered by the actual position, and nothing else changes; it succeeds exactly in 32 bits whenever every call works |
| JournalPolicy.Policy.SetLimits | robot_hardware/robot_hardware_runtime/policy.py:145-148 | on success the limits are the counts of both bounds, strictly ordered, written between switching off and on; enabled limits are never mixed before the rollback; ordered bounds succeed whenever every call works |
| JournalPolicy.Policy.SetOffset | robot_hardware/robot_hardware_runtime/policy.py:144 | on success the home offset is the nearest count, and nothing else changes |
| JournalPolicy.Policy.DisableLimits | robot_hardware/robot_hardware_runtime/policy.py:149 | on success the switch is off, and nothing else changes |
| BoxGeometry.Related | vision_pkg/src/motion_detector.cpp:390-413 | the overlap tests of the source amount to two gap bounds, told in the sides of the boxes |
| BoxGeometry.NearByPoints | vision_pkg/src/motion_detector.cpp:390-413 | two non-empty boxes are near exactly if some of their points are within both gaps of each other |
| BoxGeometry.NearGrows | vision_pkg/src/motion_detector.cpp:390-413 | nearness survives growth of either box |
| BoxGeometry.MergingKeepsNearness | vision_pkg/src/motion_detector.cpp:415 | what a non-empty box was near to stays near to the merged box |
| BoxGeometry.EmptyBoxIsForgotten | vision_pkg/src/motion_detector.cpp:415 | an empty box does not pass its nearness on: a concrete case at the smallest gaps |
| BoxMerge.MergeNearbyBoxes | vision_pkg/src/motion_detector.cpp:361-427 | terminates; total area is conserved and the count does not grow; the non-empty merged boxes are the hulls of the finest grouping of the non-empty input boxes whose hulls are pairwise not near, and each merged box carries the area of its block; the loops compute the recursive `Merged` |
| BoxMerge.Pass | vision_pkg/src/motion_detector.cpp:375-423 | one pass keeps every box the hull of the non-empty boxes of a block that are glued, and strictly lowers the count when it changes anything |
| BoxMerge.NearIsGlued | vision_pkg/src/motion_detector.cpp:407-418 | two near glued sets of non-empty boxes lie in one block of every grouping into non-mergeable hulls |
| BoxMerge.FixpointIsFinest | vision_pkg/src/motion_detector.cpp:374-426 | a pass that changes nothing has reached the finest grouping of the non-empty boxes |
| BoxOrder.FinestIsUnique | vision_pkg/src/motion_detector.cpp:374-426 | the finest grouping of the non-empty boxes is unique |
| BoxOrder.ResultIgnoresOrder | vision_pkg/src/motion_detector.cpp:361-427 | the same boxes in any other order give the same non-empty merged rectangles, and, when no box is empty, the same merged boxes with the same areas |
| BoxOrder.OrderDecidesEmptyArea | vision_pkg/src/motion_detector.cpp:374-426 | of two boxes that are not near, the one listed first takes the area of an empty box near both, so two orders of these three boxes give different results |
| BoxOrder.EveryBoxIsCovered | vision_pkg/src/motion_detector.cpp:361-427 | every non-empty input box lies inside a merged box, and every input box belongs to the block whose area a merged box carries |
| FeedbackFreshness.TrustIsExact | robot_safety/include/robot_safety/freshness.hpp:29-49 | motion is trusted exactly when health was once proven by a clean run over the whole stable window and nothing has broken trust since |
| FeedbackFreshness.TrustInFields | robot_safety/include/robot_safety/freshness.hpp:16-46 | motion is trusted exactly when some stretch of observations spanning the stable window was unbroken and younger than the warning bound, and every observation since is without fault, in order, valid, stamped between the start and its arrival, younger than the stop bound and no gap |
| FeedbackFreshness.BreaksInFields | robot_safety/include/robot_safety/freshness.hpp:17-31 | each of a fault, an invalid frame, a stamp outside the start and the arrival, an age of the stop bound, a time going back and a gap gives Stop, whatever came before |
| FeedbackFreshness.NewestInFields | robot_safety/include/robot_safety/freshness.hpp:23-27 | the newest stamp is that of a frame that counts, and none has a newer one |
| FeedbackFreshness.RecoveryTakesTheWindow | robot_safety/include/robot_safety/freshness.hpp:29-46 | after any stop, whether a fault, a gap, a bad or stale frame, or a late frame while there was no trust, trust needs a clean run that begins later and spans the window |
| FeedbackFreshness.TrustedFeedbackIsFresh | robot_safety/include/robot_safety/freshness.hpp:22-31 | while trusted, the newest frame is younger than the stop bound and less than the stop bound after the one before |
| FeedbackFreshness.VerdictStep | robot_safety/include/robot_safety/freshness.hpp:29-46 | the looking-back verdict can be computed from the previous one |
| FeedbackFreshness.Freshness.Observe | robot_safety/include/robot_safety/freshness.hpp:16-47 | five fields compute the looking-back verdict after every sequence of observations, refused ones included; a hard fault, an invalid, misdated or overdue frame, a time going back and a gap each give Stop |
| FeedbackFreshness.Freshness.TrustworthyForMotion | robot_safety/include/robot_safety/freshness.hpp:49 | the answer is exactly the looking-back notion of trust, and no before the first observation |
| Jog.StepIsBounded | robot_hardware/robot_hardware_runtime/flipper.py:28-34 | one joint: velocity within 0.3, reference within the limits and within 0.356 of a measurement that is within them, zero on timeout, never outward at a limit |
| Jog.StepInNumbers | robot_hardware/robot_hardware_runtime/flipper.py:30-34 | one joint, in plain numbers: the reference starts over from a measurement 0.35 away, the velocity closes 0.35 of its distance to the command unless it would push past a limit, and the reference moves by it for 0.02 seconds at most inside the limits |
| Jog.StepGoesAsCommanded | robot_hardware/robot_hardware_runtime/flipper.py:30-34 | a joint commanded one way that does not still move the other way advances that way |
| Jog.LinkagesAreNamedRightly | robot_hardware/robot_hardware_runtime/flipper.py:4-5 | which joints every linkage mode moves together |
| Jog.LinkedJointsMoveAlike | robot_hardware/robot_hardware_runtime/flipper.py:18-23 | joints of one linkage group are commanded alike |
| Jog.ValuesAreHonoured | robot_hardware/robot_hardware_runtime/flipper.py:19-22 | in an accepted command every value differs from what its joint does by at most the tolerance for each later entry |
| Jog.ConflictsExactly | robot_hardware/robot_hardware_runtime/flipper.py:19-21 | the check against the expanded values is the check against the entry that last spoke for the linkage group |
| Jog.AgreeingValuesAreAccepted | robot_hardware/robot_hardware_runtime/flipper.py:18-22 | values that agree within a linkage group are accepted |
| Jog.LatestExactly | robot_hardware/robot_hardware_runtime/flipper.py:18-22 | the entry that a joint obeys is the last one of its linkage group |
| Jog.Reference.SetLinkage | robot_hardware/robot_hardware_runtime/node.py:317-321 | an unknown mode is refused and changes nothing; a known one starts from standstill, so that linked joints go on moving alike |
| Jog.Reference.Command | robot_hardware/robot_hardware_runtime/flipper.py:11-23 | accepted if and only if well formed and free of contradictions; then every joint does what was last said to its linkage group, cut to the speed; otherwise everything is reset |
| Jog.Reference.Step | robot_hardware/robot_hardware_runtime/flipper.py:24-35 | every joint takes its bounded step, over all command and step sequences |
| Jog.VelocityWatchdog.Accept | robot_hardware/include/robot_hardware/velocity_watchdog.hpp:11-16 | only a complete finite message of the current epoch is kept |
| Jog.VelocityWatchdog.Sample | robot_hardware/include/robot_hardware/velocity_watchdog.hpp:17-20 | the values of the message within its timeout, zeros otherwise |
| Jog.StaleMessageOnlyStops | robot_hardware/include/robot_hardware/velocity_watchdog.hpp:11-20 | a message of another epoch can only silence the output |
| Jog.UpdatesAreBounded | robot_hardware/src/timed_velocity_controller.cpp:66-75 | outputs respect the maximum and the limits, and stand still without a fresh message |
| Jog.UpdateInNumbers | robot_hardware/src/timed_velocity_controller.cpp:66-75 | the velocity is held within the maximum and sent, or integrated for 0.02 seconds at most inside the limits, unless it would push past a limit |
| Jog.TimedVelocityController.Activate | robot_hardware/src/timed_velocity_controller.cpp:39-55 | refused unless every joint is inside its limits; starts a new epoch |
| Jog.TimedVelocityController.Update | robot_hardware/src/timed_velocity_controller.cpp:62-77 | the output of every joint, and the reference kept within the limits |
| OperatorBridge.RefusalRestoresExactly | host_bridge/bridge_core.py:1086-1113 | a refused switch restores the mode if and only if not both a key and a button had switched it |
| OperatorBridge.OneEdgeTurnsTheMode | host_bridge/bridge_core.py:1086-1097 | an accepted switch turns the mode over exactly if either a key or a button was newly pressed, not both |
| OperatorBridge.LastSpeedKeyDecides | host_bridge/bridge_core.py:1099-1101 | of several speed keys the one that sorts last sets the level; without one it stays |
| OperatorBridge.Bridge.SticksAreFollowed | host_bridge/bridge_core.py:916-1049 | each stick moves its own output, proportionally up to full deflection and no further, and nothing of the other side moves |
| OperatorBridge.LevelStaysInRange | host_bridge/bridge_core.py:1099-1101 | the speed level stays in 1 to 5 |
| OperatorBridge.ScaledIsBounded | host_bridge/bridge_core.py:916-919 | a cut and scaled demand stays within its scale |
| OperatorBridge.Bridge.HandleOperatorInput | host_bridge/bridge_core.py:711-833 | which messages are dropped, ignored, latch an emergency or are obeyed: an emergency is exactly space newly pressed, or both thumb sticks down with one newly pressed, in a fresh message without an emergency; what is left alone by each; the outputs of an obeyed one; under emergency or watchdog all outputs are zero, base and arm never move together, accepted sequence numbers strictly increase |
| OperatorBridge.Bridge.ApplyEdges | host_bridge/bridge_core.py:1081-1119 | mode and level afterwards; any mode edge zeroes all outputs first |
| OperatorBridge.Bridge.SetControlMode | host_bridge/bridge_core.py:575-610 | the mode changes only on success, with all outputs zero |
| OperatorBridge.Bridge.CheckWatchdog | host_bridge/bridge_core.py:1318-1336 | silence beyond the bound leaves all outputs zero |
| OperatorBridge.Bridge.ResetSession | host_bridge/bridge_core.py:405-416 | a new session starts with zero outputs and keeps the emergency |

## Left out

* Reason texts, diagnostics, warning counters and period statistics of the guard.
* The guard samples its clock once per call in the model; the source may sample it more than once in one call.
* Epochs are unbounded here; the source counts in 64 bits and would wrap after 2^64 sessions.
* Names are numbers; blockers are a set, not a sorted list; severities outside the enumeration do not occur.
* GuardSafety.LeaseIsLargestGrant: heartbeats are taken as values that already fit the type of the source.
* The loading of the group policy from YAML; any configuration that the guard accepts is covered.
* JournalPolicy.Policy.Transaction: nothing is claimed about mixed limits during its rollback, which does not switch the limits off first.
* BoxOrder.ResultIgnoresOrder: with empty input boxes only the rectangles are stated, because which block takes the area of an empty box does depend on the order (`BoxOrder.OrderDecidesEmptyArea`).
* Identity and PDO verification of a device is an arbitrary success or failure; a write that takes effect after its caller has moved on is not modelled.
* AdapterFence.ArmWaitsForLateCalls: calls that a thread without the lock of the group leaves behind between check and request are not waited for, because the code does not (`AdapterFence.UnlockedHaltSlipsThrough`, `AdapterFence.UnscopedSlipsThrough`).
* GroupCoordination.Coordinator.InterfereWithRecords: advancing a generation is one step; the source reads and writes it separately, so that increments of two threads can be lost.
* GroupCoordination.Coordinator.CheckOwner: the answer of the guard is passed in; the lock that lets one thread ask at a time counts as no answer.
* GroupCoordination.Coordinator.Maintain: the policy is represented by what `JournalPolicy` proves of the axes it leaves unresolved; the checks of its arguments before the lock, and two maintenance operations inside the policy at the same time, are not modelled.
* JournalPolicy.Policy.SetLimits: the limits of the robot description are passed in as bounds.
* GroupCoordination.Coordinator.Init: component locks and the states of hardware components and controllers are not modelled; a request that the source leaves out, because nothing lingers or a component is up already, stands in the record like any other, and readiness polling is one question.  The heartbeat in front of a request to arm is not among the requests.
* Shutdown, profile switching and resource recovery of the coordinator, which compose the same steps, and the loss of the ROS context during a call.
* The external-plant and legacy branches of the simulated hardware, its device objects, and its effort interface.
* MotionExample.NewSessionLosesPreparation: the record is shown to be sound, not to be produced by a run of `MockSystem`.
* MockHardware.MockSystem.Write: the control period is positive; with a zero period the source divides by zero.
* Rounding and non-finite arithmetic: jogging and commands are computed in real numbers, with non-finite inputs marked.
* OperatorBridge.Bridge.HandleOperatorInput: how key names and sticks add up to the demanded axes, direction corrections, input ages, service bindings, camera and arm-planning commands.
* Vision, codecs, ROS plumbing, user interfaces, CAN capture and generators.
