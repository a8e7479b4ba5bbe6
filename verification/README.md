# Verification of the LebensSpur firmware core

A Dafny model of the parts of the repository that carry state or bytes through time, with proofs about it:

* the dead-man timer: four states, an uptime clock that dies at every power cycle, a wall clock that may be
  unset, a persisted copy, alarms in a bit mask, vacations that freeze the countdown, boot recovery
  (`TimerMachine`, `TimerRuns`, `TimerAlarms`, `TimerEngine`);
* the DNS name codec of the mDNS responder: the recursive decoder, compression by searching the packet, and
  whole packets (`DnsNames`, `NameReader`, `NameFields`, `NameWriter`, `NameRoundTrip`, `NameExact`, `PacketNames`,
  `PacketExact`);
* its scheduler: the shared list of packets and the two tasks around it (`TxProtocol`, `TxQueue`, `TxTasks`), and the
  probing and announcing of each interface and protocol (`ServiceLists`, `Probing`, `PortSteps`, `HostProbing`,
  `ServiceRemoval`, `PcbRecord`, `PcbRun`; `SoloPort` and `HostRun` for runs step by step);
* TXT records, the tie-break between two hosts, and renaming after a conflict (`TxtRecord`, `TieBreak`, `Renaming`);
* the relay worker and the commands that interfere with it (`Relay`, `RelayTask`);
* mail groups and the key-value store behind them (`MailStore`, `MailGroups`, `JsonText`).

Each component has a value-level part, where the theorems about whole runs are, and a part in the form of the
source, where objects, arrays and linked lists are changed in place by methods proved against the value-level part.
What each command or step does is also stated outright, by contracts and lemmas that say which fields, packets and
events there are afterwards and that all else is as it was (`ApplyEvt`, `ReceivedExactly`, `ClearRemoves`,
`DisableDoes`, `RequestRuns`, `EditDoes` and those beside them).
`dafny verify dfyconfig.toml` verifies the whole project.
Time is the true time in microseconds for the timer (uptime counts from the last boot, the wall clock shows whole
seconds once set), milliseconds for the scheduler and the relay. Clocks, random delays and radio traffic are inputs
of the runs. What other tasks do to the relay between two accesses of its worker is left completely open.

Where the code and its texts differ, the model follows the code: `timer set` may leave an alarm count that is not
below the value; a vacation is accepted from COUNTDOWN only; ticks count on uptime also while the wall clock is
unset; deleting a mail group leaves its keys in the store; an abort raised after a fire was taken from the queue but
before its first action is lost, because that action clears the flag; a conflict is decided by the length of the data
before its bytes; removing one of two services of the same type can take the other's question out of a scheduled
probe, and leave its own in; a service added later for another host is announced with that host's addresses although
no probe ever asked for the host's name.

## Model

| member | source | states |
|---|---|---|
| `TimerRuns.DeadlineNeverDrifts` | Neue/ls_timer_engine/src/ls_timer_engine.c:324-346 | a countdown started at true time t0 triggers only after t0 + duration − 1.5 s, and a tick with a set clock 1.5 s or more past the deadline leaves it triggered, over every run of ticks, clock settings, config changes, cancels and power cycles, if the clock was set at the start or power never fails before a tick has recorded the deadline |
| `TimerRuns.CountdownRun` | Neue/ls_timer_engine/src/ls_timer_engine.c:451-492 | the same for any countdown whose two-clock anchor stands for a true instant, by induction over the run |
| `TimerRuns.CountdownStep` | Neue/ls_timer_engine/src/ls_timer_engine.c:451-492 | one passive step keeps the wall-clock half of the deadline within (−1.5 s, +0.5 s] of the true instant and the uptime half exact or within a second of it, or triggers no earlier than 1.5 s before it |
| `TimerRuns.DueWindow` | Neue/ls_timer_engine/src/ls_timer_engine.c:455-483 | expiry is seen at most 1.5 s early on either clock, and not missed 1.5 s late once a clock can tell |
| `TimerRuns.PowerLossNeverDisarms` | Neue/ls_timer_engine/src/ls_timer_engine.c:1172-1217 | from a countdown with a recorded deadline no run of ticks, config changes, cancels and power cycles (and of re-armings with a set clock) leads anywhere but COUNTDOWN or TRIGGERED; without re-arming the recorded deadline never changes |
| `TimerRuns.PowerCycleKeepsArmed` | Neue/ls_timer_engine/src/ls_timer_engine.c:1174-1187 | a power cycle keeps a countdown if and only if its deadline is recorded on the wall clock; otherwise it ends in INACTIVE |
| `TimerRuns.ResetWithoutClockThenPowerLoss` | Neue/ls_timer_engine/src/ls_timer_engine.c:332-341 | after an accepted reset the next power cycle keeps the countdown if and only if the wall clock was valid at the reset |
| `TimerRuns.VacationFreezes` | Neue/ls_timer_engine/src/ls_timer_engine.c:365-400 | during a vacation, over any run of ticks, power cycles, clock settings, config changes, resets and further vacation commands, whose end is on the wall clock (or is recorded before power fails), the saved time and the fired alarms stay the same for the first k moments; it ends by cancellation or not before 1.5 s of its end, in a countdown of exactly the saved seconds with the same alarms, and a tick 1.5 s past the end ends it |
| `TimerRuns.VacationStep` | Neue/ls_timer_engine/src/ls_timer_engine.c:494-528 | the same for one step, including the expiry found at boot |
| `TimerRuns.EnteredVacationTracks` | Neue/ls_timer_engine/src/ls_timer_engine.c:365-383 | entering a vacation saves the remaining time and anchors its end at exactly the given number of days, on the wall clock too if it is set |
| `TimerRuns.SavedIsTimeLeft` | Neue/ls_timer_engine/src/ls_timer_engine.c:256-272 | the time a vacation saves is within 2 s of the true time left when some clock can tell, and 0 when none can |
| `TimerRuns.VacationWithoutClockDisarms` | Neue/ls_timer_engine/src/ls_timer_engine.c:385-397 | a vacation entered after a power cycle with the clock still unset ends in INACTIVE when cancelled |
| `TimerAlarms.AtMostOncePerArming` | Neue/ls_timer_engine/src/ls_timer_engine.c:402-449 | between two armings each alarm index and the trigger are published at most once, over every run including config changes, vacations and power cycles, and an alarm is in the mask exactly if it was there or was published |
| `TimerAlarms.StepEvents` | Neue/ls_timer_engine/src/ls_timer_engine.c:548-605 | per event: what is published about an alarm against what happens to the mask, and the trigger event exactly on the step to TRIGGERED |
| `TimerAlarms.MaskIsClosedForm` | Neue/ls_timer_engine/src/ls_timer_engine.c:425-449 | with fixed config, after any run since START the fired set is exactly the enabled alarms whose threshold is at least the lowest remaining time checked |
| `TimerAlarms.MaskRun` | Neue/ls_timer_engine/src/ls_timer_engine.c:425-449 | the closed form is kept from any state that has it |
| `TimerAlarms.NothingDueAtFullDuration` | Neue/ls_timer_engine/src/ls_timer_engine.c:429-437 | no alarm is due at full duration, thanks to the strict cap |
| `TimerAlarms.FiredUpwardClosed` | Neue/ls_timer_engine/src/ls_timer_engine.c:417-423 | the fired set is upward closed among the enabled alarms |
| `TimerAlarms.AlarmsCompleteBeforeTrigger` | Neue/ls_timer_engine/src/ls_timer_engine.c:451-475 | with ticks at most 60 s apart every enabled alarm has been published exactly once when the timer triggers, over every run with refused or empty commands, clock settings, and power cycles after which the clock is set with more than a minute (or no alarm) to go |
| `TimerAlarms.StoppedUntilStarted` | Neue/ls_timer_engine/src/ls_timer_engine.c:348-360 | from a stop in any state until the next start, over every run of resets, vacation commands, config changes, factory resets, ticks and power cycles, the timer is INACTIVE and publishes nothing but that state with 0 seconds left: no alarm and no trigger |
| `TimerAlarms.OnlyStartArms` | Neue/ls_timer_engine/src/ls_timer_engine.c:558-570 | a stopped timer leaves INACTIVE by a start and by nothing else, and then has the full duration to run and no alarm fired |
| `TimerAlarms.OffStep` | Neue/ls_timer_engine/src/ls_timer_engine.c:578-605 | stop and factory reset switch off from any state and announce it; a stop keeps the configuration, a factory reset restores 24 hours with 3 alarms |
| `TimerAlarms.PowerCycleMissesAlarms` | Neue/ls_timer_engine/src/ls_timer_engine.c:1188-1198 | after a power cycle that outlasts the deadline the first tick triggers and publishes no alarm |
| `TimerAlarms.VacationShiftsHalfSecond` | Neue/ls_timer_engine/src/ls_timer_engine.c:365-400 | a vacation entered from a countdown on uptime and cancelled resumes it with the same alarms and at most half a second more or less to go |
| `TimerMachine.AlarmRuleAfterSet` | Neue/ls_timer_engine/src/ls_timer_engine.c:635-726 | after an accepted `timer set` the alarm count is below the value if and only if the command named a count or the old count fits under the new value |
| `TimerMachine.LoweredValueBreaksAlarmRule` | Neue/ls_timer_engine/src/ls_timer_engine.c:635-726 | a concrete accepted command that leaves 3 alarms with value 2 |
| `TimerMachine.SetAccepted` | Neue/ls_timer_engine/src/ls_timer_engine.c:635-726 | `timer set` is accepted if and only if unit and value come together, some field is given, the unit is known, the value within 1 to 60 and the count within 31 and below the value; the command queued holds exactly the fields given |
| `TimerEngine.Engine.TaskMain` | Neue/ls_timer_engine/src/ls_timer_engine.c:607-616 | for every run of commands and power cycles the flat record's abstract state, config and published events are those of the four-state machine, and the store reloads to memory at the end |
| `TimerEngine.Engine.ApplyEvt` | Neue/ls_timer_engine/src/ls_timer_engine.c:548-605 | one queue event refines the machine step whatever stale fields of other states hold, and afterwards the persisted keys reload to the fields in memory; in the record's own fields: a stop leaves INACTIVE with both deadlines, the vacation and the mask at zero, the config kept, and one INACTIVE event more; a start, or a reset when counting or triggered, the full duration on both clocks and no alarm fired; a vacation the frozen time, the mask kept and its end, and its cancellation the saved time; a set changes the fields it names and nothing else; what a state does not take up changes no variable, no key and no event; a factory reset clears all with the default config and an erased store |
| `TimerEngine.Engine.HandleTick` | Neue/ls_timer_engine/src/ls_timer_engine.c:451-531 | the tick refines the machine's tick on both clocks and republishes nothing else |
| `TimerEngine.Engine.CheckAlarms` | Neue/ls_timer_engine/src/ls_timer_engine.c:425-449 | the loop with `break` and `continue` over the 32-bit mask fires exactly the new alarms, in index order, and saves the mask |
| `TimerEngine.Engine.EnterCountdown` | Neue/ls_timer_engine/src/ls_timer_engine.c:324-346 | arms both halves of the deadline and keeps or clears the mask |
| `TimerEngine.Engine.EnterVacation` | Neue/ls_timer_engine/src/ls_timer_engine.c:365-383 | freezes the remaining time and the mask |
| `TimerEngine.Engine.ExitVacationToCountdown` | Neue/ls_timer_engine/src/ls_timer_engine.c:385-400 | resumes the saved time with the mask, or falls to INACTIVE if none was saved |
| `TimerEngine.Engine.EnterTriggered` | Neue/ls_timer_engine/src/ls_timer_engine.c:402-411 | reaches TRIGGERED with its two events, saved |
| `TimerEngine.Engine.EnterInactive` | Neue/ls_timer_engine/src/ls_timer_engine.c:348-360 | reaches INACTIVE with every runtime variable at zero, saved, and announces it with 0 seconds left |
| `TimerEngine.Engine.Load` | Neue/ls_timer_engine/src/ls_timer_engine.c:191-226 | from any store whatever, each key is checked on its own and otherwise keeps its default |
| `TimerEngine.Engine.Init` | Neue/ls_timer_engine/src/ls_timer_engine.c:1163-1279 | boot recovery from any store, whoever wrote it, gives the boot state of what the store tells of, and leaves memory and store in agreement; if the engine wrote it, configuration and state are recovered from those before |
| `TimerEngine.Engine.RemainingNow` | Neue/ls_timer_engine/src/ls_timer_engine.c:256-272 | the reported remaining seconds are those of the abstract state, within 32 bits |
| `TimerEngine.Engine.OnFactoryReset` | Neue/ls_timer_engine/src/ls_timer_engine.c:1090-1120 | ends in INACTIVE with every variable at zero, the default config and an erased store, in agreement |
| `NameReader.ReadAgrees` | Neue/managed_components/espressif__mdns/mdns_utils.c:18-73 | on every byte string the name decoder succeeds exactly where a plain label decoder (section 4.1.4 of RFC 1035, the end of the data standing for a terminator) does, and yields the name its labels build, a pointer that leads to no label counting as one thing more |
| `NameReader.NameBuf.Take` | Neue/managed_components/espressif__mdns/mdns_utils.c:40-55 | `_sub` in any case sets the mark and changes nothing else, and no other label does; any other label joins the host name or goes into the next field, unless the name is already too long |
| `NameFields.ReceivedExactly` | Neue/managed_components/espressif__mdns/mdns_utils.c:75-107 | for every packet, all that a received name says, in terms of its labels: it is marked if and only if a label is `_sub` up to case; of the other labels the first and those that join it are the host, with dots; it is invalid if and only if it has a host and something comes after the fourth part, or there is nothing but the host, or the last label is neither `local` nor `arpa`; otherwise the parts are in the fields, host and domain of two, no host of three, all of four |
| `NameFields.MarkedExactly` | Neue/managed_components/espressif__mdns/mdns_utils.c:50-51 | at any stage of decoding, pointers included, the mark is set if and only if it was before or one of the labels read is `_sub` up to case |
| `NameFields.BuildReads` | Neue/managed_components/espressif__mdns/mdns_utils.c:40-55 | the parts of the labels read so far are in the fields in order, unless there are too many |
| `NameReader.ReadFqdn` | Neue/managed_components/espressif__mdns/mdns_utils.c:18-73 | the recursive decoder in place, pointer cycles included, terminates, reads only inside the packet and delivers what the value-level reader says |
| `NameReader.ParseFqdn` | Neue/managed_components/espressif__mdns/mdns_utils.c:75-107 | the field shuffle and the domain check on top of it |
| `NameWriter.AppendFqdn` | Neue/managed_components/espressif__mdns/mdns_send.c:678-739 | writes in place exactly what the append specification says: labels until the rest is found in the packet, then a pointer, or nothing more when the buffer is full |
| `NameWriter.FindCandidate` | Neue/managed_components/espressif__mdns/mdns_send.c:684-724 | the `memchr` search returns the first acceptable place below the index, or none |
| `NameWriter.FindFirst` | Neue/managed_components/espressif__mdns/mdns_send.c:686-724 | the place found is acceptable and none before it is |
| `NameWriter.AppendString` | Neue/managed_components/espressif__mdns/mdns_send.c:103-113 | length byte and bytes, or nothing when they do not fit |
| `NameWriter.AppendU16` | Neue/managed_components/espressif__mdns/mdns_utils.c:266-274 | two bytes, most significant first, or nothing |
| `NameWriter.AppendFrame` | Neue/managed_components/espressif__mdns/mdns_send.c:678-739 | appending changes no byte outside the appended range |
| `NameRoundTrip.AcceptedIsName` | Neue/managed_components/espressif__mdns/mdns_send.c:706-720 | a place the search accepts where a plain name stands holds the searched labels up to case |
| `NameRoundTrip.AppendDelivers` | Neue/managed_components/espressif__mdns/mdns_send.c:678-739 | an appended name decodes to its labels up to case, as does each tail written out, whenever the place the search finds lies before it and holds a plain name |
| `NameExact.RoundTripExactly` | Neue/managed_components/espressif__mdns/mdns_send.c:678-739 | with room for it, a name reads back at its offset if it needed no pointer, or if in the buffer as it stands before the pointer is written the place found lies before the name and holds the labels left in bytes before the pointer; and only then, unless the pointer could be read as part of a label or of another pointer |
| `NameExact.ReadsBefore` | Neue/managed_components/espressif__mdns/mdns_utils.c:56-70 | a name read through a buffer that holds a pointer back to where reading began does without every byte from that pointer on |
| `NameExact.PointerTakenForLabel` | Neue/managed_components/espressif__mdns/mdns_send.c:684-724 | where the pointer could be so read, a name can be read back by accident: a label of two bytes that equal the pointer, standing stale across the end of the packet |
| `NameExact.AsciiStandsAlone` | Neue/managed_components/espressif__mdns/mdns_send.c:678-739 | for labels and preceding bytes below 192 the pointer cannot be read as part of anything else, so the condition is exact |
| `NameRoundTrip.NoDecoyMeansTrusted` | Neue/managed_components/espressif__mdns/mdns_send.c:686-724 | names of distinct labels meet that hypothesis when their labels occur length-prefixed only where labels were written |
| `PacketNames.PacketRoundTrip` | Neue/managed_components/espressif__mdns/mdns_send.c:678-739 | for every sequence of names, record data and later patches outside names, every name given to the packet decodes at its offset from the bytes sent, up to ASCII case, whatever stale bytes the buffer held |
| `PacketNames.PiecePlaced` | Neue/managed_components/espressif__mdns/mdns_send.c:678-739 | each appended piece leaves every earlier name decodable |
| `PacketNames.PacketReceived` | Neue/managed_components/espressif__mdns/mdns_utils.c:75-107 | end to end: names of the builders' shapes come out of the receiving parser valid, unmarked and in the right fields |
| `PacketNames.SubtypeReceived` | Neue/managed_components/espressif__mdns/mdns_utils.c:50-51 | end to end: a name `x._sub._service._proto.local` of a packet comes out of the receiving parser valid and marked, with x, service, proto and domain in their fields |
| `PacketNames.NoDecoyAllowed` | Neue/managed_components/espressif__mdns/mdns_send.c:686-724 | a packet built so far admits every name of distinct labels that has no decoys in it |
| `PacketNames.QuietMeansNoDecoy` | Neue/managed_components/espressif__mdns/mdns_send.c:686-694 | a condition on byte values alone under which there are no decoys |
| `PacketExact.EveryNameExactly` | Neue/managed_components/espressif__mdns/mdns_send.c:678-739 | whatever the buffer held, for every packet of names with room, record data, and patches outside the names: a name is read back at its offset from the bytes sent if and only if it needed no pointer, or the place found for its rest lies before it and the bytes sent read there as that rest |
| `PacketExact.EveryNameUnpatched` | Neue/managed_components/espressif__mdns/mdns_send.c:678-739 | in a packet without patches the condition is the one of the moment the name was appended |
| `PacketNames.DecoyBreaksRoundTrip` | Neue/managed_components/espressif__mdns/mdns_send.c:706-709 | after record data ending in the host name and `local`, each length-prefixed, and before a stale zero byte, the host's own name (as for its address record) is written as a pointer to itself and cannot be decoded, if the host label does not occur earlier |
| `PacketNames.SubtypeTakenForInstance` | Neue/managed_components/espressif__mdns/mdns_send.c:711-721 | a subtype name is accepted as the instance name without `_sub`, and when it is what the search finds, the instance name appended reads back with `_sub` in it |
| `PacketNames.TextEndsInDecoy` | Neue/managed_components/espressif__mdns/mdns_send.c:1016-1036 | text record data whose last two strings are the host name and `local` is such data |
| `TxProtocol.ProtocolSafe` | Neue/managed_components/espressif__mdns/mdns_send.c:1628-1746 | over every run of schedule, clear, detach, timer and execute steps of the two tasks the list stays sorted and duplicate-free, packets due at the same time in the order in which they were scheduled, with the flagged packets in front, and a packet whose action comes up is at the head or gone |
| `TxProtocol.StepConsistent` | Neue/managed_components/espressif__mdns/mdns_send.c:1837-1848 | each step keeps: pending actions restricted to flagged listed packets equal the flagged packets in list order, and first-in first-out among equal times |
| `TxProtocol.QueuedPacketIsAtHead` | Neue/managed_components/espressif__mdns/mdns_send.c:1837-1848 | in a consistent state the first action's packet is listed and flagged if and only if it is the flagged head |
| `TxProtocol.InsertKeepsOrder` | Neue/managed_components/espressif__mdns/mdns_send.c:1628-1646 | a packet goes behind every packet due no later (first in, first out), so behind all flagged ones, and in front of every packet due later; the others keep their order |
| `TxProtocol.TimerLeavesNoneBehind` | Neue/managed_components/espressif__mdns/mdns_send.c:1714-1746 | after a timer pass that reads the clock afresh for every packet, every packet overdue at its last reading is flagged: stopping at the first that is not due misses none |
| `TxProtocol.OverdueWithoutWrap` | Neue/managed_components/espressif__mdns/mdns_send.c:1728 | below the sign bit the wrapped comparison is the plain one |
| `TxProtocol.ClearRemoves` | Neue/managed_components/espressif__mdns/mdns_send.c:1667-1687 | clearing takes off the list exactly the packets of the one interface and protocol; the others keep their order, actions and clock stay |
| `TxProtocol.DetachRemoves` | Neue/managed_components/espressif__mdns/mdns_send.c:1818-1823 | detaching takes off exactly the one packet and leaves its action; clearing all leaves none |
| `TxProtocol.ScheduleAdds` | Neue/managed_components/espressif__mdns/mdns_send.c:1628-1646 | the new packet, unflagged and due at the given time from now, stands behind all due no later and before all due later, and nothing else changes |
| `TxProtocol.TimerActs` | Neue/managed_components/espressif__mdns/mdns_send.c:1714-1746 | a timer pass flags exactly one run of packets, none flagged before and all overdue, posts their actions in that order behind the others, and leaves no packet overdue at its last reading unflagged |
| `TxProtocol.ActionTakes` | Neue/managed_components/espressif__mdns/mdns_send.c:1837-1848 | the oldest action goes; if its packet is listed and flagged it is the head and leaves the list, for good, to come back unflagged at the given time, or to make room for a new packet due then; otherwise the list stays |
| `TxQueue.Queue.SendAfter` | Neue/managed_components/espressif__mdns/mdns_send.c:1628-1646 | splicing in place inserts the packet at its slot with its 32-bit due time |
| `TxQueue.Queue.ClearIf` | Neue/managed_components/espressif__mdns/mdns_send.c:1667-1687 | the two loops remove exactly the packets of one interface and protocol, in place |
| `TxQueue.Queue.ClearAll` | Neue/managed_components/espressif__mdns/mdns_send.c:1651-1659 | empties the list |
| `TxQueue.Queue.SendPackets` | Neue/managed_components/espressif__mdns/mdns_send.c:1714-1746 | the timer's pass, reading the clock for every packet, flags and posts exactly the overdue run behind the flagged ones |
| `TxQueue.Queue.Detach` | Neue/managed_components/espressif__mdns/mdns_send.c:1818-1823 | takes exactly the one packet off the list, in place, wherever it stands |
| `TxQueue.Queue.RunAction` | Neue/managed_components/espressif__mdns/mdns_send.c:1837-1848 | the oldest action takes its packet off the head, unflagged, or is skipped |
| `TxTasks.Tasks.Serve` | Neue/managed_components/espressif__mdns/mdns_service.c:200-226 | on the linked list in memory, whatever steps the timer task and the service task take in whatever order, the list, the actions and the clock are those of the protocol run and consistent, and a packet flagged and listed when its action comes up is the head |
| `TxTasks.Tasks.Perform` | Neue/managed_components/espressif__mdns/mdns_service.c:200-226 | each step on the list in memory is the protocol's step (what that does is stated by ClearRemoves, DetachRemoves, ScheduleAdds, TimerActs and ActionTakes); that identities tell packets apart is kept |
| `TxTasks.Tasks.Clear` | Neue/managed_components/espressif__mdns/mdns_send.c:1667-1687 | in memory a packet is on the list afterwards if and only if it was and is not of that interface and protocol |
| `TxTasks.Tasks.ClearAll` | Neue/managed_components/espressif__mdns/mdns_send.c:1651-1659 | no packet is on the list afterwards |
| `TxTasks.Tasks.Detach` | Neue/managed_components/espressif__mdns/mdns_send.c:1818-1823 | a packet is on the list afterwards if and only if it was and is not the one detached |
| `TxTasks.Tasks.RunAction` | Neue/managed_components/espressif__mdns/mdns_send.c:1837-1848 | the service task's step, the packet dropped, put back or replaced by a new one |
| `TxTasks.Tasks.Timer` | Neue/managed_components/espressif__mdns/mdns_send.c:1714-1746 | the timer task's step, the clock moving on while it runs |
| `TxTasks.ReadyMeansHead` | Neue/managed_components/espressif__mdns/mdns_send.c:1839-1841 | comparing the action's packet with the head by address is comparing their identities |
| `Probing.AnnouncedAfterThreeProbes` | Neue/managed_components/espressif__mdns/mdns_pcb.c:211-259 | over every run since start-up, a port that turns from probing to announcing has sent exactly three probes since it began, each more than 250 ms after the previous one, all three offering the records of every service that its one scheduled packet now announces and asking for each of them unless a removal in between took out another service's question (section 8.1 of RFC 6762); the addresses of the services' hosts are announced in any case, and were asked for by all three if the round was about hosts and by none otherwise |
| `Probing.ProbingSafe` | Neue/managed_components/espressif__mdns/mdns_pcb.c:211-259 | in every reachable state a port in a probe state has exactly one packet scheduled, the probe that carries the records of exactly what is being probed, with as many questions of each kind, and asks for exactly that unless a question was confused, due 250 ms after the previous one |
| `ServiceRemoval.AskedForEveryService` | Neue/managed_components/espressif__mdns/mdns_pcb.c:211-259 | over every run in which no service is removed while another of its type stands before it in a probe list, all three probes asked for every service announced |
| `HostProbing.NameProbedBeforeAnswering` | Neue/managed_components/espressif__mdns/mdns_pcb.c:127-148 | over every run from start-up: while the device has a name, a packet with answers is scheduled only on a port that, since it got its socket or the device its name, has sent three probes in a row for this device's name, each more than 250 ms after the one before |
| `HostProbing.AnnouncedHostsAsked` | Neue/managed_components/espressif__mdns/mdns_send.c:1479-1513 | when a port turns to announcing it has asked, in three probes in a row, for every host whose addresses it announces if and only if the round was about hosts or every service probed is offered by a host asked for before |
| `HostProbing.EveryHostAsked` | Neue/managed_components/espressif__mdns/mdns_send.c:1479-1513 | over every run in which services of other hosts are probed for with their hosts only, every host whose addresses a port turns to announcing has been asked for |
| `HostProbing.HostsSafe` | Neue/managed_components/espressif__mdns/mdns_pcb.c:389-424 | over every run each ready port of a named device is in a round about hosts or has completed one for this device, and what it sent in its round is the last it sent |
| `HostRun.AnnouncedHostUnasked` | Neue/managed_components/espressif__mdns/mdns_send.c:1487-1502 | for any service: a port that has introduced the device and is given the service announces, after three probes that ask for no host, the addresses of the service's host; if that is not this device, the port has never asked for it |
| `ServiceRemoval.AnnouncedUnasked` | Neue/managed_components/espressif__mdns/mdns_send.c:1796-1815 | for any two services of one type: a port is enabled with the first, the second is added, the first removed; the second is then announced although all three probes asked for the first only |
| `ServiceRemoval.RemovalExact` | Neue/managed_components/espressif__mdns/mdns_send.c:1778-1825 | removing a service from a port that asks for exactly what it probes leaves exactly the remaining services asked for (and the removed one not) if and only if no service of its type stands before it in the probe list |
| `ServiceLists.RightQuestionGoes` | Neue/managed_components/espressif__mdns/mdns_send.c:1796-1815 | taking out the first question of a type takes out the service's own, and no other, if and only if no service of the type stands before it |
| `PcbRecord.RemoveQuestion` | Neue/managed_components/espressif__mdns/mdns_send.c:1796-1815 | the loop takes out the first question of the type, or none |
| `Probing.OnlySendingAnnounces` | Neue/managed_components/espressif__mdns/mdns_pcb.c:229-251 | no other operation takes a probing port to an announcing state |
| `Probing.ThirdProbe` | Neue/managed_components/espressif__mdns/mdns_pcb.c:229-247 | sending in the third probe state completes a round of exactly three and schedules the announcement of the same services and their hosts' addresses; the hosts announced were asked for by all three exactly if the round was about hosts |
| `Probing.AskedAgain` | Neue/managed_components/espressif__mdns/mdns_pcb.c:218-228 | the first two probes are scheduled again and extend the round |
| `Probing.StartProbeOk` | Neue/managed_components/espressif__mdns/mdns_pcb.c:339-424 | however the port was left, starting a probe leaves exactly one packet for it, asking once for old and new services, or, without a host name, none and the port running; no other port is disturbed |
| `Probing.AllProbedOk` | Neue/managed_components/espressif__mdns/mdns_pcb.c:400-419 | what is asked for is exactly the old and the new services, each once |
| `Probing.AnnouncedServicesListed` | Neue/managed_components/espressif__mdns/mdns_pcb.c:43-84 | every announced service gets into a scheduled packet of the port, whose round starts over, when the port is probing or running and there is a host name, or it has an announcement scheduled |
| `Probing.AnnounceKeeps` | Neue/managed_components/espressif__mdns/mdns_pcb.c:43-84 | announcing keeps the discipline in each of its four cases |
| `Probing.ServiceForgotten` | Neue/managed_components/espressif__mdns/mdns_send.c:1778-1825 | removing a service leaves none of its records in any scheduled packet and every port in order |
| `ServiceRemoval.AddressesStay` | Neue/managed_components/espressif__mdns/mdns_send.c:1783-1824 | an announcement that has addresses stays scheduled when its last service is removed, and its port goes on announcing |
| `ServiceRemoval.GoneUnlessConfused` | Neue/managed_components/espressif__mdns/mdns_send.c:1778-1825 | afterwards no scheduled probe asks for it either, on ports where no question was confused |
| `Probing.DisableKeeps` | Neue/managed_components/espressif__mdns/mdns_pcb.c:153-167 | disabling keeps the discipline on every port |
| `Probing.EnableKeeps` | Neue/managed_components/espressif__mdns/mdns_pcb.c:172-181 | enabling keeps the discipline on every port, whether the interface opens or not |
| `Probing.DuplicateKeeps` | Neue/managed_components/espressif__mdns/mdns_pcb.c:186-204 | marking a duplicate keeps the discipline on every port |
| `Probing.ProbeEachOk` | Neue/managed_components/espressif__mdns/mdns_pcb.c:445-462 | probing on all ports, with or without forgetting what was probed |
| `PortSteps.DisableDoes` | Neue/managed_components/espressif__mdns/mdns_pcb.c:153-167 | afterwards the port has no socket, is OFF, probes nothing and has nothing scheduled; if it had its socket, a duplicate beside it that has or opens its own is in the first probe state with one packet that asks for exactly the services given and the host (it just runs without a host name), and is OFF otherwise; every other port's record, socket, round and packets are as they were |
| `PortSteps.EnableDoes` | Neue/managed_components/espressif__mdns/mdns_pcb.c:172-181 | a port whose socket is missing and does not open only forgets its failures; any other has its socket and one packet, the first probe for exactly the services given (those it was asking for last) and the host, at the right time; no other port is touched |
| `PortSteps.DuplicateDoes` | Neue/managed_components/espressif__mdns/mdns_pcb.c:186-204 | the duplicate has no socket, is DUP and has nothing scheduled, and the other port announces this device's addresses, by its state; without that port's socket nothing happens; no third port is touched |
| `PortSteps.AnnounceDoes` | Neue/managed_components/espressif__mdns/mdns_pcb.c:43-84 | on a ready port: a probing one begins anew with the services in front, an announcing one takes up their answers and host addresses into its first packet and starts its round over, a running one of a named device schedules exactly that announcement at once; nothing else happens, and nothing without a socket |
| `PortSteps.StartProbeDoes` | Neue/managed_components/espressif__mdns/mdns_pcb.c:389-424 | one packet is left for the port, asking for exactly the services given and then those it was asking for, and for hosts if asked now or before; without a host name none, and it runs; no other port is touched |
| `PortSteps.ProbeAllDoes` | Neue/managed_components/espressif__mdns/mdns_pcb.c:445-462 | every port visited that has its socket begins to probe for the services, with those it was asking for unless these are cleared; no other port is touched |
| `PortSteps.RestartDoes` | Neue/managed_components/espressif__mdns/mdns_responder.c:238-261 | everything scheduled is dropped and every port with a socket begins to probe for exactly the services given and for hosts; the others have no packet |
| `PortSteps.SendDoes` | Neue/managed_components/espressif__mdns/mdns_pcb.c:211-259 | the head is recorded as sent; it comes back 250 ms later in the first two probe states and 1000 ms later in the first two announcing states, the state moving on by one, gives way to an announcement 250 ms later in the third probe state, and is gone otherwise, after the third announcement with the port RUNNING; no other port is touched |
| `PortSteps.RemoveDoes` | Neue/managed_components/espressif__mdns/mdns_send.c:1778-1825 | each packet loses the records of the service and nothing else, and stays listed if and only if something is left in it; a port past its probing runs from now on if it was announcing and a packet of it answered for this service only, and keeps its record otherwise |
| `PortSteps.RespondDoes` | Neue/managed_components/espressif__mdns/mdns_send.c:1628-1646 | a response is scheduled besides the port's other packets, at its time, and nothing else changes |
| `PortSteps.FailureDoes` | Neue/managed_components/espressif__mdns/mdns_pcb.c:331-334 | a failed probe adds one to the port's 16-bit count and does nothing else |
| `PcbRecord.Record.InitProbe` | Neue/managed_components/espressif__mdns/mdns_pcb.c:389-424 | the de-duplicating nested loop and the copying loops build new-then-old services without repeats; without a host name there is no probe and the port runs |
| `PcbRecord.Record.CheckProbingServices` | Neue/managed_components/espressif__mdns/mdns_pcb.c:261-300 | search and shift in place remove exactly the one service, and end the probing when nothing is left |
| `PcbRecord.Record.ScheduleTxPacket` | Neue/managed_components/espressif__mdns/mdns_pcb.c:211-259 | state change and fate of the packet just sent |
| `PcbRecord.Record.Unknown` | Neue/managed_components/espressif__mdns/mdns_pcb.c:402-416 | keeps exactly the services not yet being probed, in order |
| `PcbRecord.Record.CloseGap` | Neue/managed_components/espressif__mdns/mdns_pcb.c:275-280 | closes the gap and keeps the order of the rest |
| `PcbRun.Station.Serve` | Neue/managed_components/espressif__mdns/mdns_pcb.c:43-462 | on the record and the packets of a port in memory, whatever operations are served in whatever order, each is the responder's step, and at the end the probing discipline holds |
| `PcbRun.Station.Perform` | Neue/managed_components/espressif__mdns/mdns_pcb.c:43-462 | one operation in memory is the responder's step and keeps the discipline |
| `PcbRun.Station.StartProbe` | Neue/managed_components/espressif__mdns/mdns_pcb.c:389-424 | clears the port's packets and schedules the probe for old and new services, or without a host name just runs |
| `PcbRun.Station.EnablePort` | Neue/managed_components/espressif__mdns/mdns_pcb.c:172-181 | in memory: either the failures are forgotten and nothing else changes, or the socket is there and the port is in the first probe state with one packet, for exactly these services and about hosts, or runs without a packet if there is no host name |
| `PcbRun.Station.DisablePort` | Neue/managed_components/espressif__mdns/mdns_pcb.c:153-167 | in memory: no socket, OFF, and, if there was one, no packet of the port and a blank record; nothing else changes |
| `PcbRun.Station.AnnounceOn` | Neue/managed_components/espressif__mdns/mdns_pcb.c:43-84 | the four cases of announcing in memory |
| `PcbRun.Station.RemoveService` | Neue/managed_components/espressif__mdns/mdns_send.c:1778-1825 | packet by packet: records, a question, the record of the port, and the packet itself when nothing is left |
| `PcbRun.Station.SendHead` | Neue/managed_components/espressif__mdns/mdns_send.c:1827-1835 | the packet at the head leaves the list and is dropped, put back or replaced |
| `PcbRecord.RemovedAt` | Neue/managed_components/espressif__mdns/mdns_pcb.c:266-280 | without repeats, removing a service is closing its gap |
| `TxtRecord.RoundTrip` | Neue/managed_components/espressif__mdns/mdns_receive.c:221-316 | for entries of at most 255 bytes, decoding encoded items gives the same keys and values in order (an empty value as no value) if and only if every key is non-empty and free of `=` (section 6 of RFC 6763) |
| `TxtRecord.ResultTxtCreate` | Neue/managed_components/espressif__mdns/mdns_receive.c:224-316 | on arbitrary bytes the two passes store exactly the items of the record, within the array the first pass sized, or nothing if it is malformed |
| `TxtRecord.SecondPass` | Neue/managed_components/espressif__mdns/mdns_receive.c:254-301 | the bound on the second pass never cuts it short |
| `TxtRecord.GetTxtItemsCount` | Neue/managed_components/espressif__mdns/mdns_receive.c:181-203 | the number of strings up to an empty one, −1 if one overruns, 0 for a single byte |
| `TxtRecord.GetTxtItemLen` | Neue/managed_components/espressif__mdns/mdns_receive.c:208-219 | the key length up to `=`, −1 for a missing key |
| `TxtRecord.AppendOneTxtRecordEntry` | Neue/managed_components/espressif__mdns/mdns_send.c:115-133 | one entry in place, nothing and 0 when it does not fit, −1 when there is no item or key |
| `TxtRecord.AppendTxtData` | Neue/managed_components/espressif__mdns/mdns_send.c:1016-1036 | the record data in place, a single zero for no items; fails exactly when the entries do not fit |
| `TieBreak.VerdictIsOrder` | Neue/managed_components/espressif__mdns/mdns_receive.c:411-432 | length-then-bytes comparison is antisymmetric, ties only on equal data, and is transitive |
| `TieBreak.LongerOrGreaterWins` | Neue/managed_components/espressif__mdns/mdns_receive.c:411-432 | we win if and only if our data are longer, or as long and greater where they first differ, and they win if and only if it is so the other way round |
| `TieBreak.ItemsDecide` | Neue/managed_components/espressif__mdns/mdns_receive.c:393-433 | a side that has items wins over one that sends none; else the data decide |
| `TieBreak.SrvFieldsDecide` | Neue/managed_components/espressif__mdns/mdns_receive.c:438-490 | in the domain `local` the longer host name wins, and between equally long ones the greater priority, then weight, then port |
| `TieBreak.TxtVerdictsOpposite` | Neue/managed_components/espressif__mdns/mdns_receive.c:393-433 | two hosts reach opposite verdicts on each other's TXT data if and only if it is not the case that both send a single zero byte while one has an item |
| `TieBreak.TxtVerdictIsOrder` | Neue/managed_components/espressif__mdns/mdns_receive.c:393-433 | with non-empty keys a tie means identical data, and winning is transitive |
| `TieBreak.SrvVerdictsOpposite` | Neue/managed_components/espressif__mdns/mdns_receive.c:438-490 | in the domain `local` two hosts reach opposite SRV verdicts if and only if both have a host name or neither has |
| `TieBreak.SrvVerdictIsOrder` | Neue/managed_components/espressif__mdns/mdns_receive.c:438-490 | between named hosts a tie means the same priority, weight, port and host, and winning is transitive |
| `TieBreak.SrvDataInjective` | Neue/managed_components/espressif__mdns/mdns_receive.c:457-481 | different SRV records never serialize to the same bytes |
| `TieBreak.CheckTxtCollision` | Neue/managed_components/espressif__mdns/mdns_receive.c:393-433 | summing loop, serialization and comparison in place give the verdict on data of any length, over what the array on the stack held where entries beyond the packet size are not written; below the packet size that does not matter |
| `TieBreak.DecidedExactly` | Neue/managed_components/espressif__mdns/mdns_receive.c:411-432 | the verdict depends on bytes never written if and only if both data have the same length, it reaches the packet size, and what is written of ours begins theirs |
| `TieBreak.CheckSrvCollision` | Neue/managed_components/espressif__mdns/mdns_receive.c:438-490 | both serializations in place and their comparison give the verdict |
| `Renaming.NeverTheSameName` | Neue/managed_components/espressif__mdns/mdns_receive.c:138-176 | no two names in a chain of renamings are equal, the original included, however long it gets |
| `Renaming.RenamedIsNumbered` | Neue/managed_components/espressif__mdns/mdns_receive.c:138-176 | from the first renaming on the names are one base with a number rising by one, up to the limit of `int` |
| `Renaming.RenamedIsCounted` | Neue/managed_components/espressif__mdns/mdns_receive.c:138-176 | and after the limit, where the number wraps around, its sign is taken for the separating dash and a dash is added every time |
| `Renaming.FitsItsBuffer` | Neue/managed_components/espressif__mdns/mdns_receive.c:155-173 | every new name fits the buffer allocated for it, carries, leading zeros and the wrap-around at the limit of `int` included |
| `Renaming.NumberedCountsUp` | Neue/managed_components/espressif__mdns/mdns_receive.c:147-173 | printing and parsing the suffix are inverse |
| `Renaming.MangleName` | Neue/managed_components/espressif__mdns/mdns_receive.c:138-176 | copying and printing in place into a buffer of the allocated size leave the new name as a C string |
| `Renaming.ParseNumber` | Neue/managed_components/espressif__mdns/mdns_receive.c:147 | spaces, sign and digits as `strtol` takes them, clamped to 32 bits |
| `Relay.RunInv` | Neue/ls_relay/src/ls_relay.c:234-279 | under every interleaving start and end events alternate, the line is idle at every end event, and active only between the two |
| `Relay.AbortTakesEffect` | Neue/ls_relay/src/ls_relay.c:122-133 | after the flag is raised during a fire at most one more thing happens, an active write or one chunk of at most 100 ms, and the end event comes within eight worker actions |
| `Relay.AbortIsReported` | Neue/ls_relay/src/ls_relay.c:269-278 | the fire in which the flag is raised ends with an aborted report if and only if it had not yet looked at the flag for the last time |
| `Relay.StaleFlagIsHarmless` | Neue/ls_relay/src/ls_relay.c:234-240 | whatever flag a fire begins with, it and all later fires end well unless the flag is raised again |
| `Relay.FireRuns` | Neue/ls_relay/src/ls_relay.c:242-272 | an undisturbed fire publishes its two events and is active and idle for exactly the computed times |
| `Relay.EveryRequestFires` | Neue/ls_relay/src/ls_relay.c:281-301 | over every interleaving the reasons of the start events, the request being taken up and the requests queued are exactly those there were and those made since, in order: no request is lost, repeated or overtaken |
| `Relay.RequestRuns` | Neue/ls_relay/src/ls_relay.c:281-301 | an idle worker, undisturbed, takes the request at the front of its queue and publishes its start event, with its reason, and its end event, with the exact times, leaving the rest of the queue |
| `Relay.OtherMessages` | Neue/ls_relay/src/ls_relay.c:281-301 | any other message is taken off and publishes nothing; an abort message clears the flag |
| `Relay.SleepRuns` | Neue/ls_relay/src/ls_relay.c:122-133 | the chunks of a sleep add up to exactly its length |
| `Relay.AcceptedTimes` | Neue/ls_relay/src/ls_relay.c:251-266 | for every accepted configuration nothing wraps: a steady fire is active for the configured time, a pulsed one for cycles half periods each way, 2·pulse·cycles ≤ total < 2·pulse·(cycles+1) when at least one fits, one cycle otherwise |
| `RelayTask.Task.RunFireSequence` | Neue/ls_relay/src/ls_relay.c:234-279 | the code with its loops, other tasks acting between any two accesses, is a run of the step machine and publishes exactly one start and one end event, the latter with the line idle |
| `RelayTask.Task.CancellableSleepMs` | Neue/ls_relay/src/ls_relay.c:122-133 | the chunked loop is a run of sleep steps and reports an abort exactly when it takes that path |
| `RelayTask.Task.WorkerTurn` | Neue/ls_relay/src/ls_relay.c:281-301 | a fire at the front of the queue is run: the log grows by exactly a start event with its reason and an end event with the line idle; for any other message it does not grow; each turn is a run of the step machine |
| `RelayTask.Task.Handle` | Neue/ls_relay/src/ls_relay.c:286-299 | the message received is a fire run if and only if none is on, with the two events of that message's reason; otherwise nothing is published and exactly that message is off the queue, and an abort message clears the flag |
| `RelayTask.Task.RequestFire` | Neue/ls_relay/src/ls_relay.c:308-319 | on `timer.triggered` a fire is queued exactly when none is on and there is room; nothing else changes |
| `RelayTask.Task.CliTest` | Neue/ls_relay/src/ls_relay.c:609-636 | refused without a pin, while firing, and when the queue is full; else a fire is queued |
| `RelayTask.Task.CliOff` | Neue/ls_relay/src/ls_relay.c:638-655 | raises the flag exactly when firing and always idles the line |
| `RelayTask.Task.CliAbort` | Neue/ls_relay/src/ls_relay.c:657-670 | raises the flag, or is refused when idle |
| `RelayTask.Task.OnFactoryReset` | Neue/ls_relay/src/ls_relay.c:186-228 | its accesses in order, each a step other tasks may see |
| `MailStore.SurvivesReboot` | Neue/ls_mail_groups/src/ls_mail_groups.c:134-141 | after every sequence of commands, factory resets and reboots a further reboot rebuilds exactly the groups in memory, whatever stale keys the store holds |
| `MailStore.StepGood` | Neue/ls_mail_groups/src/ls_mail_groups.c:156-182 | every command keeps memory and store in agreement |
| `MailStore.AddDoes` | Neue/ls_mail_groups/src/ls_mail_groups.c:156-173 | the first free slot becomes an enabled group with the name given, or its default, cut to the buffer, and nothing else in it; when there is none the command is refused; all other groups stay |
| `MailStore.DeleteDoes` | Neue/ls_mail_groups/src/ls_mail_groups.c:319-342 | a used group is cleared out, all others stay; the reason of a refusal is the id or that it is not used |
| `MailStore.EnableDoes` | Neue/ls_mail_groups/src/ls_mail_groups.c:347-391 | a used group's switch is as commanded, everything else stays |
| `MailStore.EditDoes` | Neue/ls_mail_groups/src/ls_mail_groups.c:394-528 | the field named holds the text, cut to its 48, 128 or 512 bytes with the NUL, all other fields and groups stay, and the refusals come in order |
| `MailStore.AddRecipientDoes` | Neue/ls_mail_groups/src/ls_mail_groups.c:638-680 | refusals in order; else the address, cut to 95 bytes, is behind the others and all else stays |
| `MailStore.RemoveRecipientDoes` | Neue/ls_mail_groups/src/ls_mail_groups.c:697-734 | refused if no recipient is the address up to case; else the first such is out, the others keep their order, the freed slot is empty, all else stays |
| `MailStore.FactoryResetDoes` | Neue/ls_mail_groups/src/ls_mail_groups.c:906-921 | no group is used and nothing is in the store |
| `MailStore.SaveThenLoad` | Neue/ls_mail_groups/src/ls_mail_groups.c:68-132 | loading what was just saved gives it back over any store |
| `MailStore.LoadedElsewhere` | Neue/ls_mail_groups/src/ls_mail_groups.c:104-132 | saving one group changes nothing another group loads |
| `MailStore.KeyInjective` | Neue/ls_mail_groups/src/ls_mail_groups.c:63-66 | keys of different groups or suffixes differ |
| `MailStore.AddedWithoutDuplicates` | Neue/ls_mail_groups/src/ls_mail_groups.c:669-679 | an accepted address keeps the list free of duplicates up to case if and only if it has at most 95 bytes or its first 95 are not listed |
| `MailStore.RemovedFromList` | Neue/ls_mail_groups/src/ls_mail_groups.c:714-733 | removal takes out the first match and keeps the rest in order |
| `MailStore.RemoveUndoesAdd` | Neue/ls_mail_groups/src/ls_mail_groups.c:675-733 | removing an address just added restores the group |
| `MailGroups.Groups.SaveGroup` | Neue/ls_mail_groups/src/ls_mail_groups.c:104-132 | writes exactly the keys of one group, recipients by loop |
| `MailGroups.Groups.LoadAll` | Neue/ls_mail_groups/src/ls_mail_groups.c:134-141 | rebuilds all slots from the store alone |
| `MailGroups.Groups.Reboot` | Neue/ls_mail_groups/src/ls_mail_groups.c:134-141 | leaves every slot as it was |
| `MailGroups.Groups.Add` | Neue/ls_mail_groups/src/ls_mail_groups.c:156-173 | takes the first free slot, or refuses when full |
| `MailGroups.Groups.Delete` | Neue/ls_mail_groups/src/ls_mail_groups.c:175-182 | zeroes the slot and writes its mark alone |
| `MailGroups.Groups.Edit` | Neue/ls_mail_groups/src/ls_mail_groups.c:423-425 | cut to the buffer and saved, with the refusals in the order of the code |
| `MailGroups.Groups.RcptAdd` | Neue/ls_mail_groups/src/ls_mail_groups.c:638-680 | all refusals in order, else appended and saved |
| `MailGroups.Groups.RcptRemove` | Neue/ls_mail_groups/src/ls_mail_groups.c:697-734 | found and shifted out in place, saved |
| `MailGroups.Groups.ShiftTail` | Neue/ls_mail_groups/src/ls_mail_groups.c:726-733 | the loop moves the later entries down and zeroes the last |
| `MailGroups.Groups.OnFactoryReset` | Neue/ls_mail_groups/src/ls_mail_groups.c:906-921 | all slots zero and the store empty |
| `JsonText.EscapedIsReadable` | Neue/ls_mail_groups/src/ls_mail_groups.c:35-54 | the escaped text fits its buffer, unescapes to a prefix of the text with control characters as spaces, and to all of it when the buffer has more than twice its length |
| `JsonText.JsonEsc` | Neue/ls_mail_groups/src/ls_mail_groups.c:35-54 | the loop leaves exactly that text, never cut inside an escape |

## Left out

- Timer: queue events are atomic and writes to the store succeed; an alarm event is published before the mask is saved, and a factory reset from another task in the middle of an event is not modelled.
- Timer: 64-bit overflow of deadlines, and a wall clock that is set wrongly or backwards; the clock shows the true time in whole seconds from the moment it is set.
- Timer: tokenizing of command lines; `TimerMachine.CliSet` takes the parsed arguments.
- Names: the reverse-lookup variant of the fields, which the default configuration does not compile in.
- NameWriter.TestCandidate: does not model `memcmp` past the end of the packet buffer, which counts as a mismatch here.
- PacketNames.PacketRoundTrip: does not cover names that run out of room, because a builder then drops the whole packet; the one-byte truncation of record lengths and a packet that overflows in the middle of a record are not modelled either.
- Scheduler: packets have unique identities (no reuse of a freed address), the action queue never rejects, allocation succeeds, and the millisecond clock stays below its sign bit.
- Probing: the services of one probe are distinct, and closing an interface succeeds. The `queued` flags of the list are the subject of TxProtocol and stay false in Probing. Removing single scheduled answers when another responder has given them is left out.
- ServiceRemoval.RemovalExact: a service's type and protocol are one number, its kind; the strings of a service that is gone, which a confused question still refers to, are not modelled.
- Probing: what a transmitted packet looks like on the wire beyond its names; goodbye packets, which are sent without being scheduled; nothing is claimed about the number of announcements, since scheduled responses advance the state as well.
- TxtRecord.RoundTrip: entries longer than 255 bytes, whose length byte wraps.
- TieBreak: the comparison of addresses, which depends on the interfaces of the device.
- Renaming.MangleName: takes the addition at the limit of `int` to wrap around, as it does on the device; the C standard leaves it undefined.
- PcbRun.Station.Serve: has one port only, so no duplicate interface; the list of packets is a sequence here and a linked list in TxQueue.
- HostProbing.NameProbedBeforeAnswering: speaks of this device's name; the names of other hosts it answers for are the subject of AnnouncedHostsAsked. Addresses announced on a running port by `mdns_priv_pcb_announce` with `include_ip` are not followed for other hosts.
- PcbRecord.Record.ScheduleTxPacket: does not model the unicast bit, which the first probe of a round carries and the others do not, and a failed allocation in the third probe state, after which the probe is sent once more.
- RelayTask.Task.OnFactoryReset: does not model the erasure of the store and the reset of pin and polarity to their defaults.
- Relay: pin number and polarity do not change during a fire, and driving the pin and noting it is one action; a delay of one tick more or less.
- Mail groups: the SMTP exchange, JSON envelopes and human-readable output; bytes behind the NUL of a buffer.
- SMTP and TLS, the reset server, sockets and network interfaces, the reminder component, the browser UI and boot wiring, console and debug output are left out: they are I/O against libraries whose code is not part of this model, or would add easier members of the kinds above.
