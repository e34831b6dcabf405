# Verification of the console, the agent and the deception workflow

These Dafny modules model the stateful core of the system and prove what it keeps over whole runs:

- **Telemetry.** `Monitoring` gives each call of the monitoring engine its meaning on values, `MonitoringEngine` is
  the engine as an object with loops proved against that meaning, `MonitoringRuns` proves theorems over all runs,
  `Detection` says what correlated, recorded and simulated events are, `Feed` covers the polled event list, and
  `MonitoringSteps` is the engine at lock granularity, with copying, serialising and writing a snapshot as separate
  steps; `MonitoringInvariant` is what every step keeps and `MonitoringThreads` the theorems over every interleaving.
  `MonitoringDurability` says what a restart finds in the file concurrent calls left, and `MonitoringSequential` ties
  calls that do not overlap to the sequential engine.
- **Agent.** `Collectors`, `CollectorRuns` and `Winlog` are the event sources, `AgentRegistry` the console's record of
  agents, `Payloads` what a line says, `AgentProtocol`, `AgentTheorems` and `AgentOutcomes` agent and console over a
  network that loses requests and responses, and `AgentService` the loop and endpoints as objects.
- **Deploy and teardown.** `HoneyNames` (prefix, escape, guard), `Provisioning` (LDAP requests that are done, refused, or
  raise before or after being applied), `ProvisionedEntries` (what it leaves in the directory), `DeploymentHistory`,
  `Deception` (the two workflows), `DeploymentTheorems` and `DeploymentOutcomes`.
- **Rate limiter.** `RateLimit`, with real-valued time.
- **Printers, paging, vault.** `Escaping`, `Cypher`, `CypherStatements` and `GraphImport`; `Paging`; `Vault` and `VaultRuns`.

`Text` and `Runs` hold strings and runs. Code that updates state in place is a class or a loop proved against a
specification function; the theorems are about those functions. Character properties (`lower`, `isalnum`, white space)
are parameters, as are clocks, random choices and fresh tokens.

Check the project with `dafny verify dfyconfig.toml`.

## Where the code does less than it promises

Each of these is a lemma with the exact condition, or with a run that shows it:

- Snapshots can be written in the reverse order of their copies, so a restart can lose an event and reuse its uid
  (`StaleWriteLosesAnEvent`, `FileIsBehindIff`); written in order, restarts are invisible
  (`OrderedWritesMakeRestartsInvisible`), as they are for calls that do not overlap (`OneAtATimeIsSequential`).
- A poll of the feed that is not timely skips events for good, unless the timestamps put the oldest new ones first
  (`PollLosesNothingIff`).
- The Windows collector moves its mark during a backwards scan, so a poll reports at most one record
  (`OnlyTheNewestIsReported`, `ReportsAllDueIff`), although it allows forty.
- A refresh the server refuses is reported as done, so an account on record can still be usable (`RecordIsBaitIff`).
- A line whose event id is an infinite number, or whose decoding raises anything but a decode error, is read again by
  every poll and stops the tail for good (`TailingReturnsAllIff`, `RaisingLineStopsTheTail`, `RaisingLineStopsTheAgent`).
- A file poll that falls inside a half-written line loses it (`MidLinePollIsSafeIff`).
- The agent passes lines before sending them: a lost request, more than 100 events at once or a blank actor loses them
  (`DeliveryIsCompleteIff`). An agent id longer than 128 characters is ingested but
  never gets a heartbeat through (`PostHeartbeat`).
- With a prefix the guard does not recognise no deployment can be torn down (`UnsoundPrefixBlocksTeardown`).
- An LDAP request applied without an answer is off the record, so its teardown does not undo it (`FreshPlanIsUndoneIff`).
- Entries that already existed are recorded as provisioned and deleted at teardown (`TeardownRestoresIff`), a dry run's
  record deletes live entries (`DryRunTeardownDeletes`), a plan that draws one name twice is not marked torn down by its
  teardown (`WillingServerIsUndoneIff`), and an exception in the graph sync leaves no record (`NewEntriesAreOnRecordIff`).
- The name prefix is not filtered itself; the exact prefixes that work are in `StampIsStableIff`,
  `GuardAcceptsEveryBuiltDnIff` and `NewAccountsAreDetectedIff`. A refreshed account whose own name no planned object
  matches escapes detection (`ExistingAccountIsDetectedIff`, `RefreshedAccountCanBeMissed`).
- The CN escape leaves a leading space or number sign, a trailing space and NUL (`EscapeIsWellFormedIff`).
- A semicolon in any text breaks an import of the planned statements (`ImportRunsTheObjectsIff`), and a property key that
  needs backquotes breaks the statement (`StatementReadsBackIff`).
- The lab search never reports a result cut by the size limit (`SimpleSearch`). The paged one goes on
  for ever against a server that stops sending anything but empty pages with a cookie (`EndsIff`), and a page reported
  not ok, empty or without a cookie, silently cuts the result short (`AnswerIff`).

## Model

| member | source | states |
|---|---|---|
| Monitoring.CorrelateFindsMatch | app/core/monitoring_engine.py:213-249 | A verdict is given exactly when some registered object matches; it names a matching object with its type, at severity critical, or high only for a failed logon on an artifact. |
| Monitoring.CorrelateSkip | app/core/monitoring_engine.py:221-234 | Objects that do not match do not change the verdict of the ones after them. |
| Detection.CorrelateTouchesIff | app/core/monitoring_engine.py:213-249 | An event is correlated exactly when a registered object with a name has it, ignoring case, inside the target or equal to the actor, or a service principal name inside the target; and then with the first such object, at its severity and with its phrase. |
| Detection.RecordSays | app/core/monitoring_engine.py:318-368 | A recorded event says what it was given under the next uid, with its id's label, and carries the verdict of the first object touched, told once at the end of the description, or else the given severity if it is a known one. |
| Detection.IngestSays | app/core/monitoring_engine.py:370-404 | An item with a whole number for its id, and an actor and a target that are not blank, makes one event that says what it says, stripped and with its defaults; any other changes nothing. |
| Detection.SimulationSays | app/core/monitoring_engine.py:251-298 | Each simulated event names a registered object with its type, comes from the host, carries an id watched for that type with the source that reports it, and a target with the object's name or one of its service principal names. |
| Detection.SimulatedIsCorrelatedIff | app/core/monitoring_engine.py:251-298 | Correlating a simulated event on its own object gives that object and the same severity, exactly unless the target is a blank service principal name. |
| Detection.SimulateSays | app/core/monitoring_engine.py:300-316 | Simulating appends between one and ten events, as many as asked for, and raises honey triggers and pending events by that number while the log has room. |
| Detection.RegistryIsNamed | app/core/monitoring_engine.py:193-204 | After any calls and restarts every registered object has a name. |
| Monitoring.AcceptedPlusRefused | app/core/monitoring_engine.py:370-413 | Accepted plus refused is the batch length, and a position is refused exactly when its item is not acceptable. |
| Monitoring.NamedMembers | app/core/monitoring_engine.py:193-204 | The registry keeps exactly the objects that have a name. |
| Monitoring.MaxUidBounds | app/core/monitoring_engine.py:129-130 | The restored maximum bounds every restored uid and is one of them. |
| MonitoringRuns.StepGood | app/core/monitoring_engine.py:115-206 | Every public call, a restart included, keeps the engine the last 500 of an unbounded log, the counter its length, the registry equal, and the file current. |
| MonitoringRuns.CappedLogRefinesFullLog | app/core/monitoring_engine.py:163-170 | After any calls the log is the last min(n, 500) of the full history, the counter is n, uids are positions in it, and a uid can be acknowledged exactly while its event is kept. |
| MonitoringRuns.AcknowledgeGood | app/core/monitoring_engine.py:479-489 | Acknowledging succeeds exactly for retained uids and marks that one event in the full history. |
| MonitoringRuns.RestartSame | app/core/monitoring_engine.py:115-131 | A new engine built on a reachable engine's file is that engine, defaults of the reader and uid counter included. |
| MonitoringRuns.RestartsAreInvisible | app/core/monitoring_store.py:25-59 | For any run, taking out every restart changes nothing: events, flags, registry, counter and file are the same, so no uid is reused. |
| MonitoringRuns.TriageCounts | app/core/monitoring_engine.py:448-477 | In every reachable state the four severity counts sum to the total, and unacknowledged is at most honey triggers, which is at most the total. |
| MonitoringRuns.AcknowledgeAllClears | app/core/monitoring_engine.py:491-500 | Acknowledging all leaves nothing pending and keeps the honey count. |
| MonitoringEngine.Engine.constructor | app/core/monitoring_engine.py:94-113 | A new engine on any file is what can be restored of it, otherwise the seeded baseline if asked for. |
| MonitoringEngine.Engine.Restore | app/core/monitoring_engine.py:115-131 | The in-place restore loop: kept events, registry and counter, or untouched when there is nothing to restore. |
| MonitoringEngine.Engine.RecordEvent | app/core/monitoring_engine.py:318-368 | Recording in place is one event with the next uid and the correlation's verdict, appended under the cap and saved. |
| MonitoringEngine.Engine.IngestEvents | app/core/monitoring_engine.py:370-413 | The batch loop records exactly the acceptable items in order and lists the positions of the others. |
| MonitoringEngine.Engine.SimulateHoneyInteraction | app/core/monitoring_engine.py:300-316 | Raises and changes nothing with an empty registry; otherwise appends one to ten events with consecutive uids and saves once. |
| MonitoringEngine.Engine.RegisterDeployment | app/core/monitoring_engine.py:193-206 | Replaces the registry by the named objects and saves. |
| MonitoringEngine.Engine.AcknowledgeEvent | app/core/monitoring_engine.py:479-489 | Marks the first event with the uid and reports whether there was one. |
| MonitoringEngine.Engine.AcknowledgeEvery | app/core/monitoring_engine.py:491-500 | Marks every pending event and returns how many there were. |
| MonitoringEngine.Engine.GetStats | app/core/monitoring_engine.py:448-477 | The one-pass tallies equal the counts over the whole log, and the last time is the greatest. |
| MonitoringEngine.Engine.QueryEvents | app/core/monitoring_engine.py:415-446 | One comprehension for each filter asked for, then a stable sort, then the clamped cut, give the query's meaning. |
| MonitoringEngine.Pass | app/core/monitoring_engine.py:427-440 | Filters applied one after the other select what their conjunction selects. |
| MonitoringEngine.SortNewestFirst | app/core/monitoring_engine.py:445 | The insertion loop is the stable sort by falling timestamp. |
| Feed.ListEventsIsTop | app/core/monitoring_engine.py:415-446 | Newest first with ties in recording order, only selected events, as many as selected up to the clamped limit, and every selected event left out stands behind every one returned. |
| Feed.ListEventsAnswers | app/core/monitoring_engine.py:415-446 | Only events of the log that the filters ask for are returned, never more than the limit, taken between 1 and 500, and never fewer when there are enough. |
| Feed.PollReturns | app/core/monitoring_engine.py:441-446 | If at most the limit is newer than the cursor, a poll returns each newer uid once (and then none was evicted); otherwise it returns the limit. |
| Feed.ClientSeesEachEventOnce | app/core/monitoring_engine.py:441-446 | A client that advances to its highest seen uid and polls in time is delivered every uid up to its cursor exactly once, over any run of calls. |
| Feed.PollLosesNothingIff | app/core/monitoring_engine.py:441-446 | Whatever the timestamps, a poll skips no uid for good exactly when it is timely, or the first newer events up to the limit are all kept and stand before every later one. |
| Feed.PollLosesNothingIffTimely | app/core/monitoring_engine.py:444-446 | With timestamps that grow with the uid only a timely poll skips nothing. |
| MonitoringThreads.LogHasNoGaps | app/core/monitoring_engine.py:348-364 | However the process started, in every interleaving at lock granularity the log is the last min(counter, 500) uids without a gap, and each of them, and each given out since, has one event. |
| MonitoringThreads.EachRecordMakesOneEvent | app/core/monitoring_engine.py:318-368 | In a process seeded, restored or empty at the start, each record call makes exactly one event, carrying the verdict of the registry at one instant between its start and its append. |
| MonitoringThreads.EachWriteIsOneInstant | app/core/monitoring_engine.py:133-140 | Each file content is the list, registry and counter of one past instant, every flag between its value then and its value at the write. |
| MonitoringThreads.OneWriterAtATime | app/core/monitoring_store.py:25-44 | At most one thread is inside the store's write. |
| MonitoringThreads.AcknowledgeAllIsAtomic | app/core/monitoring_engine.py:491-497 | The marking loop counts exactly the events pending when it took the lock and marks all of them, with nothing else of the log changed. |
| MonitoringThreads.StaleWriteLosesAnEvent | app/core/monitoring_engine.py:136-140 | Two snapshots written in reverse order lose a recorded event and give its uid out again: a run that shows it. |
| MonitoringDurability.StartIsReady | app/core/monitoring_engine.py:94-131 | An engine built on no file, seeded or not, or on a file an engine wrote, is a start the theorems over interleavings cover. |
| MonitoringDurability.NextProcessIsReady | app/core/monitoring_engine.py:115-140 | So is the engine built on whatever file a process leaves behind, in any interleaving. |
| MonitoringDurability.FileIsBehindIff | app/core/monitoring_engine.py:115-140 | However the process started, in every interleaving a restart on the file has a lower counter, another log and a uid already in use to give out, each exactly when an event was appended after the instant of the copy last written; its registry differs only if one was registered after that. |
| MonitoringDurability.OrderedWritesMakeRestartsInvisible | app/core/monitoring_engine.py:133-140 | If snapshots are written in the order of their copies, then whenever every call has returned a restart gives the present events, flags, registry and counter. |
| MonitoringSequential.OneAtATimeIsOrdered | app/core/monitoring_engine.py:133-140 | Calls that do not overlap write in the order of their copies. |
| MonitoringSequential.OneAtATimeIsSequential | app/core/monitoring_engine.py:193-500 | In a process seeded, restored or empty at the start, calls that do not overlap, taken step by step through the locks, end in the state of the sequential engine after the same calls, file included, and restarting there changes nothing. |
| Collectors.FileEventCollector.Poll | washu_agent/collectors.py:93-116 | The events of everything written since the last poll, from the start if the file shrank, nothing if it is missing; if a line raises, nothing is returned and the place stays. |
| Collectors.Normalize | washu_agent/collectors.py:53-80 | A normalised event has a watched id, the agent's id and a non-blank actor and target. |
| Payloads.NormalizeSays | washu_agent/collectors.py:53-84 | Each field of a collected event is the text of the first of its keys that is set, or its default; the outcome is an exception for an infinite id or a value whose text raises, and nothing for an id that is not watched or when neither actor nor target is given. |
| Collectors.RaisesAddUp | washu_agent/collectors.py:100-112 | A file cut in two raises exactly when one of the parts does, unless the cut falls inside a line. |
| Collectors.SplitOnConcat | washu_agent/collectors.py:100-104 | Two stretches of a file run together make the lines of both, with the last of one and the first of the other joined. |
| Collectors.MidLinePollIsSafeIff | washu_agent/collectors.py:93-116 | A poll between two stretches loses nothing, for every decoder, exactly when one part of the line it cuts is blank. |
| CollectorRuns.TailingReturnsAllIff | washu_agent/collectors.py:86-116 | For any file at the start and any interleaving of whole-line appends and polls, the tail comes to the end exactly when no appended line raises, and the polls returned every valid event, in order and once each, exactly when besides no valid one stands in the stretch it is stuck on. |
| CollectorRuns.TailingIsScheduleIndependent | washu_agent/collectors.py:86-116 | While no line raises, any two rhythms of polls over the same text return the same; only a time the collector stamps depends on the schedule. |
| CollectorRuns.RaisingLineStopsTheTail | washu_agent/collectors.py:252-264 | Once a poll meets a raising line nothing more is returned, whatever is appended and however often the collector polls. |
| CollectorRuns.ShrinkingFreesTheTail | washu_agent/collectors.py:96-100 | A shorter file in its place is read from the start by the next poll. |
| Winlog.WinlogCollector.Poll | washu_agent/collectors.py:136-184 | The nested read loops equal one backwards scan with a moving mark, reported oldest first. |
| Winlog.ReportSays | washu_agent/collectors.py:151-177 | A reported event has the low 16 bits of the record's id, the parties found in its message or "unknown", a severity by the id, and the record's text and time. |
| Winlog.TakenAreDue | washu_agent/collectors.py:150-176 | What is taken is of the log, has a watched id and a number after the mark, and there is room for it. |
| Winlog.OnlyTheNewestIsReported | washu_agent/collectors.py:150-181 | On a log read newest first a poll reports only the newest record that is due, since the mark moves during the scan. |
| Winlog.ReportsAllDueIff | washu_agent/collectors.py:150-181 | A poll reports every due record exactly when at most one is due. |
| Winlog.PassedOverIsLost | washu_agent/collectors.py:154-155 | A record at or below the mark is never reported again, and the mark never goes back. |
| AgentRegistry.Registry.OnHeartbeat | app/core/agent_registry.py:105-139 | Refused exactly for a blank id; otherwise blank fields keep the old ones, the count is replaced by the agent's (not below zero) and facts are merged. |
| AgentRegistry.HeartbeatSays | app/core/agent_registry.py:105-139 | Field by field: what the heartbeat gives, what was there where it gives nothing, and no other record touched. |
| AgentRegistry.NoteSays | app/core/agent_registry.py:141-151 | A positive count is added to one record, made if it is new, and the record is marked seen; nothing else changes. |
| AgentRegistry.Registry.NoteIngest | app/core/agent_registry.py:141-151 | Adds a positive count, creating the record when there is none. |
| AgentService.ConsoleServer.PostIngest | app/api/monitoring.py:150-180 | An empty batch is answered with nothing, more than 100 events is refused whole, otherwise the engine ingests and the registry notes the accepted count. |
| AgentService.ConsoleServer.PostHeartbeat | app/api/agents.py:18-83 | The heartbeat is filed under the stripped id; an id that is blank or longer than 128 characters is refused. |
| AgentService.AgentService.ForwardOnce | washu_agent/service.py:84-95 | The collector's place moves before the request, unless reading raises; only an answered, accepted batch adds to the count, and any failure sets the status. |
| AgentService.AgentService.ReportOnce | washu_agent/service.py:98-108 | A heartbeat carries the status and the count; failure sets the status. |
| AgentService.AgentService.RunTurn | washu_agent/service.py:84-108 | One turn of the loop is a forward, then a heartbeat when one is due; the heartbeat clock moves only when it got through. |
| AgentService.HeartbeatWhenDue | washu_agent/service.py:97-108 | A heartbeat is sent exactly when one is due, and puts off the next exactly when it is answered and the console takes the id. |
| AgentService.TurnIsMoves | washu_agent/service.py:84-108 | A turn is one or two moves of the protocol, so the theorems over moves cover the loop. |
| AgentProtocol.OwnIngest | app/api/monitoring.py:164-168 | A processed batch adds to the agent's part of the log, in order, one event for each acceptable item. |
| AgentProtocol.OthersCall | app/core/monitoring_engine.py:193-206 | What others call leaves the agent's events in the log as they were but for acknowledged flags. |
| AgentTheorems.DeliveryIsInOrderAtMostOnce | washu_agent/service.py:71-108 | With requests and responses lost at will, agent restarts and others writing, the agent's logged events stand in order for some of the file's valid lines, each line at most once. |
| AgentTheorems.DeliveryIsCompleteIff | app/api/monitoring.py:159-163 | The log holds one event for each valid line of the file, paired in order, exactly when every forward with events arrived, held at most 100 and no blank actor or target, no restart skipped a line, and no valid line is unread. |
| AgentTheorems.UnreadIffALineRaises | washu_agent/collectors.py:252-264 | After a forward, with no restart before it, something is unread exactly when some line of the file raises. |
| AgentTheorems.RaisingLineStopsTheAgent | washu_agent/collectors.py:252-264 | Once a raising line is unread, nothing more of the file reaches the console until the agent restarts. |
| AgentOutcomes.ReadLineIsLogged | app/api/monitoring.py:150-180 | A line read as an event with an actor and a target is logged, by the next forward that arrives within the batch limit, as what it says with the verdict of the console's registry. |
| AgentOutcomes.TargetedLineIsCorrelated | app/api/monitoring.py:150-180 | End to end: a line whose "target" holds the name of a registered object is logged as correlated, at severity critical or high. |
| AgentTheorems.ConsoleCountIsNeverBehind | app/core/agent_registry.py:105-151 | The console's count of the agent's events is never below the agent's own, whether or not the console takes its heartbeats. |
| AgentTheorems.MoveChangesGap | app/core/agent_registry.py:128-149 | The exact change of the difference between the two counts by each move; an answered ingest leaves it. |
| AgentTheorems.HeartbeatsSettleTheCounts | app/core/agent_registry.py:128-129 | With an id the console takes, a processed heartbeat makes the counts equal, answered or not, and until the next they stay equal exactly while no response is lost after events were accepted and no restart forgets a count. |
| RateLimit.SlidingWindowRateLimiter.Prune | app/core/rate_limit.py:60-63 | The loop drops exactly the expired times from the front of one bucket. |
| RateLimit.SlidingWindowRateLimiter.Check | app/core/rate_limit.py:27-38 | Prunes, answers, records nothing. |
| RateLimit.SlidingWindowRateLimiter.Hit | app/core/rate_limit.py:40-54 | Prunes and records the attempt exactly when it is allowed. |
| RateLimit.SlidingWindowRateLimiter.Reset | app/core/rate_limit.py:56-58 | Forgets one key. |
| RateLimit.WindowHoldsAtMostMax | app/core/rate_limit.py:40-63 | Over any run with a clock that never goes back, every closed interval of the window's length holds at most the maximum of accepted hits of a key. |
| RateLimit.BucketIsRecentHits | app/core/rate_limit.py:27-63 | After a call the bucket is exactly the accepted hits at or after its time minus the window; other keys' buckets are as before. |
| RateLimit.RetryAfterIsExact | app/core/rate_limit.py:32-34 | A refusal's wait is the least whole number of seconds after which the key is allowed, between 1 and the window plus 1. |
| HoneyNames.EscapeCn | app/core/ad_provisioner.py:522-528 | The eight whole-string replacements are one left-to-right pass. |
| HoneyNames.EscapeIsUndone | app/core/ad_provisioner.py:522-528 | For every string no special character is left bare, and unescaping by section 2.4 of RFC 4514 gives it back. |
| HoneyNames.EscapeIsWellFormedIff | app/core/ad_provisioner.py:522-528 | The escaped value is a well-formed RFC 4514 string for the value exactly when the value has no leading space or number sign, no trailing space and no NUL. |
| HoneyNames.FilterKeeps | app/core/ad_provisioner.py:498 | The name filter keeps exactly the alphanumeric characters, dots, hyphens and underscores. |
| HoneyNames.StampIsStableIff | app/core/ad_provisioner.py:597-613 | Stamped, provisioned and registered names agree for every input exactly when the filter keeps the whole prefix, or it is required and dropped whole. |
| HoneyNames.BuiltDnIsSafe | app/core/ad_provisioner.py:497-512 | Every DN the provisioner builds passes the teardown guard, through filter, prefix, case, escape, suffix and split. |
| HoneyNames.GuardAcceptsEveryBuiltDnIff | app/core/ad_provisioner.py:497-512 | The guard accepts every built DN exactly when no prefix is required or the prefix has no special character but trailing backslashes. |
| DeploymentOutcomes.GuardMeans | app/core/ad_provisioner.py:497-512 | Of an entry with a common name the guard asks that it stand in the honey OU and, where a prefix is required, that the name start with it, both ignoring case. |
| HoneyNames.ProvisionedNameHasNoDollar | app/core/ad_provisioner.py:433-434 | A provisioned name never ends in a dollar sign, so a computer's CN is its name and its account name is the name and one dollar sign. |
| DeploymentHistory.DeploymentHistoryStore.Add | app/core/deployment_history.py:74-79 | A record goes to the front and the oldest beyond the cap are dropped. |
| DeploymentHistory.DeploymentHistoryStore.Get | app/core/deployment_history.py:67-72 | The first record with the id. |
| DeploymentHistory.DeploymentHistoryStore.MarkTornDown | app/core/deployment_history.py:81-95 | The loop marks the first record with the id. |
| DeploymentHistory.AddedIsListedFirst | app/core/deployment_history.py:62-79 | A record just added heads every list, and the list goes on as it was, one shorter. |
| DeploymentHistory.MarkedFinds | app/core/deployment_history.py:81-95 | Marking changes the status of the found record and of no other. |
| DeploymentHistory.AddedFinds | app/core/deployment_history.py:74-79 | A record with a new id is found, and every other is as it was or dropped off the end. |
| Provisioning.LdapServer.ProvisionObjects | app/core/ad_provisioner.py:138-216 | The loop over the plan, with each LDAP request done, refused or raising before or after it is applied: entries, results, record and success. |
| Provisioning.LdapServer.TeardownObjects | app/core/ad_provisioner.py:218-331 | The guarded delete loop: entries, results and success. |
| Provisioning.TearUntouched | app/core/ad_provisioner.py:259-286 | Whatever is on a record, teardown touches no entry the guard rejects. |
| ProvisionedEntries.DryTearChangesNothing | app/core/ad_provisioner.py:259-283 | A dry-run teardown deletes nothing and never raises, whatever the record, the prefix and the server, and reports what it would delete and what it would not. |
| ProvisionedEntries.ProvisionWrites | app/core/ad_provisioner.py:138-216 | Every entry after provisioning is what the writes the server applied made of it, one after the other, and all others are as they were. |
| ProvisionedEntries.WrittenMeans | app/core/ad_provisioner.py:335-391 | A written entry is disabled, of its last writer's kind, and tagged; account and kind are the old ones or the first writer's; workstation lock and service principal names come from the writers that have them, and otherwise stay. |
| ProvisionedEntries.EntryIsAsPlanned | app/core/ad_provisioner.py:335-470 | With distinct DNs in the plan an entry is as it was, or exactly as its object and what was there say. |
| ProvisionedEntries.RecordIsBaitIff | app/core/ad_provisioner.py:371-391 | Whatever the directory held, everything on record stands there disabled and tagged, exactly when the server refuses no refresh the loop comes to. |
| Provisioning.NewEntriesRecordedIff | app/core/ad_provisioner.py:186-210 | Every entry provisioning made is in its result, even when a later object fails or raises, exactly when no applied add lost its answer. |
| Provisioning.RecordFollowsPlan | app/core/ad_provisioner.py:166-188 | The recorded DNs are the plan's, in order, some left out. |
| Provisioning.WillingRecordsPlan | app/core/ad_provisioner.py:187-188 | A willing server, or a dry run, puts the whole plan on record; a dry run changes nothing. |
| Provisioning.TearEffect | app/core/ad_provisioner.py:243-317 | With every possible delete done, teardown removes exactly the recorded DNs and succeeds exactly when they are distinct and present. |
| Deception.RunDeploy | app/core/deception_service.py:39-175 | Stamp, gate, provision, register, sync, record: directory, registry and history after a deploy, and when the graph sync's exception ends it early. |
| Deception.RunTeardown | app/core/deception_service.py:178-214 | Lookup, guard, delete, mark; a live success leaves the record torn down. |
| DeploymentOutcomes.DryRunTeardownChangesNothing | app/core/deception_service.py:178-214 | A dry-run teardown leaves directory, history and registry exactly as they were. |
| DeploymentOutcomes.DirectoryNeedsEveryGate | app/core/deception_service.py:39-105 | The directory changes only in a live deploy that asks for it, passes the policy and the preflight, has a host and connects. |
| DeploymentOutcomes.EveryGatePassed | app/core/deception_service.py:85-105 | And then a willing server gets every object of the plan. |
| DeploymentOutcomes.BlockedDeployIsOnRecord | app/core/deception_service.py:48-80 | A live deploy the policy blocks leaves an empty plan on record and its objects registered. |
| DeploymentOutcomes.RecordSaysWhatHappened | app/core/deception_service.py:129-171 | A record is active exactly when something was provisioned live without an exception or a failure, and synced exactly when the sync ran and worked. |
| DeploymentOutcomes.TeardownMarksIff | app/core/deception_service.py:189-214 | A live teardown ends with the record torn down exactly when it was already, was empty, or every entry went through with success. |
| Deception.OnlySafeEntriesChangeIff | app/core/ad_provisioner.py:505-512 | Over every run of deploys and teardowns with any LDAP outcomes, entries whose DN the guard rejects are unchanged, exactly when no prefix is required or it has no special character but trailing backslashes. |
| DeploymentOutcomes.OutsideOuNothingChanges | app/core/ad_provisioner.py:505-512 | Over every run, whatever the prefix, no entry outside the honey OU is made, changed or deleted. |
| DeploymentTheorems.NewEntriesAreOnRecordIff | app/core/deception_service.py:129-171 | Every entry a live deploy made is on its record exactly when no applied add lost its answer and the graph sync did not raise, or the server applied no add. |
| Provisioning.NewEntriesIffSomeAdd | app/core/ad_provisioner.py:186-210 | Provisioning makes a new entry exactly when the server applies some add. |
| DeploymentTheorems.TeardownRestoresIff | app/core/deception_service.py:178-214 | With a prefix the guard recognises, deploy then teardown restores the directory exactly when nothing on record existed before, no applied add lost its answer and no refresh without an answer changed an entry that is not on record, and the record ends torn down exactly when its DNs are distinct; with any other, exactly when deploy changed nothing, and torn down exactly when it is empty. |
| DeploymentTheorems.UnsoundPrefixBlocksTeardown | app/core/ad_provisioner.py:259-270 | With a prefix the guard does not recognise every delete is blocked, whatever the teardown call and the server. |
| DeploymentTheorems.FreshPlanIsUndoneIff | app/core/deception_service.py:147-171 | With distinct, absent DNs in the plan, teardown restores the directory exactly when no applied add lost its answer, whichever adds were refused and wherever provisioning raised; or, with a prefix the guard does not recognise, exactly when no add was applied. |
| DeploymentTheorems.WillingServerIsUndoneIff | app/core/deception_service.py:209-212 | Against a willing server the conditions are on the plan alone, for prefixes of both kinds. |
| DeploymentTheorems.DryRunTeardownDeletes | app/core/ad_provisioner.py:187-188 | A live teardown of a dry run's record deletes what stands at the planned DNs: the directory survives exactly when nothing does, or when the guard does not recognise the prefix. |
| DeploymentTheorems.TornDownIsFinal | app/core/deception_service.py:189-195 | A torn-down record is never changed by later deploys and teardowns, until it drops off the capped history. |
| DeploymentTheorems.NamedTargetIsDetected | app/core/deception_service.py:112-127 | After a deploy an event whose target holds a planned object's provisioned name is correlated at severity critical or high. |
| DeploymentTheorems.NewAccountIsDetected | app/core/monitoring_engine.py:213-249 | End to end, with a prefix that fits the filter: an event that targets the account name of any entry the deploy made is correlated with a registered object at severity critical or high. |
| DeploymentOutcomes.DeployDetectsIff | app/core/deception_service.py:112-127 | After a deploy an event is correlated exactly when it touches a planned object that has a name, by target, actor or service principal name. |
| DeploymentOutcomes.NamedActorIsDetected | app/core/monitoring_engine.py:229-232 | End to end: an event whose actor is a planned object's provisioned name, whatever its target, and one whose target holds a planned service principal name, is detected. |
| DeploymentOutcomes.DeployedEntriesAreBait | app/core/ad_provisioner.py:335-470 | Every entry a deploy makes is a disabled, tagged account of some planned object's kind and name, locked to its workstations if it is a hardened user's. |
| DeploymentOutcomes.RecordedEntriesAreBait | app/core/ad_provisioner.py:371-391 | Everything a live deploy puts on record, created or refreshed, is disabled and tagged, unless the server refused a refresh. |
| DeploymentTheorems.NewAccountsAreDetectedIff | app/core/ad_provisioner.py:597-613 | No new account is ever missed, over all directories, plans and events, exactly when the prefix fits the filter. |
| DeploymentTheorems.ExistingAccountIsDetectedIff | app/core/ad_provisioner.py:371-391 | Every event that targets an entry which stood there before is detected exactly when some object of the plan, as stamped, matches that entry's account name. |
| DeploymentTheorems.RefreshedAccountCanBeMissed | app/core/ad_provisioner.py:371-391 | A refreshed entry keeps its own account name, and an event that targets it can go undetected: a directory that shows it. |
| Escaping.EscapeOneMore | app/core/deception_engine.py:185 | A later replacement leaves the earlier ones' work alone when the backslash came first. |
| Cypher.QuoteIsOnePass | app/core/deception_engine.py:185-186 | The two replacements are one pass that escapes both characters. |
| Cypher.PrintedValueReadsBack | app/core/deception_engine.py:178-186 | Every nested value of booleans, integers, strings and lists is read back from its printed form by the openCypher 9 literal grammar, whatever delimiter follows. |
| CypherStatements.PutAllThenLookup | app/core/deception_engine.py:154-160 | A property is the last attribute of that key, else the object's own field. |
| CypherStatements.PropertyIs | app/core/deception_engine.py:154-160 | A property is the last attribute of its key, or else the object's own name, role, color or notes. |
| CypherStatements.StatementReadsBackIff | app/core/deception_engine.py:153-165 | For any choice of the grammar's identifier characters, backquoted names included in the reader, the statement reads back as label, merge key and all properties in order exactly when the label and the keys are names that need no backquotes. |
| GraphImport.ExecuteQueries | app/core/graph_store.py:91-114 | Each cleaned non-blank query is run once, in order, past failures; executed plus errors is what was run, and success means no error. |
| GraphImport.CleanedIs | app/core/graph_store.py:100-103 | A cleaned query is the stretch of it between white space, without the semicolons at its end. |
| GraphImport.FailuresAre | app/core/graph_store.py:104-108 | The error list names exactly the statements that raised, whole or by their first 80 characters. |
| GraphImport.ImportCypherFile | app/core/graph_store.py:208-210 | An import runs the cleaned pieces of the file. |
| GraphImport.ImportedHaveNoSemicolon | app/core/graph_store.py:208-210 | No statement an import runs holds a semicolon. |
| GraphImport.ImportRunsTheFileIff | app/core/graph_store.py:208-210 | Importing joined statements runs exactly them, in order, exactly when none holds a semicolon. |
| GraphImport.BodyMentions | app/core/deception_engine.py:153-165 | A statement holds a semicolon exactly when some text of the object does. |
| GraphImport.PlannedQueriesRunEach | app/core/graph_store.py:100-105 | Running the planned queries runs one statement an object, in order, whatever its text. |
| GraphImport.ImportRunsTheObjectsIff | app/core/graph_store.py:208-210 | Importing the planned statements runs what running them directly does exactly when no text of any object holds a semicolon. |
| Paging.TakePage | app/core/directory_enumerator.py:357-361 | The inner loop takes entries up to the cap and raises the flag when the cap is reached. |
| Paging.RunLoop | app/core/directory_enumerator.py:336-370 | The loop gives what the turns it takes give, for any server that lets it end. |
| Paging.EndsIff | app/core/directory_enumerator.py:341-367 | Against any server the loop goes on for ever exactly when from some turn on it gets, below the cap, nothing but empty pages with a cookie and ok. |
| Paging.AnswerIff | app/core/directory_enumerator.py:344-370 | Ended, against a server that sends its list one stretch after the other, empty ones included, the loop gave the first min(n, cap) entries, and the flag exactly when n is at least the cap, exactly when no page reported not ok cut it short. |
| Paging.PagedSearch | app/core/directory_enumerator.py:336-370 | For every page size and every such server that lets it end, the paged answer is the unpaged one exactly when it is not cut short, within one search more than there are entries and empty pages. |
| Paging.HonouringServersPage | app/core/directory_enumerator.py:341-366 | A server whose cookies stand for places in the list sends the list in every conversation, whatever else its answers depend on. |
| Paging.ByPlaceEndsIff | app/core/directory_enumerator.py:341-367 | If its answers depend on the place and the size alone, the loop ends exactly when it never meets an empty page with a cookie and ok below the cap. |
| Paging.FreshCookieGoesOn | app/core/directory_enumerator.py:364-367 | With a fresh cookie the loop reads on past an empty page: a server that shows it. |
| Paging.FullPagesAreTransparent | app/core/directory_enumerator.py:336-370 | A server without errors that sends no empty page with a cookie is read to the end, with the unpaged answer. |
| Paging.SimpleSearch | app/core/directory_enumerator.py:372-397 | From a server that keeps the limit the entries are the paged ones and the flag never rises; from one that ignores it the answer is the paged one exactly when the cap is not hit exactly. |
| Paging.EmptyPagesNeverEnd | app/core/directory_enumerator.py:341-367 | The extreme case: only empty pages with a cookie never end. |
| Paging.DedupeMemberships | app/core/directory_enumerator.py:497-507 | The loop keeps each item whose key no earlier item has. |
| Paging.DedupeMeans | app/core/directory_enumerator.py:497-507 | What is kept are items of the list, no two with the same member in the same group ignoring case, and every item has its like among them. |
| Paging.DedupeKeepsEveryKey | app/core/directory_enumerator.py:497-507 | No key is lost. |
| Paging.DedupeKeepsNoKeyTwice | app/core/directory_enumerator.py:497-507 | No key is kept twice and nothing is made up. |
| Paging.SeenAgainChangesNothing | app/core/directory_enumerator.py:228-251 | Memberships found again from the other side change nothing. |
| Vault.SecretStore.Put | app/core/secret_store.py:27-42 | Sets the given passwords of one id and leaves the others; an empty id does nothing. |
| Vault.SecretStore.Get | app/core/secret_store.py:44-54 | A copy of what is held, blank when nothing is. |
| Vault.SecretStore.Clear | app/core/secret_store.py:56-60 | Forgets one id. |
| Vault.SecretStore.ApplyToProfile | app/core/secret_store.py:62-70 | Fills exactly the blank passwords. |
| Vault.SecretStore.CaptureFromProfile | app/core/secret_store.py:72-79 | Stores exactly the passwords that are not blank. |
| Vault.SessionDict.EnsureSecretId | app/core/connection_profile.py:163-169 | Keeps a usable id, otherwise takes the fresh token. |
| Vault.LoadSessionProfile | app/core/connection_profile.py:172-192 | Stored or default profile, legacy passwords moved to the vault, blanks filled. |
| Vault.TidyFieldsLoadAsSaved | app/core/connection_profile.py:58-77 | Trimmed fields with a port load exactly as they were saved, without passwords. |
| Vault.LoadTidies | app/core/connection_profile.py:58-77 | Loading trims any fields and fills the port, so a second load changes nothing. |
| Vault.LoadSays | app/core/connection_profile.py:172-192 | A load gives the stored fields when they have a host and otherwise the configured ones, gives the session its vault id, leaves no password in it, and touches no other session. |
| Vault.ClearSays | app/core/connection_profile.py:203-207 | Clearing forgets the session's passwords and id and nothing else. |
| Vault.SaveSessionProfile | app/core/connection_profile.py:195-200 | Passwords to the vault, the rest to the session. |
| Vault.ClearSessionSecrets | app/core/connection_profile.py:203-207 | Vault entry and id are dropped. |
| VaultRuns.SessionsAreIsolated | app/core/connection_profile.py:163-207 | Over any run of loads, saves, clears and process restarts on many sessions, what the vault and one session hold is told by that session's own calls. |
| VaultRuns.PasswordsStayOutOfTheSession | app/core/connection_profile.py:133-139 | A session that started clean, or was once loaded or saved, holds no password. |
| VaultRuns.LoadReturnsLastSaved | app/core/connection_profile.py:172-207 | With a stored host a load gives each password as last saved and not blank since the last clear or restart; without one, the configured default where there is one. |
| VaultRuns.FirstLoadKeepsLegacy | app/core/connection_profile.py:180-190 | A password left in the session by an older version is what the first load returns. |

## Left out

- Python's Unicode tables: `lower` is one character at a time, so characters whose lower case is longer, and lower-casing that depends on what follows, are not captured.
- HoneyNames.StampIsStableIff: does not model a prefix that ends in a capital sigma, which Python lowers to a final sigma alone but not in front of more letters, so a stamped name is prefixed a second time.
- AgentTheorems.DeliveryIsCompleteIff: does not model the request's validation, which refuses a whole batch when one event's text is not valid Unicode (a lone surrogate escaped in a line).
- The collector's clock: one reading a poll, where the code reads it for every line without a time of its own.
- JSON text: stores and requests are an identity codec on records; file and disk errors while writing are not modelled.
- The agent registry's file, `_enrich` and `summary`: the registry is modelled in memory, and health is one comparison of ages.
- Events are values in the sequential engine; the sharing of event objects between the log and a snapshot is modelled in `MonitoringSteps`, where thread steps outside the lock are single reads and writes.
- Subscribers, server-sent events, audit logging, HTTP routing and tokens.
- Random name choice in `generate_honey_users` and its siblings: the plan is any list of objects, duplicates included; timestamps and ids are parameters.
- The policy report: the gate is a boolean.
- Neo4j, ldap3 and hypervisor calls: statements handed to the database are listed, LDAP requests have nondeterministic outcomes; preflight and connecting are one outcome.
- Passwords set on new directory users: they touch no attribute modelled here.
- DN matching is by exact text; Active Directory ignores case.
- The record's `notes`, `teardown_at`, `actor` and `modules`: carried through unchanged, they decide nothing.
- Cypher floats, Unicode escapes and comments: the reader refuses them and the printer's values do not need them. Which characters may start or continue a name is a parameter.
- Errors of the file system while the collector polls: they leave its place as a raising line does.
- `sync_directory_snapshot`, `fetch_nodes`, `fetch_topology`: their meaning is in query text run by the database.
- Entry conversion in the enumerator (`_user_from_entry` and its siblings): single-pass field copying.
- Carriage returns as line ends and offsets in bytes: the tailed file is characters with newline as the only line end.
- File truncation in the protocol: `Collectors.FileEventCollector.Poll` handles it, the protocol's file only grows.
- Requests the console processes after the agent has given up on them, dry-run agents, and an agent id that is blank or not stripped (the agent's configuration strips it).
- DemoCollector and the choice of collectors: the protocol's agent tails one file.
- Non-string values in a stored session profile, and two requests that carry different copies of one session.
