# Reconnaissance–fire-strike simulation: run control and bookkeeping

This project models the control and bookkeeping code of
`fixed_simulation_with_activity_names.py`. That file is a discrete-event simulation built on
`simpy`. A reconnaissance squad, a command post and an artillery battalion exchange messages
and run activities. A WebSocket front end controls the run and streams its logs. The
`simpy` kernel itself is not part of this model. Simulated time is a field `now` that the
step driver sets to the step target, which is all `env.run(until=t)` means here. The
modelled code is the part around that kernel:

* **Run control** (`run_control.dfy`). Commands move the run state between running, paused,
  stepping and stopped, and step mode advances simulated time by one clamped second per
  `step` command. `Apply` and `CommandMessages` state what a single command does. `Drain`
  states what a whole queue does. The class `Simulation` updates the same fields in place.
* **Message collector** (`messages.dfy`). Messages go into bounded drop-oldest buffers: one
  for all messages, one per message type, and one for log messages. A monotone counter
  numbers the log messages. The collector also supports incremental log retrieval by id and
  level, and pruning by timestamp. `Collector` is the collector's state as a value. The
  class `MessageCollector` holds the same state in fields, and each method is proved equal
  to its function.
* **Timeline statistics** (`timeline.dfy`). For each activity name the logger keeps an
  execution count, a total duration and the list of executions, and it builds a summary
  report from them.
* **Entity status** (`entities.dfy`). `update_status` overwrites a field only with a truthy
  argument. It posts an entity update when an argument differs from the old field.
* **Activity wrapper** (`activities.dfy`). The wrapper derives each activity's names from
  its function name and docstring. It records the start before the body runs and exactly one
  end after it, and it re-raises a failure.
* **Condition watcher** (`conditions.dfy`). Once per simulated second it checks the global
  variables. It fires "enemy detected" and "mission complete" each once, and it orders the
  cease-fire.
* **Client settings** (`client_config.dfy`). This covers:
  * the query string of a connection;
  * the interval, level and maximum-log clamps of `set_log_config`;
  * the history request;
  * one round of the log-push task, with its back-off.

Python string semantics live in `pystr.dfy`: `isspace`, `strip`, `str.replace`,
`str.split` on one character and `join`. `wrappers.dfy` holds `Option`.

Modelling conventions:

* Wall-clock time (`datetime.now()`, `time.time()`) is an `int` parameter called `clock`.
* Simulated time is a `real`.
* Log lines are tagged by what they report (`Note`). The formatted text is not modelled.
* Python's `float()` and `int()` on strings coming from the client are function parameters
  that return `None` where Python raises `ValueError`.

## Model

| member | source | states |
|---|---|---|
| RunControl.ValueInjective | fixed_simulation_with_activity_names.py:204-208 | Two run states have the same wire name exactly when they are the same state, so a state-change message identifies both ends. |
| RunControl.KindOf | fixed_simulation_with_activity_names.py:1821-1849 | A command is unrecognised exactly when its `type` is none of pause, resume, step, run, change_speed and stop. |
| RunControl.ResumeOnlyFromPaused | fixed_simulation_with_activity_names.py:1828-1831 | `resume` moves PAUSED to RUNNING. From any other state it changes nothing and posts nothing. |
| RunControl.UnconditionalCommands | fixed_simulation_with_activity_names.py:1824-1849 | `pause`, `run` and `stop` set PAUSED, RUNNING and STOPPED from every state, STOPPED included, and touch no other field. |
| RunControl.StepArmsContinue | fixed_simulation_with_activity_names.py:1833-1837 | After `step` the state is STEPPING and `step_continue` is set, from any state. The speed ratio is kept. |
| RunControl.ChangeSpeedOnlyRatio | fixed_simulation_with_activity_names.py:1843-1845 | `change_speed` changes only the time ratio: to `speed_ratio` when given, otherwise to 1.0. |
| RunControl.UnknownCommandIgnored | fixed_simulation_with_activity_names.py:1819-1856 | An unrecognised command leaves state, continue flag and ratio unchanged and posts no message. |
| RunControl.StateChangeIffChanged | fixed_simulation_with_activity_names.py:1851-1856 | A command's messages contain a state-change message exactly when the run state differs before and after. That message is the last one, and it carries the old and new state names. |
| RunControl.PauseThenResume | fixed_simulation_with_activity_names.py:1824-1831 | Pause followed by resume always ends RUNNING with the other fields kept. |
| RunControl.Drain | fixed_simulation_with_activity_names.py:1810-1817 | Draining either empties the queue or stops early at a command that raises, having consumed at least it. |
| RunControl.DrainMalformed | fixed_simulation_with_activity_names.py:1810-1817 | A malformed command behind a well-formed batch ends the draining with the batch's state and posts, and every command behind it stays queued. |
| RunControl.DrainOkIff | fixed_simulation_with_activity_names.py:1810-1817 | Draining succeeds exactly when every queued command is a dictionary. |
| RunControl.DrainConcat | fixed_simulation_with_activity_names.py:1810-1817 | Draining well-formed commands and then more commands is the same as draining their concatenation, with the messages concatenated. |
| RunControl.DrainWellFormed | fixed_simulation_with_activity_names.py:1810-1817 | A queue of dictionaries is drained completely without failure. |
| RunControl.DrainEndingInStop | fixed_simulation_with_activity_names.py:1810-1849 | A drained queue whose last command is `stop` leaves the simulation STOPPED, whatever came before it. |
| RunControl.StepTarget | fixed_simulation_with_activity_names.py:1758 | Before the end time, the step target is `min(now + STEP_SIZE, END)`: it is one of the two and at most either, so later than `now` and never past the end. |
| RunControl.Simulation.Dispatch | fixed_simulation_with_activity_names.py:1821-1849 | The control fields become `Apply` of the old ones and the command's log line is returned. Time, step points and queue are unchanged. |
| RunControl.Simulation.ProcessCommand | fixed_simulation_with_activity_names.py:1819-1856 | A dictionary command updates the fields as `Apply` says and posts `CommandMessages`. A malformed command fails with nothing changed. |
| RunControl.Simulation.ProcessCommands | fixed_simulation_with_activity_names.py:1810-1817 | The loop leaves fields, queue and collector as `Drain` of the old ones says. |
| RunControl.Simulation.ExecuteStep | fixed_simulation_with_activity_names.py:1755-1776 | Time moves to the step target and the step points are the ones recorded during this step only. The continue flag is lowered and one STEP_COMPLETED message with these points is posted. |
| RunControl.Simulation.RunStepMode | fixed_simulation_with_activity_names.py:1743-1782 | Time never decreases and never passes the end. The loop finishes at the end time, halts only when STOPPED, and hands over only when RUNNING. |
| RunControl.PointList.constructor | fixed_simulation_with_activity_names.py:1433 | The simulation's points list starts empty. |
| RunControl.PointList.Clear | fixed_simulation_with_activity_names.py:1757 | `clear()` empties the list in place. |
| RunControl.PointList.Append | fixed_simulation_with_activity_names.py:657-664 | `append` adds one point at the end of the list in place. |
| RunControl.SharedStepper.constructor | fixed_simulation_with_activity_names.py:1433 | The as-written step driver starts with one fresh, empty points list and no summaries. |
| RunControl.SharedStepper.Step | fixed_simulation_with_activity_names.py:1755-1774 | As written, one step clears the one list, moves time to the step target, leaves the list holding the points reached, and posts a summary that refers to that list object. |
| RunControl.SharedStepsLosePoints | fixed_simulation_with_activity_names.py:1757-1771 | After two steps as written, both summaries refer to the same list, the older one reads the second step's points, and it no longer reads its own when they differ. |
| RunControl.StepEntriesKeepPoints | fixed_simulation_with_activity_names.py:1766-1774 | With a copied list, two consecutive step reports stay in the STEP_COMPLETED buffer with their own points, oldest first. |
| Messages.LevelRank | fixed_simulation_with_activity_names.py:245-251 | The level table: DEBUG 0, WARNING 2, ERROR 3, CRITICAL 4, and 1 for INFO or any unknown name. |
| Messages.Pushed | fixed_simulation_with_activity_names.py:264-271 | A bounded append keeps the buffer within its bound and puts the new element last. |
| Messages.PushedAt | fixed_simulation_with_activity_names.py:264-271 | After a bounded append, the older entries are the newest entries of the old buffer in their old order. |
| Messages.Initial | fixed_simulation_with_activity_names.py:238-259 | A new collector has empty buffers for every type and a zero counter, and satisfies the invariant. |
| Messages.Add | fixed_simulation_with_activity_names.py:261-271 | Adding a message keeps the invariant: every buffer stays within its bound and holds only its own type, and log ids increase strictly and never exceed the counter. |
| Messages.AddAllConcat | fixed_simulation_with_activity_names.py:261-271 | Posting two batches in turn is posting their concatenation. |
| Messages.AddNumbersLogs | fixed_simulation_with_activity_names.py:264-271 | Only a log message gets an id, the counter plus one. The counter grows by exactly one per log message. The message becomes the newest entry of its buffers, and other type buffers are unchanged. |
| Messages.LogIdsDistinct | fixed_simulation_with_activity_names.py:268-271 | No two entries of the log buffer share an id. |
| Messages.NewerThan | fixed_simulation_with_activity_names.py:291-295 | Exactly the entries with a timestamp later than `since` are kept. |
| Messages.NewerThanConcat | fixed_simulation_with_activity_names.py:291-295 | The filter keeps buffer order and multiplicity: it distributes over concatenation and keeps one entry exactly when it is newer. |
| Messages.IncrementalLogs | fixed_simulation_with_activity_names.py:297-317 | The result is no longer than the buffer and at most `max(max_count, 1)`. |
| Messages.IncrementalMembers | fixed_simulation_with_activity_names.py:305-311 | Every returned entry comes from the buffer, has an id above `last_id` and is at or above the level filter. |
| Messages.IncrementalIsPrefixOfEligible | fixed_simulation_with_activity_names.py:305-315 | The result is exactly the first `max(max_count, 1)` eligible entries, in buffer order. |
| Messages.IncrementalIdsIncrease | fixed_simulation_with_activity_names.py:305-311 | The returned logs keep increasing ids. |
| Messages.MaxIdOfIncreasing | fixed_simulation_with_activity_names.py:312 | Over increasing ids the accumulated `new_last_id` is the larger of `last_id` and the last id. |
| Messages.NewLastId | fixed_simulation_with_activity_names.py:302-317 | The returned id is `last_id` when nothing is returned. Otherwise it is the id of the last entry returned, which is above `last_id`. |
| Messages.IncrementalCount | fixed_simulation_with_activity_names.py:314-315 | With a positive `max_count` the result never exceeds it. With `max_count <= 0` one entry is still returned when any is eligible. |
| Messages.DropOlder | fixed_simulation_with_activity_names.py:323-333 | After pruning, the buffer is empty or its head is not older than the bound. |
| Messages.DropOlderIsSuffix | fixed_simulation_with_activity_names.py:323-333 | Pruning removes a prefix of entries all older than the bound, and the rest is untouched. |
| Messages.DropOlderKeeps | fixed_simulation_with_activity_names.py:319-333 | Pruning keeps type purity, id numbering and increasing ids. |
| Messages.ClearOld | fixed_simulation_with_activity_names.py:319-333 | Clearing old messages keeps the collector invariant. |
| Messages.DropOlderIdempotent | fixed_simulation_with_activity_names.py:319-333 | Pruning twice with the same bound removes nothing more. |
| Messages.PopOlder | fixed_simulation_with_activity_names.py:323-324 | The `popleft` loop leaves the buffer as `DropOlder` says. |
| Messages.PopOlderEach | fixed_simulation_with_activity_names.py:327-329 | Every per-type buffer is pruned in the same way. |
| Messages.ScanIncremental | fixed_simulation_with_activity_names.py:300-317 | The scanning loop with its early `break` returns `IncrementalLogs` and the accumulated maximum id. |
| Messages.ScanEntry | fixed_simulation_with_activity_names.py:306-315 | One pass over a buffer entry keeps the scan's invariant (what is taken plus the answer for the rest is the whole answer) and the maximum id, and reports a full page exactly when the result is already the whole answer. |
| Messages.ScanNewer | fixed_simulation_with_activity_names.py:291-295 | The scanning loop returns `NewerThan`. |
| Messages.MessageCollector.constructor | fixed_simulation_with_activity_names.py:238-259 | The new collector is the initial state. |
| Messages.MessageCollector.AddMessage | fixed_simulation_with_activity_names.py:261-271 | The state becomes `Add` of the old state. |
| Messages.MessageCollector.AddMessages | fixed_simulation_with_activity_names.py:401-425 | Posting several messages is `AddAll` of the old state. |
| Messages.MessageCollector.GetMessages | fixed_simulation_with_activity_names.py:273-281 | `[-count:]` of the chosen buffer: the newest `count` entries for a positive count, everything for 0, and all but the oldest `-count` for a negative count. |
| Messages.MessageCollector.GetMessagesSince | fixed_simulation_with_activity_names.py:283-295 | Returns the chosen buffer's entries newer than the bound. |
| Messages.MessageCollector.GetIncrementalLogs | fixed_simulation_with_activity_names.py:297-317 | Returns `IncrementalLogs` of the log buffer with the level's rank as filter, and the id `NewLastId` describes. |
| Messages.MessageCollector.ClearOldMessages | fixed_simulation_with_activity_names.py:319-333 | The state becomes `ClearOld` of the old state, and the invariant is kept. |
| Timeline.Find | fixed_simulation_with_activity_names.py:80-110 | The position of an activity's statistics entry, or none exactly when no entry has that name. |
| Timeline.AfterRecordKeeps | fixed_simulation_with_activity_names.py:80-117 | One record keeps names distinct and, for each entry, count equal to the number of executions and total equal to the sum of their durations. |
| Timeline.StatsWellFormed | fixed_simulation_with_activity_names.py:64-117 | Every statistics table built from records has distinct names and consistent entries. |
| Timeline.StatsNames | fixed_simulation_with_activity_names.py:80-110 | An activity has a statistics entry exactly when a start record for it was logged. An end alone never creates one. |
| Timeline.BracketedStart | fixed_simulation_with_activity_names.py:64-85 | Appending a start keeps every end preceded by a start of its name. |
| Timeline.BracketedEnd | fixed_simulation_with_activity_names.py:87-117 | Appending an end for a started name keeps the log bracketed. |
| Timeline.TotalCountUpdate | fixed_simulation_with_activity_names.py:110-111 | Replacing one entry changes the total count by the difference of the two counts. |
| Timeline.EndsCounted | fixed_simulation_with_activity_names.py:109-140 | In a bracketed log, the summed counts equal the number of end records. |
| Timeline.DetailFacts | fixed_simulation_with_activity_names.py:144-151 | A detail's average times its count is the total, with average 0 when the count is 0. It lists the first `min(count, 10)` executions. |
| Timeline.SummaryFacts | fixed_simulation_with_activity_names.py:136-151 | The summary counts the activities and the end records, and holds one detail per activity. Its statistics are consistent and names are distinct. |
| Timeline.TimelineLogger.constructor | fixed_simulation_with_activity_names.py:36-49 | A new logger has no records and empty statistics. |
| Timeline.TimelineLogger.LogActivityStart | fixed_simulation_with_activity_names.py:64-85 | The start record is appended and the statistics stay those of the records. |
| Timeline.TimelineLogger.LogActivityEnd | fixed_simulation_with_activity_names.py:87-117 | The end record with `duration = sim_time - start_sim_time` is appended and the statistics stay those of the records. |
| Entities.UpdatedFields | fixed_simulation_with_activity_names.py:695-698 | `action` and `activity` change exactly when their argument is truthy and different, and then to that argument. The name fields never change. |
| Entities.ChangeIsReported | fixed_simulation_with_activity_names.py:701-713 | Any change to the fields posts exactly one ENTITY_UPDATE carrying the new fields. |
| Entities.ReportWithoutChange | fixed_simulation_with_activity_names.py:701 | With an action set, `update_status(activity=a)` for the current activity changes nothing yet posts a message, because the test compares arguments. |
| Entities.UpdateIdempotent | fixed_simulation_with_activity_names.py:690-698 | Repeating an update changes no field any more. |
| Entities.BaseEntity.constructor | fixed_simulation_with_activity_names.py:680-687 | A new entity has no action, activity or names. |
| Entities.BaseEntity.UpdateStatus | fixed_simulation_with_activity_names.py:690-713 | The fields become `Updated` of the old fields, and exactly `StatusMessages` are posted. |
| Entities.BaseEntity.SetActivityNames | fixed_simulation_with_activity_names.py:523-524 | Only the two name fields change, to the given names. |
| Activities.ActivityNameOfPrefixed | fixed_simulation_with_activity_names.py:483 | `activity_` + rest gives rest when rest holds no further `activity_`. |
| Activities.ActivityNameUnchanged | fixed_simulation_with_activity_names.py:483 | The name is unchanged exactly when the function name contains no `activity_`. |
| Activities.ChineseNameOfDocstring | fixed_simulation_with_activity_names.py:486-491 | A docstring that is blanks, the marker and a stripped name, then nothing or a line break and anything, yields that name; the one-line docstrings of the activities are the case with nothing after the name. |
| Activities.UnmarkedDocstring | fixed_simulation_with_activity_names.py:486-491 | A missing or empty docstring, or one in which the marker never occurs, gives the unknown-activity name. |
| Activities.StartRegistersName | fixed_simulation_with_activity_names.py:64-85 | The start record gives the activity a statistics entry and keeps the existing entries in place. |
| Activities.EndCountsOneExecution | fixed_simulation_with_activity_names.py:87-117 | After a start, the end record adds exactly one execution with the wrapper's duration to that activity's entry and changes no other entry. |
| Activities.StartPersists | fixed_simulation_with_activity_names.py:497-526 | A logged start stays logged whatever is appended later. |
| Activities.BeginActivity | fixed_simulation_with_activity_names.py:480-524 | The frame holds the derived names and the start time. One start record is appended and the log stays bracketed. The start messages are posted, followed by the status update of an entity that has one. |
| Activities.FinishActivity | fixed_simulation_with_activity_names.py:526-588 | On both exits exactly one end record with the same name and start time is appended, with result `Error: …` on failure. The matching messages are posted and the error is re-raised exactly when the body raised. |
| Conditions.TickEvents | fixed_simulation_with_activity_names.py:1396-1417 | A tick only adds keys. Each key is added exactly when its condition holds and it was not yet fired. Cease-fire is ordered exactly when the mission fires on this tick with a command post present. |
| Conditions.TickPosts | fixed_simulation_with_activity_names.py:1402-1412 | A tick posts one event message per newly fired key and none otherwise. |
| Conditions.RunEventsGrow | fixed_simulation_with_activity_names.py:1398-1417 | Over any run of ticks the fired set only grows, within the two event keys. |
| Conditions.RunLogsOnce | fixed_simulation_with_activity_names.py:1398-1412 | Over any run each event is posted at most once: the posts plus the initial firing equal the final firing. |
| Conditions.RunCeaseFireOnce | fixed_simulation_with_activity_names.py:1409-1417 | Over any run cease-fire is ordered at most once. It is ordered only on a round where damage is at least 0.8 and a command post exists. |
| Conditions.EventScheduler.constructor | fixed_simulation_with_activity_names.py:1387-1390 | A new scheduler has fired nothing. |
| Conditions.EventScheduler.MonitorTick | fixed_simulation_with_activity_names.py:1400-1417 | One pass of the loop body updates the fired set, posts and orders cease-fire as `Tick` says. |
| Conditions.EventScheduler.MonitorConditions | fixed_simulation_with_activity_names.py:1396-1417 | The loop over rounds ends in the state `Run` describes. |
| ClientConfig.ClampIntervalFacts | fixed_simulation_with_activity_names.py:1522 | The clamped interval lies in [0.1, 60]. It is the identity inside that range, monotone and idempotent. |
| ClientConfig.ClampMaxLogsFacts | fixed_simulation_with_activity_names.py:1612 | The clamped maximum lies in [10, 100], is the identity inside that range, and is monotone. |
| ClientConfig.ParseQueryParams | fixed_simulation_with_activity_names.py:1512-1518 | The parameter loop builds `ParseQuery` of the path: the text after the first `?` up to the next, split on `&` and on the first `=`, with later keys winning. |
| ClientConfig.ParamsOfEncoded | fixed_simulation_with_activity_names.py:1515-1518 | Parsing `key=value` pieces yields the map of those pairs, with the later one winning on a repeated key. |
| ClientConfig.ParseQueryRoundTrip | fixed_simulation_with_activity_names.py:1512-1518 | A path built from a base and encodable pairs parses back to the map of those pairs. |
| ClientConfig.ConnectInRange | fixed_simulation_with_activity_names.py:1510-1535 | Whatever the path, a connecting client starts with an interval in [0.1, 60] and a whitelisted level. |
| ClientConfig.ApplyConfigFacts | fixed_simulation_with_activity_names.py:1592-1612 | The settings stay in range and the log id is kept. The request raises exactly when the interval or `max_logs` does not parse. A parsed interval is clamped, and a whitelisted level is applied unless the interval raised first. |
| ClientConfig.ApplyConfigIdempotent | fixed_simulation_with_activity_names.py:1597-1612 | Applying the same configuration twice gives the same settings and outcome. |
| ClientConfig.HistoryBounded | fixed_simulation_with_activity_names.py:1630-1639 | A history request returns at most 200 logs, and at most 50 when no count is given. |
| ClientConfig.PollFacts | fixed_simulation_with_activity_names.py:434-466 | After one push round, settings stay in range and the pushed logs are increasing. Each pushed log lies between the old and the new `last_log_id`, which becomes the last pushed id. The interval only grows, and grows only after five empty rounds, up to 5 s. |
| ClientConfig.PollsInOrder | fixed_simulation_with_activity_names.py:437-458 | Every log pushed in one round has a smaller id than every log pushed in the next. |
| ClientConfig.PollRunInterval | fixed_simulation_with_activity_names.py:433-466 | Over any run of rounds the settings stay in range. The interval is unchanged or at most 5 s, and never shrinks. |
| ClientConfig.ClientInfo.constructor | fixed_simulation_with_activity_names.py:340-353 | A client's settings are those the connection path gives, with `last_log_id` 0 and `max_logs_per_push` 30, all in range. |
| ClientConfig.ClientInfo.SetLogConfig | fixed_simulation_with_activity_names.py:1592-1626 | The settings become those of `ApplyConfig`, and the request completes exactly when nothing raised. |
| ClientConfig.ClientInfo.GetLogHistory | fixed_simulation_with_activity_names.py:1628-1653 | Returns the incremental logs from id 0 at the requested level, with the count capped at 200. The client's `last_log_id` is set to the returned id only when logs were returned. |
| ClientConfig.ClientInfo.PushRound | fixed_simulation_with_activity_names.py:433-466 | One push round updates the settings and the empty-round count as `Poll` says and returns its logs. |
| PyStr.StripLeft | fixed_simulation_with_activity_names.py:489 | Removes exactly the leading whitespace. |
| PyStr.StripRight | fixed_simulation_with_activity_names.py:489-491 | Removes exactly the trailing whitespace. |
| PyStr.StripIsMaximalTrim | fixed_simulation_with_activity_names.py:489-491 | `strip()` returns the infix between the maximal whitespace prefix and the maximal whitespace suffix. |
| PyStr.DeleteIsIdentityIff | fixed_simulation_with_activity_names.py:483-491 | Deleting a pattern changes a string exactly when the pattern occurs in it. |
| PyStr.Split | fixed_simulation_with_activity_names.py:1514-1515 | Splitting yields at least one piece, and no piece holds the separator. |
| PyStr.JoinSplit | fixed_simulation_with_activity_names.py:1514-1515 | Joining the pieces of a split restores the string. |
| PyStr.SplitJoin | fixed_simulation_with_activity_names.py:1514-1515 | Splitting a join of separator-free pieces restores the pieces. |
| PyStr.SplitOnce | fixed_simulation_with_activity_names.py:1517 | `split('=', 1)` splits at the first separator. |
| PyStr.SplitOnceOf | fixed_simulation_with_activity_names.py:1517 | Splitting `a=b` once, with `a` free of `=`, gives back `a` and `b`. |

## Left out

- The `simpy` kernel is not part of this model. That covers event ordering, `Container`, `Store`, `Interrupt`, and what the entity processes do during a step. `env.run(until=t)` is modelled as setting `now` to `t`. The step points recorded meanwhile are a parameter of the step.
- `run_continuous`, the wall-clock pacing and the polling sleeps are left out because they are timing, not logic. The hand-over to continuous running is modelled only as the step driver returning.
- The WebSocket server, its threads and locks, the welcome, ack and reply frames, JSON encoding, and the asyncio sleeping and sending of the push task are left out as I/O and concurrency. Only the settings changes and the returned log lists are modelled. Cancelling and restarting the push task in `set_log_config` is also left out.
- Interleaving between the simulation thread and the WebSocket thread is not modelled. Each operation is atomic, which the collector's lock provides.
- File output of the timeline logger and of the summary report is left out as file I/O. `Timeline.TimelineLogger.Report` builds the report in memory and carries no contract of its own; `Timeline.SummaryFacts` states what it holds.
- Python logging output is left out, and formatted log texts are represented by tags.
- `position` in the entity update message is left out because no modelled code sets it.
- `float()` and `int()` parsing of client strings are parameters. That leaves out NaN, infinities, and which strings they accept.
- Client values of the wrong JSON type are left out: a non-numeric `count`, a non-string `level`, or a non-numeric `speed_ratio`. These are stored or compared as given in the source, and the model types them as numbers and strings.
- A `set_log_config` or history request from an unregistered client is not modelled. The source then does nothing with the settings.
- The domain entities, actions, activity bodies, `ExpressionEvaluator`, `TimeDistribution` and randomness are left out. An activity body is a parameter that either returns a result or raises.
- The calls `str(result) if result else None` are left out: a result is modelled as an optional string.
- RunControl.Simulation.ExecuteStep: posts a snapshot of the step points, the corrected behaviour of the finding below, not the shared list the source stores. The as-written sharing is modelled separately by `RunControl.SharedStepper` and `RunControl.SharedStepsLosePoints`; `run_continuous` stores the same list the same way and is left out.
- RunControl.Simulation.RunStepMode: its contract states the bounds on time and the meaning of each outcome, not the exact sequence of collector posts. The posts of each pass are stated by `ProcessCommands` and `ExecuteStep`.

## Findings

| source | as written | input that shows it | evidently intended | confidence | as-written member | corrected member |
|---|---|---|---|---|---|---|
| fixed_simulation_with_activity_names.py:1757-1771 | The STEP_COMPLETED message stores the simulation's own `step_points` list, and the next step clears and refills that same list. | Two steps whose recorded points differ: after the second, the first step's stored message shows the second step's points. | Each step report keeps the points of its own step, for example by storing a copy of the list. | not executed | RunControl.SharedStepsLosePoints | RunControl.StepEntriesKeepPoints |
