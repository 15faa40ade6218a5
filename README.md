# ical-events timer reconciliation, in Dafny

A model of the core of the `ical-events` Node-RED node (`src/ical-events.ts`).
The node fetches calendar events and arms one one-shot cron timer for each
event start and each event end that still lies ahead. When a timer fires, the
node emits the event on its "start" or "end" output.

A refresh cycle, `cronCheckJob`, does five things in order:

1. It turns every fetched event into up to two boundaries, `id + "start"` and
   `id + "end"`, keeping only times after "now".
2. It shifts each boundary's fire time by the configured offset.
3. It stages a timer per uid in `newCronJobs`. A uid that is already live has
   its old timer stopped and a fresh one staged.
4. It starts every staged timer and copies it into the live set
   `startedCronJobs`.
5. It sweeps the live set and sends it on output 3.

Around the cycle the model also covers:

- choosing the refresh schedule, an interval turned into a six-field cron
  string or an explicit cron expression;
- the two fire handlers;
- the `close` handler that stops every live timer.

The files:

- `wrappers.dfy`: `Option` and `Result`.
- `offset.dfy`: the offset arithmetic per `offsetUnits` branch, including
  the 'hours' branch that adds minutes.
- `trigger.dfy`: JavaScript `parseInt` on the timeout text, the interval to
  cron switch and the cron override.
- `boundaries.dfy`: pure functions for the boundaries a fetch yields and the
  payload each timer carries. It also holds the staging fold `StageAll`,
  which says which boundary each uid ends up with.
- `reconcile.dfy`: the imperative part.
  - `Job` is a cron timer armed for one boundary.
  - `Scheduler` holds `newCronJobs` (`newJobs`), `startedCronJobs`
    (`started`) and the set of timers the cron library is running
    (`running`).
  - The methods are the cycle's loops, proved against the functions of
    `boundaries.dfy`.

The key result is `Reconcile.Scheduler.CronCheck`. After a cycle on a fetch:

- exactly the produced uids whose `start()` did not throw are live;
- each live uid holds a fresh running timer armed for the boundary that
  staging kept for it;
- no timer that was live before the cycle still runs.

`Boundaries.UidProduced` characterises the produced uids event by event.
`Boundaries.StagedChoice` says which boundary staging keeps when a uid
repeats.

Behaviours of the code that the model keeps as they are:

- **An empty fetch still runs the cycle.** The guard at
  src/ical-events.ts:99 tests `!data`, and an empty array is truthy in
  JavaScript. So only a missing result (`None`) ends the cycle early. An
  empty sequence runs the cycle, stages nothing and sweeps every live timer.
- **'hours' adds minutes.** The 'hours' branches at src/ical-events.ts:127-128
  and 170-171 call `setMinutes`. An offset of N in hours therefore moves the
  timer by N minutes (`Offset.HoursActAsMinutes`).
- **The end payload sees the shifted start.** The offset edits the event's
  `Date` objects in place (src/ical-events.ts:124-134). The end payload then
  reads `ev.eventStart` for its start and its countdown
  (src/ical-events.ts:160 and 164), so both see the start already shifted
  when the start lay ahead (`Boundaries.EndBoundaryShape`).
- **A live end uid gets a fresh timer.** The end branch stops the live timer
  and stages a newly constructed one (src/ical-events.ts:189-192), as the
  start branch does (src/ical-events.ts:146-148).
- **A uid repeated within one fetch is staged according to what is live.**
  Without repeats, staging does not depend on the live set
  (`Boundaries.StagingIgnoresLive`). A repeated uid that is not live keeps
  its first boundary, because the test at src/ical-events.ts:141 skips the
  later ones. A repeated uid that is live keeps its last boundary, because
  the branch at src/ical-events.ts:145-148 overwrites the staged timer each
  time (`Boundaries.StagedChoice`, `Boundaries.RepeatedUidDependsOnLive`).
- **A positive offset can cancel a pending start.** A refresh between
  `eventStart` and the shifted start no longer produces the start uid,
  because the test at src/ical-events.ts:108 compares the unshifted start
  with now. The sweep at src/ical-events.ts:224-228 then stops the start
  timer that was armed earlier and still waits for the shifted time, so it
  never fires (`Boundaries.PendingStartNotProduced` with
  `Reconcile.Scheduler.CronCheck`).
- **All nodes share one scheduler.** `newCronJobs` and `startedCronJobs` are
  declared once per module (src/ical-events.ts:9-10), outside
  `eventsNode`. Every node instance therefore reads and writes the same two
  maps, and the model has one `Scheduler` for all of them. A cycle run by
  any node stops every timer that was live before it, whichever node armed
  it (`Reconcile.Scheduler.CronCheck`). The sweep drops the uids that this
  node's fetch did not produce, including those of other nodes. Any node's
  `close` stops the timers of all nodes (`Reconcile.Scheduler.Close`).

## Model

| member | source | states |
|---|---|---|
| Offset.Shift | src/ical-events.ts:124-134 | A zero (falsy) offset leaves the fire time unchanged |
| Offset.UnitSeconds | src/ical-events.ts:125-133 | Each `offsetUnits` branch moves time by a positive number of seconds per unit |
| Offset.ShiftAdds | src/ical-events.ts:124-134 | The shift adds `offset` times the length of the branch's unit: 1 s for 'seconds', 60 s for 'hours' and the fall-back, 86400 s for 'days' |
| Offset.ShiftKeepsOrder | src/ical-events.ts:124-134 | The shift preserves differences between times, so a later boundary still fires later |
| Offset.HoursActAsMinutes | src/ical-events.ts:127-128 | An offset in 'hours' moves a time exactly as 'minutes' does, by N minutes, and not by N hours |
| Trigger.TrimStart | src/ical-events.ts:41 | `parseInt` skips exactly a leading run of white space: the result is a suffix of the input, everything cut is white space, and the result does not start with white space |
| Trigger.ParseInt | src/ical-events.ts:41 | `parseInt` on the timeout text is NaN on blank text; it yields a number only when a decimal digit follows the white space and an optional sign, and a negative number only after a `-` |
| Trigger.DigitRun | src/ical-events.ts:41 | The digits `parseInt` reads are the longest digit prefix |
| Trigger.ParseDecimal | src/ical-events.ts:41 | A decimal timeout without a leading zero parses to its own positive value |
| Trigger.IntervalCron | src/ical-events.ts:41-57 | The interval yields a cron string exactly when the timeout is non-empty and parses positive, the unit is set, and the unit is one of the four cases |
| Trigger.SecondsTemplate | src/ical-events.ts:43-45 | The 'seconds' template is the six fields `*/N`, `*`, `*`, `*`, `*`, `*` joined by single spaces: the step is in the seconds field and every other field is `*` |
| Trigger.MinutesTemplate | src/ical-events.ts:46-48 | The 'minutes' template is the six fields `0`, `*/N`, `*`, `*`, `*`, `*` joined by single spaces: the step is in the minutes field and seconds are fixed at 0 |
| Trigger.HoursTemplate | src/ical-events.ts:49-51 | The 'hours' template is the six fields `0`, `0`, `*/N`, `*`, `*`, `*` joined by single spaces: the step is in the hours field and seconds and minutes are fixed at 0 |
| Trigger.DaysTemplate | src/ical-events.ts:52-54 | The 'days' template is the six fields `0`, `0`, `0`, `*/N`, `*`, `*` joined by single spaces: the step is in the day-of-month field and every finer field is fixed at 0 |
| Trigger.IntervalCronIsJoin | src/ical-events.ts:42-57 | Each template is six fields joined by spaces |
| Trigger.IntervalCronFields | src/ical-events.ts:41-57 | Split into fields, each interval cron string has the step in its unit's field, `0` in every finer field and `*` in every coarser one |
| Trigger.ResolveRefresh | src/ical-events.ts:41-65 | A non-empty cron expression overrides the interval and fails when the parser rejects it; otherwise the interval's cron string is used; the preview window is set exactly when the interval is configured |
| Boundaries.Uids | src/ical-events.ts:110 | `possibleUids` gets one entry per boundary, repeats included |
| Boundaries.BoundariesSnoc | src/ical-events.ts:104-106 | Events are handled in fetch order, each appending its own boundaries |
| Boundaries.EventUids | src/ical-events.ts:108-110 | An event contributes `id+"start"` exactly when its start lies ahead, then `id+"end"` exactly when its end lies ahead |
| Boundaries.UidProduced | src/ical-events.ts:108-154 | A uid is in `possibleUids` iff some fetched event has that start uid with its start ahead, or that end uid with its end ahead |
| Boundaries.PendingStartNotProduced | src/ical-events.ts:108-110 | A start already passed whose shifted fire time is still ahead arises only from a positive offset, and a refresh then does not produce the start uid |
| Boundaries.EventBoundaryCount | src/ical-events.ts:108-152 | An event yields one boundary per future edge and no others |
| Boundaries.BoundariesKeyed | src/ical-events.ts:109-114 | Every boundary's uid is the id its payload carries |
| Boundaries.StartBoundaryShape | src/ical-events.ts:111-137 | The start timer fires at the shifted start; its payload holds the shifted start, the unshifted end and a countdown to the unshifted start |
| Boundaries.EndBoundaryShape | src/ical-events.ts:155-179 | The end timer fires at the shifted end; its payload's start and countdown are shifted exactly when the start lay ahead |
| Boundaries.StageAllAppend | src/ical-events.ts:104-198 | Staging a fetch proceeds boundary by boundary from the map the earlier ones left |
| Boundaries.Stage | src/ical-events.ts:141-150 | The definition encodes one staging decision: a uid neither staged nor live is staged with the boundary, a live uid is restaged with it, and a uid staged but not live is left as it is |
| Boundaries.StageDecision | src/ical-events.ts:141-150 | A staging decision touches only the boundary's uid, which is staged afterwards: with this boundary when it is live or was not staged, and with the old staged map unchanged otherwise |
| Boundaries.StagedKeys | src/ical-events.ts:141-148 | Staging from an empty `newCronJobs` stages exactly the produced uids |
| Boundaries.StagedChoice | src/ical-events.ts:141-193 | Each staged uid holds the last of its boundaries when it was live, and the first when it was new |
| Boundaries.StagingIgnoresLive | src/ical-events.ts:139-149 | With no repeated uid, what is staged is the same whatever is live, each uid at its own boundary |
| Boundaries.RepeatedUidDependsOnLive | src/ical-events.ts:141-148 | For example, with one uid produced twice in a fetch, a new uid keeps its first boundary and a live uid keeps its last, so the same fetch stages differently depending on what is live |
| Reconcile.FireMessage | src/ical-events.ts:239-256 | A fired timer sends its payload on exactly one of outputs 1 and 2, chosen by the kind of boundary, and the live set on output 3 |
| Reconcile.Job.constructor | src/ical-events.ts:137 | A new timer is armed for the given boundary |
| Reconcile.Scheduler.constructor | src/ical-events.ts:9-10 | Both maps start empty and nothing runs |
| Reconcile.Scheduler.AtMostOneLive | src/ical-events.ts:217-231 | Between cycles at most one running timer exists per uid |
| Reconcile.Scheduler.StageBoundary | src/ical-events.ts:137-149 | A new uid is staged with a fresh timer, and a live uid's timer is stopped and a fresh one staged. A staged-but-not-live uid keeps its staged timer, and the map is unchanged. No other staged timer changes, and the live set is unchanged |
| Reconcile.Scheduler.StageStart | src/ical-events.ts:108-150 | The start branch pushes the start uid exactly when the start lies ahead and stages that boundary. The running timers become the old ones minus exactly the live timer of that uid. A staged uid keeps its timer unless it is that uid and live. It returns the event with its start shifted |
| Reconcile.Scheduler.StageEnd | src/ical-events.ts:152-195 | The end branch does the same for the end, on the event as the start branch left it. The running timers become the old ones minus exactly the live timer of the end uid. A staged uid keeps its timer unless it is the end uid and live |
| Reconcile.Scheduler.StageEvent | src/ical-events.ts:106-195 | One event stages its boundaries in order. It returns its uids and the event with both future edges shifted. The running timers lose exactly the live timers of those uids. A staged uid keeps its timer unless it is among those uids and live |
| Reconcile.Scheduler.StageNext | src/ical-events.ts:104-106 | One turn of the loop over the fetch extends the staged map and `possibleUids` by that event's boundaries. The running timers become the ones before the loop minus exactly the live timers of the uids produced so far. A staged uid keeps its timer unless the event produces it and it is live |
| Reconcile.Scheduler.StageFetched | src/ical-events.ts:104-198 | After the loop, `possibleUids` is the fetch's uids in order and `newCronJobs` is the staging fold of its boundaries, with fresh timers. The running timers become the old ones minus exactly the live timers of produced uids |
| Reconcile.Scheduler.PromoteNext | src/ical-events.ts:202-210 | One `forEach` turn: the staged timer of the uid is started and stored under its uid unless its start throws; no other uid changes and no running timer stops |
| Reconcile.Scheduler.Promote | src/ical-events.ts:200-214 | Every staged timer whose start does not throw is running and is stored in the live set under its uid; the others are skipped. The running timers become exactly the old ones plus the started staged timers, so no running timer stops. `newCronJobs` ends empty |
| Reconcile.Scheduler.Sweep | src/ical-events.ts:217-231 | A live uid stays iff its timer runs and its uid was produced; a dropped timer that ran has been stopped; nothing else changes |
| Reconcile.Scheduler.PromoteAndSweep | src/ical-events.ts:200-231 | After promotion and sweep, the live uids are exactly the staged uids whose start did not throw, each with its staged timer running |
| Reconcile.Scheduler.CronCheck | src/ical-events.ts:92-235 | A missing fetch changes nothing and sends nothing; otherwise the live set becomes exactly the produced uids that started, each with a fresh running timer armed for the boundary staging kept; every earlier live timer is stopped; the live set is sent on output 3 |
| Reconcile.Scheduler.Fire | src/ical-events.ts:239-256 | A firing timer stops running, the live set is unchanged, and the message is the handler's `FireMessage` |
| Reconcile.Scheduler.Close | src/ical-events.ts:26-37 | Close stops every live timer, keeps the live set, and leaves no timer running |

## Left out

- Node-RED plumbing is not modelled. This covers node creation and registration, the `input` handler that rebuilds the configuration, `node.status`, `node.debug`, `node.error` and `console.log`. All of it is host I/O.
- `getConfig` (src/helper.ts) is not part of this model. The offset, its unit, the timeout and the cron expression are parameters.
- The calendar library `kalender-events` is foreign. `getEvents` becomes the `data` parameter, `None` for a missing result. The payload records the instant `countdown` was computed against (`countdownTo`), not the library's countdown value.
- The cron libraries are foreign. `cron-parser.parseExpression` is the `cronParses` parameter of `Trigger.ResolveRefresh`. `CronJob` scheduling, `nextDate` and the refresh job's own timer (src/ical-events.ts:67-76, with its `close` handler) are not modelled. A job is its boundary plus membership in `Scheduler.running`.
- A throwing `job.start()` is modelled as the parameter `failing`, the uids whose start throws. A `CronJob` constructor that throws (for example on an invalid date) is not modelled.
- A `CronJob` armed for a time already past is not modelled as such. This happens when a negative offset moves a boundary before now. Depending on the release, the cron library's `start()` then either stops the job instead of running it or throws. When it stops the job, the source stores it at src/ical-events.ts:206 and the sweep at src/ical-events.ts:220-222 deletes it in the same cycle. When it throws, the source skips it (src/ical-events.ts:207-209). Either way the uid ends the cycle not live. In the model `start()` always runs the timer unless its uid is in `failing`. Passing such uids in `failing` gives the source's outcome for the live set.
- Real time, timers actually elapsing and interleaving are out. Everything after the `await` of a cycle is synchronous, so a cycle is one atomic `CronCheck`. A timer elapsing is a separate `Fire` step.
- Dates are whole seconds. Calendar arithmetic is not modelled: DST, month lengths, local time, and the difference between `setDate` and adding 86400 seconds.
- `Trigger.ParseInt` models `parseInt` on the timeout text: a sign, decimal and `0x` hexadecimal digits, and the common white-space characters. It does not cover the full Unicode white-space set, and a non-string `config.timeout` is taken as text.
- A timer's running flag is kept as membership in the scheduler's set `running`, not as a field of each timer object. Aliasing between timer objects is therefore not modelled.
- Reconcile.Scheduler.StageFetched: takes the fetch as a sequence of event values. Within one event, the in-place edits of the event's `Date` objects are modelled by passing the edited event from the start branch to the end branch and into the payloads. The edited events are not written back into the fetched array, which no later step reads.
- The status on output 3 (`Message.status`) is the live map as a value at the time of sending. The source sends the shared object itself, which later cycles keep changing.
- The `close` handler's test `if (startedCronJobs)` and the promotion's test `if (newCronJobs)` are always true in the source and are not modelled as branches.
