# openedge: verified models of the alarm engine, edge mirroring and forecasting

This project models, in Dafny, the parts of the platform whose correctness cannot be read off
one function body, and proves what they promise.

**Alarm engine** (`alarm_*.dfy`, from `internal/alarms`). `AlarmRules` says what one event does to
one rule's track; `AlarmEngine` is the manager's state as a value and every locked section as a
function of it; `AlarmManager.Manager` is the same manager as an object with fields that loops
update in place, each method proved to compute its section. On top of that:

- `AlarmDrain`: any number of goroutines, one step at a time, with the lock released during I/O and
  a store that may fail at every call. One drainer, first in first out, nothing stranded.
- `AlarmWrites`: what one occurrence leaves in the store, in every run.
- `AlarmReplay`, `AlarmExact`: a batch of past readings against the same readings fed live, and the
  exact condition on the readings for the two to close the same occurrences.
- `AlarmSpans`: excursions read off the readings alone, without following the rule.
- `AlarmNotify`, `AlarmEarly`, `AlarmEnds`, `AlarmFront`, `AlarmTold`: what the operator is told, in every
  run, with the exact condition on every batch under which the code tells the truth, and concrete
  families of batches where it does not.
- `AlarmFiring`: when a rule fires and what lies between two firings, in every run.
- `AlarmRetries`: when an alarm that could not be written is offered to the store again, in wall time.
- `AlarmHealth`: silence and stillness.
- `AlarmNumbers`, `AlarmBatches`: what a sample, a tick, a reload and a batch do to one rule, in limits,
  values and nanoseconds, without the tests and constants the sections share.
- `AlarmExecution`: what carrying out one action does to the store and tells the operator, in every run.
- `AlarmEventRows`, `AlarmRowLives`: one open row per tag and definition across processes, what each
  statement changes, and what becomes of a row.

**Edge** (`edge_*.dfy`, from `internal/edgesync`). `EdgeAssignment`: who polls what, and the share of
the configuration a box is given. `EdgeApply`: mirroring a configuration into a database with
foreign keys and cascades, level by level, against the one-line description "the payload in place
of the organization's rows". `EdgeRows`: what is refused and which rows are left, for every database
and every payload. `EdgeFleet`: the two together, for all the boxes of an organization.

**Forecast** (`forecast_*.dfy`, from `internal/forecast`). `float64` is `real`, NaN is `None`, times are
integers. Bands and their shaping, counter resets counted in three places, the two shift calendars,
period totals, alarm risks, scores, and the batched run over engines. `ForecastKinds` says on the series
itself what the forecast of each kind of signal is, `ForecastLimits` which risk a rule has, and
`ForecastQuestions` what the run asks the engines and what a score measures.

**Organization ids** (`org_*.dfy`, from `internal/handlers/cloud_write.go`). The list of organizations
that accept writes from the cloud, down to blanks, signs and 64-bit overflow. `OrgText` says the same of
the characters of the text.

`dafny verify dfyconfig.toml` checks everything.

## Where the code does not do what it promises

Each of these is a lemma over a whole family of inputs, next to the exact condition, on what is known
before the call, under which the promise holds.

- A batch reading that passes a rule's clearing test and is no later than an alarm of the rule fired
  before the batch drops the alarm: its track goes and no CLEARED is queued, so its row stays open until
  a later alarm of the rule adopts it (`AlarmTold.EarlyReadingOrphansTheRow`,
  `internal/alarms/manager.go:643-664`). The alarm is accounted for if and only if there is no such
  reading: `AlarmEarly.AccountedIff`.
- If the ACTIVE of the dropped alarm was still queued, taking it out shifts the place from which the
  batch looks for news, and a new alarm is never announced (`AlarmTold.EarlyReadingSilencesNews`,
  `internal/alarms/manager.go:581`, `597`). The queue stays in place if and only if no such reading meets
  an alarm still queued: `AlarmEarly.FrontStaysIff`. When it does not, an alarm the batch leaves open is
  announced if and only if its ACTIVE stands behind as many actions as were queued before:
  `AlarmFront.BatchTells`.
- An alarm active before a batch that ends, comes back and ends again in it is announced CLEARED twice
  (`AlarmTold.KnownRuleEndsTwice`). For every batch, whichever of these it meets, the exact condition
  for the operator to stay truthfully told is `AlarmFront.BatchTellsTruthIff`, and over every run
  `AlarmTold.NotificationsAlternate`.
- An alarm that could not be written is to be offered again thirty seconds after the attempt before
  (`internal/alarms/manager.go:24-27`). A live reading fires by its own time, which the callers take from
  the message (`services/driver-mqtt/main.go:1055`, `1592`), and the retry is scheduled from that time
  (`internal/alarms/manager.go:407-410`, `459-462`): with a reading an hour old the tick a second later
  offers the alarm again (`AlarmRetries.HourOldReadingIsRetriedAtOnce`). A retry is thirty seconds away if
  and only if the attempt is not a live reading taken before it arrived: `AlarmRetries.RetryIsSpacedIff`.
- The comm_loss sweep takes no lock: run between another process's insert and its commit it stacks a
  second open row (`AlarmEventRows.SweepDuringInsertStacksARow`; exactly then: `SweepIsSafeIff`).
- A drift so slow that its time does not fit a 64-bit duration is reported, if at all, at a time that
  is not on its line (`ForecastRisk.OverflowingDriftIsWrong`, `internal/forecast/risk.go:150-153`; exactly
  then: `DriftIsRightIff`).
- Raising a high limit can make its alarm likelier or earlier: when the median ends exactly at the lower
  limit, when only the higher one's time overflows into a number below a year, or when that number
  is less than the lower one's time (`ForecastRisk.RaisedLimitDrifts`, `internal/forecast/risk.go:147-154`;
  exactly then: `RaisingALimit`).
- A shift past midnight that starts later than its day lasts (where clocks change) is given bounds that
  do not contain the moment (`ForecastCalendar.WindowsContainIff`, `internal/forecast/periods.go:86-88`).

One branch is wrong but out of reach. A health verdict that no longer holds, on a track still in its
delay, queues a CLEARED that was never announced (`AlarmTold.RetypedRuleClearsUnannounced`,
`internal/alarms/health.go:208-219`). It takes a value rule turned into a health rule under the same id;
saving gives a tag's definitions new ids (`internal/handlers/alarms.go:327-350`) and mirroring copies an
id with its type (`internal/edgesync/apply.go:168-177`), so only an update in place or an id reused after
a restore would do it. That an id keeps its type is therefore part of what a reload is (`KeepsTypes`), and
the theorems on runs need nothing else.

## Model

| member | source | states |
|---|---|---|
| `AlarmRules.WholeSecondsReach` | internal/alarms/manager.go:311-326 | for a delay of a second or more, comparing truncated seconds is comparing durations; a zero delay accepts the last second before |
| `AlarmRules.ViolatedExcludesBackInSpec` | internal/alarms/manager.go:972-1000 | with a deadband that is not negative no value both violates a rule and clears it |
| `AlarmNumbers.TestsInNumbers` | internal/alarms/manager.go:972-1000 | which side of the limit each kind of rule violates, and how far beyond it on the other side it clears, for every value, NaN and missing limit |
| `AlarmNumbers.SampleOnRule` | internal/alarms/manager.go:397-526 | a whole good sample, seen from one value rule: its track afterwards and its share of the queue, field by field, in limits and nanoseconds |
| `AlarmNumbers.LimitsIff` | internal/alarms/manager.go:972-997 | an untracked high rule comes under track exactly above its limit and a low one exactly below; a fired one ends exactly at or beyond the limit less, or plus, the deadband |
| `AlarmNumbers.NoLimitNoAlarm` | internal/alarms/manager.go:974-997 | a rule without a limit never comes under track, and a fired one never ends |
| `AlarmNumbers.SwitchesIff` | internal/alarms/manager.go:982-999 | after any sample bool_true is tracked exactly when it was not zero, and bool_false exactly when it was |
| `AlarmNumbers.UnjudgedSample` | internal/alarms/manager.go:402-425 | a sample of bad quality, of no number or on a tag without rules changes nothing |
| `AlarmNumbers.SampleLeavesOthers` | internal/alarms/manager.go:433-442 | the tracks and the queue of other tags and of health rules are left alone |
| `AlarmNumbers.TickOnValueRule` | internal/alarms/manager.go:306-372 | a whole tick in any order, seen from one value rule: it fires when its delay of whole seconds is over, stamped with the delay's end, and is offered again thirty seconds after the last time while it has no row |
| `AlarmNumbers.TickOnHealthRule` | internal/alarms/health.go:122-221 | and seen from one health rule: silence and stillness against its delay, or 60 seconds without one, in nanoseconds; raised and cleared at once |
| `AlarmNumbers.ClockStarts` | internal/alarms/health.go:129-139 | a tag without memory is silent from the first tick that finds a health rule on it |
| `AlarmNumbers.ReloadOnRule` | internal/alarms/manager.go:206-281 | a rule that is gone loses its track and is cleared if it had fired; a rule that stays keeps track and queue |
| `AlarmNumbers.ReloadPrunes` | internal/alarms/health.go:227-247 | a tag's memory outlives a reload exactly while it has a health rule, an anchor exactly while its frozen rule stays |
| `AlarmBatches.BatchRaisesIff` | internal/alarms/manager.go:548-673 | any batch on an untracked rule, in limits and seconds: fired afterwards exactly when readings in a row were beyond the limit for the delay and none after them is back by the deadband; tracked without being fired exactly when the last reading is beyond and it is not |
| `AlarmBatches.BatchEndsIff` | internal/alarms/manager.go:643-671 | any batch on a fired rule: its alarm stays exactly when no reading is back by the deadband; its CLEARED is queued exactly when one is, and none that is, is as early as the alarm |
| `AlarmBatches.ReadingOnRule` | internal/alarms/manager.go:614-673 | a batch of one reading, seen from one rule: track and queue field by field |
| `AlarmBatches.SortKeepsArrival` | internal/alarms/manager.go:552-553 | sorting a batch keeps the readings of one time in the order they came |
| `AlarmBatches.UnjudgedBatch` | internal/alarms/manager.go:549-572 | a batch of bad quality, without readings or on a tag without rules changes nothing |
| `AlarmManager.Manager.LiveRule` | internal/alarms/manager.go:433-518 | one sample through one value rule: the manager's fields become the rule step of the state |
| `AlarmManager.Manager.EvaluateAt` | internal/alarms/manager.go:397-526 | a whole sample, with quality, time and life-sign cases, does to the fields what the live section does to the state |
| `AlarmManager.Manager.TickDelays` | internal/alarms/manager.go:306-372 | the tick, in whatever order the maps are taken, is the tick section of the state |
| `AlarmManager.Manager.TickHealth` | internal/alarms/health.go:122-163 | every health rule is judged once, and tags without memory get a clock |
| `AlarmManager.Manager.ApplyHealth` | internal/alarms/health.go:173-221 | a verdict raises or clears at once |
| `AlarmManager.Manager.RecordGoodSample` | internal/alarms/health.go:89-118 | the sign of life and the anchors move exactly as specified |
| `AlarmManager.Manager.SeriesStep` | internal/alarms/manager.go:614-673 | one reading of a batch through one rule, including the zero-duration pull |
| `AlarmManager.Manager.PullBack` | internal/alarms/manager.go:652-662 | exactly the queued actions of the occurrence are removed, in place and in order |
| `AlarmManager.Manager.EvaluateTagSeries` | internal/alarms/manager.go:548-608 | a batch in any order, sorted, replayed and its news marked, is the batch section of the state |
| `AlarmManager.Manager.LoadDefinitions` | internal/alarms/manager.go:206-281 | a reload drops the tracks of rules that are gone, clears the fired ones and prunes the health memory |
| `AlarmDrain.DrainProtocol` | internal/alarms/manager.go:675-722 | in every interleaving: at most one goroutine executes; executed, in flight and pending are the queue history in order; with nobody draining or about to, the queue is empty |
| `AlarmDrain.OnlySectionsChangeTheQueue` | internal/alarms/manager.go:702-722 | draining neither loses, duplicates nor reorders an action |
| `AlarmWrites.EveryRunKeepsInv` | internal/alarms/manager.go:727-813 | protocol, order of occurrences and the books of the store hold after every run with any store failures |
| `AlarmWrites.OccurrenceInEveryRun` | internal/alarms/manager.go:35-43 | an occurrence's actions end with its one CLEARED and begin with an ACTIVE unless restored; its writes are none, a row opened, that same row closed, or one row recorded closed |
| `AlarmWrites.RowIdIsSetOnce` | internal/alarms/manager.go:755-813 | a row id once set never changes |
| `AlarmWrites.UnpersistedMeansFailed` | internal/alarms/manager.go:784-813 | a CLEARED that finds no row id follows an insert that failed |
| `AlarmExecution.ActionIsCarriedOut` | internal/alarms/manager.go:727-813 | in every run from the moment an action is taken, whatever the other goroutines do: at each point what the store was asked, what it answered, what is on the books of the occurrence and what the operator was told |
| `AlarmExecution.ActionIsDone` | internal/alarms/manager.go:727-813 | once done: no call if there is no store or the ACTIVE has its row; else one call, and after success exactly the write the action calls for (row opened, row closed, or recorded closed without one) with the row id kept, after failure none; the operator is told exactly when the action says so, also after a failure |
| `AlarmReplay.ReplayIsLiveThenTick` | internal/alarms/manager.go:614-673 | for one reading the replayed rule ends where the live rule and its tick end, and closes the same occurrence if it lasted |
| `AlarmReplay.BatchReplaysLive` | internal/alarms/manager.go:548-608 | a batch in any order leaves a value rule where feeding its readings live, each with a tick at its own time, leaves it; it closes exactly those live occurrences that lasted |
| `AlarmReplay.StrictBatchReplaysLiveExactly` | internal/alarms/manager.go:548-608 | with strictly increasing times the replay closes exactly what the live feed closes |
| `AlarmSpans.ClosingsIff` | internal/alarms/manager.go:614-673 | said of the readings: from nothing, a batch ends an alarm exactly when some violating streak lasts the delay and the first clearing reading after it is later than the alarm; it drops one exactly when the reading that raises it, the delay after its streak began, and the first that clears it have one time |
| `AlarmSpans.EndsTwiceIff` | internal/alarms/manager.go:614-673 | an alarm found open ends twice or more exactly when after the first clearing reading another is raised and ended |
| `AlarmExact.ReplayIsExactIff` | internal/alarms/manager.go:643-664 | replay and feed close the same occurrences if and only if, on the readings, no alarm lasts no time: none raised and cleared by readings of one time, and none found open, or come of an excursion found under way, cleared by a reading no later than it |
| `AlarmOccurrences.SectionKeepsOrderly` | internal/alarms/manager.go:339-360 | every section keeps the order of occurrences: an ACTIVE before its CLEARED, nothing after a CLEARED |
| `AlarmNotify.LiveEventTellsTruthIff` | internal/alarms/health.go:173-221 | a live event keeps the operator truthfully told if and only if it is not a verdict clearing a rule still in its delay |
| `AlarmNotify.LiveEventsTellTruth` | internal/alarms/manager.go:344-360 | any list of live events of current definitions keeps the truth about every rule; retries say nothing |
| `AlarmEarly.AccountedIff` | internal/alarms/manager.go:640-664 | an alarm fired before a batch is tracked after it or has its CLEARED queued, if and only if no usable reading both passes its clearing test and is no later than the alarm |
| `AlarmEarly.FrontStaysIff` | internal/alarms/manager.go:581-605 | the queue a batch found stays in front of what it adds if and only if no such reading meets an alarm whose ACTIVE is still queued |
| `AlarmFront.ThinStandsInFront` | internal/alarms/manager.go:581-605 | after any batch the actions found queued, but for those of alarms an early reading ended, stand in front of those it added |
| `AlarmFront.BatchTells` | internal/alarms/manager.go:574-605 | for any batch the events it adds for a rule are exactly: one CLEARED per end if it was active before, then one ACTIVE if it is newly open, unless that ACTIVE stands among as many actions as the batch found queued |
| `AlarmFront.BatchTellsOnlyNews` | internal/alarms/manager.go:574-605 | a rule not fired before any batch: one ACTIVE if it is open at the end and its ACTIVE does not stand so far in front, nothing otherwise |
| `AlarmFront.BatchTellsTruthIff` | internal/alarms/manager.go:575-664 | for any batch the operator stays truthfully told if and only if, the rule's alarm not ended early, it does not end twice and one left open is not silenced so; or, ended early, what is told of the alarms after it passes for the truth, said of the actions left queued, how many ends come after the first clearing reading, and silence |
| `AlarmTold.NotificationsAlternate` | internal/alarms/manager.go:246-275 | over every run, interleaving and store failure, the operator is told what is true after every move if and only if every batch judged on the rule's tag is truthful in that sense; and then the rule's notified events alternate |
| `AlarmTold.EarlyReadingOrphansTheRow` | internal/alarms/manager.go:643-664 | an early reading drops the track of a written alarm, queues nothing to close its row and leaves the operator untold |
| `AlarmTold.EarlyReadingSilencesNews` | internal/alarms/manager.go:581-597 | pulling an action from before the batch shifts the news mark: an open alarm is never announced |
| `AlarmTold.KnownRuleEndsTwice` | internal/alarms/manager.go:575-671 | a batch of three readings, low, high and low, on an alarm already active notifies two CLEARED in a row |
| `AlarmFiring.StreakIsMaximal` | internal/alarms/manager.go:433-518 | a streak is the last readings, all violating, and the one before them did not |
| `AlarmFiring.FiresExactlyWhenDue` | internal/alarms/manager.go:311-337 | a rule that begins untracked or restored as fired fires exactly when its readings have violated it in a row for the delay, stamped with the first of them plus the delay |
| `AlarmFiring.OnlyClearingEnds` | internal/alarms/manager.go:480-518 | from fired to not fired leads only a reading that passes the clearing test |
| `AlarmFiring.ClearsBetweenFirings` | internal/alarms/manager.go:986-1000 | between two firings of a rule some reading passed the clearing test |
| `AlarmFiring.RunsAreHistories` | internal/alarms/manager.go:397-526 | in every run of the system a rule's track is the one its own history of events gives |
| `AlarmFiring.RunHistoryOf` | internal/alarms/manager.go:206-281 | in a run whose reloads keep a value rule, that history is the rule's readings and ticks and nothing else |
| `AlarmFiring.FiringInEveryRun` | internal/alarms/manager.go:306-372 | in every such run and interleaving: the rule fires exactly when its readings have violated it in a row for the delay, stamped with the first plus the delay, and between two firings some reading passed the clearing test |
| `AlarmFiring.ActiveMeansDue` | internal/alarms/manager.go:311-337 | an alarm found active after such a run was fired by an event at which its readings were due, and has been active since |
| `AlarmRetries.RetryIsSpacedIff` | internal/alarms/manager.go:24-27 | an attempt schedules the next no sooner than thirty seconds of wall time after it was made, if and only if it is not a live reading taken before it arrived |
| `AlarmRetries.AttemptsAreSpaced` | internal/alarms/manager.go:339-360 | the second of two attempts for one alarm is a tick at least thirty seconds of wall time after the first, unless the first was such a reading; then thirty seconds after that was taken |
| `AlarmRetries.AttemptsInEveryRun` | internal/alarms/manager.go:339-360 | so it is in every run and interleaving, by the wall times of the sections |
| `AlarmRetries.NextRetryInEveryRun` | internal/alarms/manager.go:339-360 | in every run the next attempt for an alarm is due thirty seconds after the time its last went by, which is less than thirty seconds after it was made exactly when that was such a reading |
| `AlarmRetries.TickOffersWhenDue` | internal/alarms/manager.go:339-360 | a whole tick offers a fired alarm to the store once more exactly when it has no row and its retry is due; anything else it queues for the rule comes after and is no offer of that alarm |
| `AlarmRetries.UnsavedIsRetried` | internal/alarms/manager.go:339-360 | in every run a fired alarm without a row has an attempt queued or in flight, or one that failed, and the whole tick queues another exactly from its due time on |
| `AlarmRetries.HourOldReadingIsRetriedAtOnce` | internal/alarms/manager.go:407-462 | the input that fails: a reading an hour old fires an alarm, and the tick a second later queues the second attempt |
| `AlarmHealth.TrackedIffUnhealthy` | internal/alarms/health.go:122-163 | after a tick a health rule is tracked exactly when it is judged to hold |
| `AlarmHealth.CommLossIffSilent` | internal/alarms/health.go:140-150 | after a tick comm_loss is tracked exactly when the silence has reached delaySeconds, or 60 without a delay, times 10^9 nanoseconds |
| `AlarmHealth.StillSinceAnchor` | internal/alarms/health.go:89-118 | since the anchor no reading has left the deadband around its value |
| `AlarmHealth.AnchorIsAChange` | internal/alarms/health.go:104-118 | and the anchor is a reading of the history, the first one or one that left the deadband around the anchor before it |
| `AlarmHealth.RecordRemembers` | internal/alarms/health.go:89-118 | recording a reading turns the memory of a history into the memory of the longer one |
| `AlarmHealth.FrozenIffStill` | internal/alarms/health.go:150-163 | in the same numbers: frozen is tracked exactly when the tag was heard from within the timeout and its last real change is at least the timeout old; every reading since lies within the deadband |
| `AlarmHealth.MuteIsNotFrozen` | internal/alarms/health.go:122-163 | comm_loss and frozen with equal delays hold together only when the silence is exactly that many nanoseconds |
| `AlarmHealth.EveryRunRecalls` | internal/alarms/health.go:227-247 | in every run that keeps the rule, what it is judged on is the history of good readings |
| `AlarmEventRows.OneOpenRowInEveryRun` | internal/alarms/manager.go:846-956 | in every interleaving of inserts, closings, acknowledgements and configuration saves, at most one row per tag and definition is open |
| `AlarmEventRows.CommittedInsertIsTheOpenRow` | internal/alarms/manager.go:846-905 | a committed insert's row is the one open row of its pair |
| `AlarmRowLives.RowsLiveOnce` | internal/alarms/manager.go:846-956 | in every interleaving a row stays, with its pair and trigger time; it is acknowledged at most once, while open; once closed it is never open again |
| `AlarmRowLives.InsertIff` | internal/alarms/manager.go:868-890 | an insert makes its row, with the sequence's next id, exactly when no committed row of the pair is active or acknowledged and not cleared |
| `AlarmRowLives.AdoptsTheOpenRow` | internal/alarms/manager.go:885-905 | otherwise the caller gets the id of the pair's one open row |
| `AlarmRowLives.MarkCloses` | internal/alarms/manager.go:941-956 | closing sets status and time of the one row named |
| `AlarmRowLives.RecordsIff` | internal/alarms/manager.go:910-938 | an occurrence is put on record already closed exactly when it is not on record yet; either way it is afterwards |
| `AlarmRowLives.RecordedOnce` | internal/alarms/manager.go:925-934 | recording it again changes nothing |
| `AlarmRowLives.AcknowledgesIff` | internal/handlers/alarms.go:585-589 | an acknowledgement takes exactly on a row neither acknowledged nor closed |
| `AlarmRowLives.SavingCloses` | internal/handlers/alarms.go:314-321 | saving a tag's rules closes exactly the rows of its alarms that are not cleared |
| `AlarmEventRows.SweepIsSafeIff` | internal/alarms/comm_loss_sweep.go:99-105 | the sweep keeps this if and only if no insert of the pair is between its insert and its commit |
| `AlarmEventRows.SweepDuringInsertStacksARow` | internal/alarms/comm_loss_sweep.go:99-105 | otherwise the commit leaves two open rows |
| `EdgeAssignment.FindOwner` | internal/edgesync/assignment.go:48-62 | the loop finds the owner: the box the gateway is assigned to if it is there, else the first box of scope all, else the server |
| `EdgeAssignment.IsOwnerIff` | internal/edgesync/assignment.go:44-62 | that rule has exactly one answer, and it is the owner |
| `EdgeAssignment.ServerOwnsIff` | internal/edgesync/assignment.go:44-62 | the server owns a gateway exactly when it is assigned to no box that is there and no box has scope all |
| `EdgeAssignment.ListOwnedBy` | internal/edgesync/assignment.go:84-92 | the gateways with that owner, each as often as it was there and in order |
| `EdgeAssignment.FilterKeeps` | internal/edgesync/assignment.go:84-138 | what such a list is: a growing sequence of places of the input, each kept, and no other place to be kept |
| `EdgeAssignment.EveryGatewayHasOnePoller` | internal/edgesync/assignment.go:48-92 | the boxes' lists and the server's together are the gateways, each as often as it was there |
| `EdgeAssignment.DeletingABoxIsLocal` | internal/edgesync/assignment.go:44-62 | deleting a box changes the owner only of gateways it owned |
| `EdgeAssignment.DeletedBoxOwnsNothing` | internal/edgesync/assignment.go:44-62 | a deleted box owns nothing |
| `EdgeAssignment.DanglingIsUnassigned` | internal/edgesync/assignment.go:44-62 | an assignment to a box that is gone gives the owner of an unassigned gateway |
| `EdgeAssignment.Config.FilterTree` | internal/edgesync/assignment.go:112-138 | in place: the gateways of which the box is the owner, the tags on those, the alarms on those, in order, and how many gateways no box owns |
| `EdgeAssignment.SharesAreClosed` | internal/edgesync/assignment.go:104-111 | every reference inside a share leads into the share |
| `EdgeAssignment.TagInShareIff` | internal/edgesync/assignment.go:121-129 | a tag is in a share exactly when its gateway is |
| `EdgeAssignment.AlarmInShareIff` | internal/edgesync/assignment.go:131-137 | an alarm is in a share exactly when its tag is |
| `EdgeAssignment.EveryTagAndAlarmHasOneOwner` | internal/edgesync/assignment.go:112-138 | tags and alarms are partitioned as the gateways are |
| `EdgeAssignment.LegacyKeyGetsEverything` | internal/edgesync/assignment.go:64-78 | a key without identity gets the whole configuration |
| `EdgeApply.WriteAll` | internal/edgesync/apply.go:76-112 | the loop of upserts writes every row, or stops exactly when a row misses its parent |
| `EdgeApply.MaxId` | internal/edgesync/apply.go:212-221 | the greatest stored id, at least 1 |
| `EdgeApply.LevelIsReplaced` | internal/edgesync/apply.go:98-207 | whatever the cascades took before, upserts and the scoped delete of one level together replace the organization's share by the payload |
| `EdgeRows.AppliedInRows` | internal/edgesync/apply.go:21-245 | for every database and every payload: refused without an organization; failed exactly when an item's parent is not there by then; else applied to exactly these rows in every table, the name, the command age if it is positive, and every sequence at its greatest id and at least 1 |
| `EdgeApply.ApplyMirrors` | internal/edgesync/apply.go:21-63 | a closed configuration with ids of its own is applied, and the result is the mirror of the specification |
| `EdgeApply.MirrorHoldsPayload` | internal/edgesync/apply.go:98-188 | the organization's gateways, tags and alarm definitions are the payload's, row for row |
| `EdgeApply.MirrorLeavesOthers` | internal/edgesync/apply.go:191-198 | what is not the organization's is the same rows before and after, in every table |
| `EdgeApply.MirrorKeepsForeignKeys` | internal/handlers/backup.go:545-553 | no row is left without its parent |
| `EdgeApply.MirrorMovesSequences` | internal/edgesync/apply.go:206-221 | every sequence is at least the largest id stored at its level |
| `EdgeApply.LastConfigurationWins` | internal/edgesync/apply.go:10-20 | whatever was applied before, the box ends with the rows of the last configuration |
| `EdgeApply.ApplyIsIdempotent` | internal/edgesync/apply.go:21-63 | applying the same configuration again changes nothing |
| `EdgeApply.BoxDatabase.Apply` | internal/edgesync/apply.go:21-63 | commits all of the configuration or nothing of it, and reports which |
| `EdgeFleet.BoxHoldsItsShare` | internal/edgesync/assignment.go:104-138 | what a box is sent can be applied, and the box then holds exactly its share, row for row, whatever it held |
| `EdgeFleet.FleetPartitionsTags` | internal/edgesync/assignment.go:112-138 | once every box has applied its share, every tag and its alarms are in the database of exactly the box that owns them, or in none if the server does |
| `EdgeFleet.FleetPartitionsGateways` | internal/edgesync/assignment.go:48-92 | and so is every gateway |
| `OrgIds.AtoiOfItoa` | internal/handlers/cloud_write.go:30 | every 64-bit integer is read back from its numeral |
| `OrgIds.SplitOfJoin` | internal/handlers/cloud_write.go:29-47 | splitting undoes joining of fields without commas |
| `OrgIds.JoinOfSplit` | internal/handlers/cloud_write.go:29 | joining undoes splitting of any text |
| `OrgIds.ParseLists` | internal/handlers/cloud_write.go:24-39 | the parsed list is the one increasing list of the positive ids the fields name, for every text |
| `OrgIds.ParseOrgIDList` | internal/handlers/cloud_write.go:26-39 | the loop with its seen map and sort computes that list |
| `OrgText.ParseIsRight` | internal/handlers/cloud_write.go:24-39 | on the characters, for every text: the list holds in increasing order exactly the positive numbers that stand between two commas, with blanks around, a sign or none, figures by their places, within 64 bits |
| `OrgText.AtoiIff` | internal/handlers/cloud_write.go:30 | a numeral is read exactly when it is an optional sign and figures of a 64-bit number, and as that number |
| `OrgText.FieldsIff` | internal/handlers/cloud_write.go:29 | the fields are exactly the pieces between the commas |
| `OrgText.TrimIsTrimmed` | internal/handlers/cloud_write.go:30 | trimming takes exactly the white space at both ends |
| `OrgText.Example` | internal/handlers/cloud_write.go:24 | "3, 1,3" is 1 and 3 |
| `OrgIds.FormatOrgIDList` | internal/handlers/cloud_write.go:42-53 | the printed form; overwriting the first printing's buffer never runs past its end |
| `OrgText.FormatIsRight` | internal/handlers/cloud_write.go:41-53 | the printed form is the positive ids from the smallest to the largest, in figures without a zero in front, with commas between |
| `OrgIds.ParseOfFormat` | internal/handlers/cloud_write.go:26-53 | parsing the printed form of any list gives its positive ids, sorted, once each |
| `OrgIds.ParseOfFormatExact` | internal/handlers/cloud_write.go:26-53 | a list comes back as it is if and only if it is increasing and positive |
| `OrgIds.FormatOfParse` | internal/handlers/cloud_write.go:26-53 | for every text, what was parsed survives printing, and printing it is a fixed point |
| `OrgIds.FormatTellsSets` | internal/handlers/cloud_write.go:41-53 | two lists print alike if and only if they hold the same positive ids |
| `ForecastSeries.FillForward` | internal/forecast/series.go:130-153 | gaps take the last number before them, leading ones the first after |
| `ForecastSeries.FilledIsWhole` | internal/forecast/series.go:127-153 | a filled series keeps every number and has no gap unless there was no number at all |
| `ForecastSeries.FilledIff` | internal/forecast/series.go:127-153 | of a series with a number, the one in which every step has its own number, or the last before it, or without one the first after |
| `ForecastShape.Buffers.Shape` | internal/forecast/engine.go:237-270 | the buffers, rewritten in place, hold the shaped forecast |
| `ForecastShape.InOrderSorts` | internal/forecast/engine.go:238-250 | three compare-and-swaps permute three numbers into order and never move a NaN |
| `ForecastShape.ShapeMovesLeast` | internal/forecast/engine.go:237-255 | beyond order, a state's share of time moves to the nearest number of [0, 1], and no kind but state and counter moves |
| `ForecastShape.ClimbingRises` | internal/forecast/engine.go:256-268 | a quantile under the running floor never goes down nor below the last value |
| `ForecastShape.ClimbingIsLeast` | internal/forecast/engine.go:256-268 | and no other such quantile above the forecast is anywhere lower |
| `ForecastShape.ClimbsStayInOrder` | internal/forecast/engine.go:256-268 | the order of the quantiles survives their separate floors |
| `ForecastShape.ShapeIsSoundIff` | internal/forecast/engine.go:234-270 | shaping delivers ordered quantiles, states within [0, 1] and rising counters exactly when every step has three quantiles or none |
| `ForecastShape.ShapeFixesExactlySound` | internal/forecast/engine.go:234-270 | shaping leaves a forecast alone exactly when it is already so, and is idempotent |
| `ForecastQuantile.QuantilesAscend` | internal/forecast/series.go:156-171 | a higher quantile is a higher number, between the least and the greatest |
| `ForecastEngine.Changes` | internal/forecast/engine.go:104-152 | the grid, its pointer and the interpolation give the band of the specification, or nothing for a short series |
| `ForecastEngine.MeasuredIsExact` | internal/forecast/engine.go:95-103 | at a measured horizon the band is the quantiles of the past moves over it |
| `ForecastEngine.ChangeBandIsOrdered` | internal/forecast/engine.go:134-146 | interpolated bands are in order |
| `ForecastStatistical.Seasonal` | internal/forecast/engine.go:156-194 | the median of the last seasons, past them the forecast's own season, with the band of the residuals |
| `ForecastStatistical.FollowTrend` | internal/forecast/engine.go:198-218 | the fitted line moved to the last value, with the band of the residuals |
| `ForecastStatistical.TrendStartsAtTheSignal` | internal/forecast/engine.go:210-217 | the median h steps ahead is the last value plus h slopes |
| `ForecastStatistical.FitIsLeastSquares` | internal/forecast/kind.go:169-195 | no line has a smaller sum of squared misses of the series than the fitted one |
| `ForecastExact.LineIsContinued` | internal/forecast/engine.go:95-152 | a straight line is continued without a band up to the furthest measured horizon, between the measured ones too |
| `ForecastExact.CycleIsRepeated` | internal/forecast/engine.go:154-194 | a signal that repeats is repeated without a band, however far past the known seasons |
| `ForecastKinds.ProcessIsByChanges` | internal/forecast/engine.go:54-152 | the forecast of a process: at a measured horizon the first, fifth and ninth tenths of the moves over it, on the last value; between two on the line between theirs; past them as at the last; and nothing for fewer than nine values |
| `ForecastKinds.CounterIsByChanges` | internal/forecast/engine.go:73-83 | the forecast of a counter: so, from the moves of the counter counted on through its resets, on its own last value |
| `ForecastKinds.CycleIsBySeasons` | internal/forecast/engine.go:61-194 | a cyclic or state signal with two seasons and eight values more than one: at each step the median of its moment in the last four seasons, with the band of how far all values strayed from theirs; past four seasons the forecast of a season before; with less, by changes |
| `ForecastKinds.DegradationIsByTrend` | internal/forecast/engine.go:67-218 | a degradation of three values or more follows the slope of a line no other is closer to in squares, from the last value, with the band of the residuals; a shorter one has no forecast |
| `ForecastKinds.CycleComesBack` | internal/forecast/engine.go:154-194 | so a cyclic or state request that repeats is answered by its own phase, at every quantile and however far ahead |
| `ForecastKinds.LineGoesOn` | internal/forecast/engine.go:95-152 | and a process on a line by the line, at every quantile up to the furthest measured horizon |
| `ForecastKinds.NothingToGoBy` | internal/forecast/engine.go:54-60 | without a number there is no forecast |
| `ForecastKinds.ForecastFollows` | internal/forecast/engine.go:84-93 | it begins where the series ends and keeps its step |
| `ForecastStatistical.Statistical` | internal/forecast/engine.go:54-83 | the engine, for every kind, computes the forecast of the specification |
| `ForecastStatistical.WholeOrEmpty` | internal/forecast/engine.go:54-93 | a statistical forecast has a number at every step and quantile, or none anywhere |
| `ForecastStatistical.StatisticalIsSound` | internal/forecast/engine.go:54-277 | for every series and kind the shaped forecast is as the kind implies; only a trend's quantiles ever have to be put in order |
| `ForecastResets.WithoutResets` | internal/forecast/run.go:280-301 | the loop computes the reset-free series and minus the total of the drops |
| `ForecastResets.ResetFreeLoop` | internal/forecast/engine.go:222-232 | the engine's loop computes the same reset-free series |
| `ForecastResets.SoFar` | internal/forecast/periods.go:103-136 | the total is the rises since the start, or the hours on; none when the series does not reach back or has no value |
| `ForecastResets.ResetFreeRises` | internal/forecast/run.go:278-301 | a reset-free counter only goes up |
| `ForecastResets.ShiftRestoresLast` | internal/forecast/run.go:278-301 | adding the returned shift restores the last true value |
| `ForecastResets.TotalsAgreeWithRunner` | internal/forecast/periods.go:115-127 | the total over any suffix is how far the whole reset-free series went from the suffix's first number |
| `ForecastResets.TotalsAgreeWithEngine` | internal/forecast/engine.go:222-232 | the engine's increase over its gap-filled copy is the same total |
| `ForecastCalendar.On` | internal/forecast/calendar.go:29-49 | a shift is on exactly when one covers the moment |
| `ForecastCalendar.CurrentShift` | internal/forecast/periods.go:67-95 | the first shift of the list that covers the moment, with its bounds |
| `ForecastCalendar.CalendarsAgree` | internal/forecast/periods.go:67-95 | the two calendars agree at every moment, and the bounds contain it |
| `ForecastCalendar.WindowsContainIff` | internal/forecast/periods.go:80-90 | the bounds always contain the moment if and only if a shift past midnight starts within the days it starts on |
| `ForecastCalendar.CoversIsAnOccurrence` | internal/forecast/calendar.go:29-49 | a shift is on exactly when one of its occurrences contains the moment |
| `ForecastPeriods.StateRestLoop` | internal/forecast/periods.go:198-213 | the loop adds the shares of the steps, and follows their average past the end |
| `ForecastPeriods.CounterRestGrows` | internal/forecast/periods.go:177-194 | what a counter still adds never shrinks as the end moves later, across the switch to extrapolation |
| `ForecastPeriods.CounterTotalAtStep` | internal/forecast/periods.go:177-188 | a period ending with a forecast step holds exactly what was counted plus that step's value less the last one |
| `ForecastPeriods.CounterRestIsProportional` | internal/forecast/periods.go:189-194 | past the horizon the remainder is in proportion to the time |
| `ForecastPeriods.CounterTotal` | internal/forecast/periods.go:145-173 | a complete counter forecast has a total for exactly the periods in reach, ordered and no less than so far |
| `ForecastPeriods.CounterTotalGrows` | internal/forecast/periods.go:145-194 | a later end holds no less, at every quantile |
| `ForecastPeriods.StateTotal` | internal/forecast/periods.go:145-213 | a state's total is ordered, between the hours so far and those plus all steps to come |
| `ForecastPeriods.StateTotalGrows` | internal/forecast/periods.go:198-213 | and grows with the end, gaps or not |
| `ForecastRisk.FirstCrossing` | internal/forecast/risk.go:116-123 | the first step that crosses, none if there is none |
| `ForecastRisk.ScanMedian` | internal/forecast/risk.go:127-147 | the line through the median's first and last numbers |
| `ForecastRisk.RiskMeans` | internal/forecast/risk.go:58-85 | a reported likelihood names the edge whose first crossing is at the reported time, no more certain edge ever crosses, and with nothing or a trend reported none does |
| `ForecastLimits.RiskIff` | internal/forecast/risk.go:58-154 | in numbers, for every rule, kind and forecast: a rule tripped by the last value, or not of this kind, has no risk; any other has exactly the one its limit (0.5 of the time for a switch) and the three quantiles say, with its time |
| `ForecastLimits.DriftIff` | internal/forecast/risk.go:127-154 | a drift is followed exactly when its median moves towards the limit, from its first number to its last, and reaches it within 365 days, counted in whole nanoseconds |
| `ForecastRisk.EdgesCrossInOrder` | internal/forecast/risk.go:64-78 | the pessimistic edge crosses no later than the median, the median no later than the optimistic edge |
| `ForecastRisk.DriftIsRightIff` | internal/forecast/risk.go:125-154 | a drift that is reported is at the limit on the median's line, no sooner than its last step and within a year, if and only if its time fits a 64-bit duration |
| `ForecastRisk.OverflowingDriftIsWrong` | internal/forecast/risk.go:150-153 | an input that fails: ten million to go at one an hour is reported before the forecast begins |
| `ForecastRisk.RisingDrift` | internal/forecast/risk.go:146-154 | a rising drift is reported exactly when it has some way to go and takes no more than a year, or so long that the conversion's number is at most a year; and with which time |
| `ForecastRisk.RaisingALimit` | internal/forecast/risk.go:58-113 | raising a high limit never makes its alarm likelier nor earlier, if and only if it is not a drift that gets worse, in terms of slope, gap, step and the conversion's number |
| `ForecastRisk.RaisedLimitDrifts` | internal/forecast/risk.go:147-154 | an input that fails: a median ending at the limit is no risk, and one of a limit raised by one is |
| `ForecastScores.Evaluate` | internal/forecast/backtest.go:41-79 | the loop computes the score of the specification |
| `ForecastQuestions.EvaluatedIsRight` | internal/forecast/backtest.go:41-79 | in sums over the hidden steps: the share inside the band, and how much less the medians missed than the last value before them |
| `ForecastScores.ScoresAreBounded` | internal/forecast/backtest.go:5-23 | coverage within [0, 1], skill at most 1, no more points than steps hidden, nothing compared is not reliable |
| `ForecastScores.BetterIsAWeakOrder` | internal/forecast/run.go:258-267 | better is a strict weak order |
| `ForecastRun.PrepareJob` | internal/forecast/run.go:168-196 | what is forecast at all and how, with the reasons for the rest |
| `ForecastQuestions.PreparedIsRight` | internal/forecast/run.go:168-196 | in numbers: the least number of steps that covers the horizon, from one to 512; a quarter of the known values hidden, or the horizon if less; a counter without its resets |
| `ForecastQuestions.AskedTwice` | internal/forecast/run.go:127-137 | the two questions about a job: its whole history, and the history without its hidden end, with the calendar cut there |
| `ForecastQuestions.AnswersAreToTheQuestions` | internal/forecast/run.go:139-156 | an engine that answers each question on its own has its answers taken for the right job and question |
| `ForecastQuestions.OfferIsRight` | internal/forecast/run.go:205-220 | an answer is offered, moved back to the counter's last value, shaped and scored, exactly when a median is left |
| `ForecastRun.KeptIsTheFirstBest` | internal/forecast/run.go:205-220 | the forecast kept is the earliest of the best offers; none exactly when no answer can be used |
| `ForecastRun.ConcludesRight` | internal/forecast/run.go:222-267 | engine, forecast and score are those of the first best offer; ok exactly when it is flat, above 0.05, or a tie with 0.6 inside the band, stable exactly in the last case; otherwise unreliable; an error exactly when nothing can be used |
| `ForecastRun.EveryEngineIsOnRecord` | internal/forecast/run.go:139-220 | every engine that answered is on record with its score, every one that failed or offered nothing with its error, and no other |
| `ForecastRun.FailureChangesOnlyErrors` | internal/forecast/run.go:144-152 | an engine that fails changes the recorded errors and nothing else of the result |
| `ForecastBatch.ConsiderForecast` | internal/forecast/run.go:207-220 | shaped in place, scored and kept if better |
| `ForecastBatch.Run` | internal/forecast/run.go:116-164 | the batched run with its index arithmetic gives every job its result: switched off, learning with fewer than the needed values, or exactly what the verdict on its offers says |
| `ForecastBatch.ResultIsRight` | internal/forecast/run.go:116-256 | the specified result is that one, for every job of every batch |
| `ForecastBatch.BatchIsEachAlone` | internal/forecast/run.go:127-159 | for engines that treat requests independently a job's result in any batch is its result alone |
| `ForecastBatch.ShownForecastIsSound` | internal/forecast/run.go:207-220 | whichever engine wins, the forecast shown is as the kind implies |

## Left out

- SQL text, MQTT, HTTP, Redis and files: the database is maps with an answer that may fail; publishing is one step that does not fail.
- Alias lookup, severity, message text and rounding in alarm events: copied, never decided on.
- `map[tag]map[definition]` tracks are one map keyed by both; an `eventRef` pointer is an index into `rows`; ranging over a map takes an arbitrary order that the method returns.
- Several readings of the wall clock within one batch or one tick are one reading.
- Infinite floats, floating-point rounding and signed zero; thresholds and deadbands are reals.
- AlarmFront.BatchTellsTruthIff: where an announcement stands in the queue depends on what the other rules of the tag queue; that is said of the queue after the batch, not of the readings.
- AlarmOccurrences.SectionKeepsOrderly: a reload keeps an id's alarm type, as every save path does.
- AlarmReplay.BatchReplaysLive: definitions do not change during the batch, the delay is not negative, and the live side ticks after each usable reading only.
- AlarmFiring.FiresExactlyWhenDue: one definition throughout, and a delay that is not negative (nothing in the source checks the delay's sign).
- AlarmRetries.AttemptsAreSpaced: nothing is assumed of how wall times follow one another; two readings of the clock within one section are one.
- AlarmNumbers.TickOnValueRule: the delay of a track that has not fired is not negative.
- AlarmExecution.ActionIsDone: the row id, alias and texts that go with a notification are not modelled.
- AlarmRowLives.AcknowledgesIff: the acknowledgement of `internal/handlers/i3x_handler.go:1294-1297`, which tests the status alone, is not part of this model.
- AlarmEventRows.OneOpenRowInEveryRun: the advisory lock is the mutex per tag and definition that the code intends; the call as written passes three keys (`internal/alarms/manager.go:865`). The sweep is only treated as one atomic statement. An event that carries no row id is inserted by `services/core-api/main.go:1580-1588` as ACTIVE with neither guard nor lock; that writer is not part of this model.
- EdgeApply.ApplyMirrors: payload ids are not another organization's, as the central platform's ids are; columns other than the parent are one text. A connection that fails in mid-transaction is not modelled; it rolls back like a violation.
- EdgeAssignment.EveryGatewayHasOnePoller: boxes have distinct positive ids, as rows of one table do.
- EdgeFleet.BoxHoldsItsShare: the box's ids are not another organization's there; which box a gateway is given to is not part of what is sent.
- OrgIds.ParseOrgIDList: text is a sequence of characters; bytes that are not UTF-8 are not modelled. WriteTopicOrg and the setting's lookup would only add easy members.
- ForecastCalendar.CurrentShift: every local day starts at its midnight; places that skip midnight itself are not modelled, and the day and month windows would only add easy members.
- ForecastRisk.RisingDrift: what the processor makes of a number that does not fit a duration is a parameter, as the language leaves it open.
- ForecastRun.PrepareJob: classification, season length and calendar covariates come with the job; reasons in words are left out.
- ForecastPeriods.CounterTotal: complete forecasts of three ordered quantiles, which is what shaping gives for whole bands.
- Resample, ChooseStep, autocorrelation and the classification thresholds: heuristics without an exact specification.
- Anomaly checks, joint forecasts, the remote model and the runners around them: glue or easy members.
