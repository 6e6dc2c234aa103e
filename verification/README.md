# Verified model of a capture-room node

A Dafny model of the parts of the node and controller program that hold its hardest
promises, with proofs of them. Each module follows one component of the program; where the
program changes state step by step the module has a class with the same fields, whose methods
are proved equal to functions on values, and what the program promises is proved of those
functions, over every input, run or interleaving.

| module | component |
|---|---|
| `Calendar`, `Recurrence`, `Starts` | when a schedule runs: the proleptic Gregorian calendar, time zones, recurrence rules, and the searches for the next and the latest start |
| `RunTable`, `Deeds`, `Scheduler` | the run table, what nodes are asked to start and stop with a record of it, and the scheduler's ticks, starts, stops and deletions, each of which may be cut short anywhere |
| `Search`, `Memory`, `Benchmark` | the search for the most feeds a node sustains, the memory budget, and the driver's loop |
| `NodeClock` | which clock a node runs on and which controller may choose it, as atomic steps under the mutex |
| `MoveFiles`, `Updater` | the all-or-nothing move of an app's files, and update checks racing with channel changes |
| `Registry` | the controller's approved and found nodes, their pinned keys, relays and events |
| `Power` | what keeps the machine awake: callers, a queue, and one worker |
| `MountPath` | URL-safe stream paths, and outputs' identities |
| `Timecode` | frame counting |
| `Capacity` | the benchmark runs that stand for a setup and format, and load |
| `Float64`, `Shares`, `Tipping` | the 64-bit floating-point numbers that load is added up in, sums of one share many times over, and which of them come to more than they should |

The conventions: instants are nanoseconds, dates are day numbers, months are counted from the year
0. A time zone is any pair of functions (the offset at an instant, the instants that read as a local
time) that agree with each other and whose offsets are never more than two days apart, past changes
included. The searches are exact at an instant if within ten days of it the clocks aren't set back
by over 21 hours and the dates looked at have a start, that is, aren't skipped by over three hours
past their time; and where the clocks aren't set back by 21 hours at all within twelve days,
whatever they find is right, other dates skipped or not. What nodes, disks, the network, the release
server and measurements answer is a parameter, and every theorem is for all answers. A process that
may die anywhere is modelled by `lives`: how many more table operations and requests it gets.

## Where the code does not do all it means to

Each of these is a lemma, most with the exact condition under which the code does what is meant.

- **The benchmark can loop for ever.** After a count has failed, a cap changes nothing that the
  search looks at (`Search.CapNarrowsUnlessFailed`). If the failed step showed that feeds take so
  much memory that the next count won't fit, the driver caps and retries without end, though memory
  was never short (`Benchmark.MemoryCanBlockForGood`). The loop ends exactly if that never happens
  (`Benchmark.EndsIffNeverStalled`); where memory has room for the limit's worth of the greediest
  feeds measured it ends (`Benchmark.RoomyMachineEnds`).
- **A check can speak over an install.** Finding nothing going on and marking a check as on are two
  steps. What is shown of an install stands exactly if no check is on as it starts
  (`Updater.InstallStandsWhenNoCheckIsOn`), and one can be (`Updater.InstallCanBeSpokenOver`).
- **Nine ninths are more than one.** Loads are floating-point sums, rounded at each addition. As
  many feeds as a benchmark found are judged to be over, though they aren't, for 47 of the answers
  from 1 to 128: 9, 11, 18, 20, 21, 25, … (`Capacity.NineOfNineAreOver`, `Tipping.TippingIsExact`);
  four fifths of the answer, where that's whole, don't fit comfortably for 11 of them. Fewer are
  never over and more always are (`Capacity.AnswerIsTheLine`).
- **The order of feeds can change the verdict**, but only of a load so near to the line that rounding
  can cross it (`Capacity.OrderCanTipFor`, `Capacity.OrderSeldomMatters`).
- **An announcement acted on late approves a node.** It's looked up under one lock and acted on under
  another. If the node was removed in between it's entered anew, its key trusted
  (`Registry.LateMoveApprovesAnew`), and if it was approved with another key the old one is set
  back. Acting is harmless exactly if the node is still approved with the key it was looked up with
  (`Registry.MovesAreHarmlessWhen`).
- **A run can be stopped late.** The wake time is worked out without the runs started in the same
  tick. Such a run is over before the scheduler looks again exactly if its window ends before
  whatever else wakes it, which is at most a minute on (`Scheduler.Scheduler.Tick`,
  `Scheduler.WakesLaterWhen`): a run of under a minute, or one of any length noticed in the last
  minute of its window (`Scheduler.ShortRunEndsBeforeWake`).
- **A deleted schedule's run may go on.** One running occurrence is stopped, and then the schedule
  is deleted with its rows. Any other run of it is never asked to stop: there's none exactly if one
  alone was running (`Scheduler.DeletingStopsAllWhen`) and no tick starts one in between. A schedule's
  runs overlap exactly if its window isn't over when the next occurrence is due
  (`Scheduler.RunsOverlapWhen`), as with thirty hours every day: two ticks leave two of its rows
  running (`Scheduler.DailyRunsOverlap`).
- **A date the clocks skip hides a weekly start.** Zones that crossed the date line skip more than
  three hours. If a weekly schedule's date is skipped, no next start is found from the start before,
  though there is one (`Starts.SkippedWeekIsMissed`, and `Starts.SkippedDateLosesNext` for such a
  zone), and from two to five days after it the start before isn't found as the latest
  (`Starts.SkippedWeekIsMissedBehind`). For any rule, a search is right exactly if one of the dates
  it looks at has a start on the right side, or no date has (`Starts.NextIsExactWhen`,
  `Starts.LatestIsExactWhen`; for one day of the week `Starts.WeeklyIsNextWhen`). What it misses
  never makes it start an occurrence twice (`Scheduler.Scheduler.RunAll`).
- **A start cut short isn't remembered.** What a run started is noted in its row only once all was
  asked for. If the process dies before that, the row has nothing to stop: the run's stops are those
  of what it started exactly if the row came to note it or there was nothing to stop
  (`Scheduler.Scheduler.StartRun`).
- **Memory's average is rounded down.** As many feeds as fit can take more than the floor leaves,
  exactly when `Memory.RoundingIsCoveredWhen` says; from four bytes a feed on the margin covers it.
- **Two nodes with one key share one pin.** Removing or re-keying one then unpins the other
  (`Registry.RemoveKeepsPinsWhen`, `Registry.UpsertKeepsPinsWhen`).
- **Online, or offline, may be said twice running** of a node removed and approved again
  (`Registry.SaidTwiceRunning`): exactly when the first check after an approval finds what was said
  last before the removal (`Registry.RunAlternatesWhen`). A node that's never removed takes turns
  (`Registry.NeverRemovedTakesTurns`).
- **A rolled back move loses what it had replaced.** It is exact if and only if nothing was replaced
  (`MoveFiles.RollbackIsExactWhen`), as when the destination was empty.
- **A channel's name as it is may be no NDI name.** A defaulted name with space around it is trimmed
  the second time (`MountPath.IdentityIsIdempotentWhen`). The API lets no such name in: it trims
  sources' names and refuses empty ones for channels (node/src/api/node.rs:336-340).
- **Matching formats don't chain**, so a run can match another and still stand for itself
  (`Capacity.MatchedRunCanStand`).

## Model

| member | source | states |
|---|---|---|
| Recurrence.Parse | node/src/controller/scheduler.rs:400-465 | only valid rules are let through: a one-off has a date, a weekly rule a weekday, a monthly one a day of the month or one weekday and a week |
| Recurrence.ParseReachesEveryRule | node/src/controller/scheduler.rs:400-465 | every valid rule is what parsing its own fields gives, so nothing proved of valid rules is about fewer or more than the program has |
| Recurrence.ParseSucceedsWhen | node/src/controller/scheduler.rs:400-465 | exactly which stored fields parse, and that only the fields a kind has are kept, and of the byte only weekdays' bits |
| Recurrence.InMonthIsExact | node/src/controller/scheduler.rs:479-497 | of all the days of a month, the one worked out is exactly the one meant: the day of the month, the n-th such weekday counted from the first, or the last with none after it |
| Recurrence.NthIsCounted | node/src/controller/scheduler.rs:487-489 | weeks 1 to 4 always exist, and the date is the one before which the weekday fell n-1 times |
| Recurrence.LastHasNoneAfter | node/src/controller/scheduler.rs:490-496 | week -1 is the day of that weekday with no later one in the month |
| Recurrence.MatchesIsFalls | node/src/controller/scheduler.rs:467-476 | the dates a rule matches are exactly those it means, over all dates |
| Recurrence.TwelveMonthsHoldOne | node/src/controller/scheduler.rs:536-556 | any twelve months running hold one of a monthly rule's dates: why a year's window is enough |
| Calendar.FirstOfIsClosed | node/src/controller/scheduler.rs:479-497 | months laid end to end agree with the closed count of leap days for every year, negative ones too |
| Calendar.WeekdaysEverySeven | node/src/controller/scheduler.rs:479-497 | a weekday has fallen once for each seven days begun |
| Calendar.ASunday | node/src/controller/scheduler.rs:627-635 | weekdays are numbered as on the wall calendar: 18 October 2026 is a Sunday, so WeekdaysEverySeven makes them all right |
| Recurrence.FirstMinuteIsFirst | node/src/controller/scheduler.rs:505-511 | the search past a gap gives the first of the minutes that the clocks show |
| Starts.StartOnIsFirstMinute | node/src/controller/scheduler.rs:501-514 | a date has a start exactly if its time, or a minute up to three hours after it, is ever shown; it is then the first instant that reads as the first minute shown, in any consistent zone |
| Starts.StartReadsAsMeant | node/src/controller/scheduler.rs:501-514 | on a date on which the clocks show the rule's hour and minute the start is when they show that date, hour and minute, and no seconds |
| Starts.StartsAscend | node/src/controller/scheduler.rs:501-514 | starts of dates a week apart keep their order, however the clocks are set |
| Starts.DaysAwayFrom | node/src/controller/scheduler.rs:516-562 | two local days on a start is later than the instant, two days back it isn't: what the day to spare each way is for |
| Starts.CandidateNoLater | node/src/controller/scheduler.rs:516-562 | whatever date's start comes after an instant, one of the dates looked at starts after it and no later |
| Starts.CandidateNoEarlier | node/src/controller/scheduler.rs:516-562 | whatever date's start is at or before an instant, one of the dates looked at starts by then and no earlier |
| Starts.NextAfterIsNext | node/src/controller/scheduler.rs:577-582 | the next start is the least strictly after the instant of the starts of all dates there are; none only if there is none; where clocks are steady around the instant and skip none of the dates looked at |
| Starts.LatestAtOrBeforeIsLatest | node/src/controller/scheduler.rs:565-574 | the latest start is the greatest at or before the instant of the starts of all dates there are; none only if there is none; under the same conditions |
| Starts.FoundIsLatest | node/src/controller/scheduler.rs:565-574 | where the clocks aren't set back by 21 hours, whatever latest start is found is the latest of all dates' starts, even if other dates looked at have none |
| Starts.FoundIsNext | node/src/controller/scheduler.rs:577-582 | and whatever next start is found is the next of all |
| Starts.LatestIsExactWhen | node/src/controller/scheduler.rs:565-574 | for any rule, the search for the latest is exact if and only if a date it looks at has started, or none has |
| Starts.NextIsExactWhen | node/src/controller/scheduler.rs:577-582 | and the one for the next if and only if a date it looks at has a start to come, or none has |
| Starts.SearchesAreMonotone | node/src/controller/scheduler.rs:565-582 | as time goes on neither goes back |
| Starts.LatestAndNextAreNeighbours | node/src/controller/scheduler.rs:565-582 | no start lies between the latest at an instant and the next after it |
| Starts.SkippedDateLosesNext | node/src/controller/scheduler.rs:505-511 | with a zone that skips a whole date there is a start and none is found |
| Starts.SkippedWeekIsMissed | node/src/controller/scheduler.rs:516-582 | in any zone, if a weekly schedule's date has no start and those a week before and after do, the search from the one before misses the one after |
| Starts.SkippedWeekIsMissedBehind | node/src/controller/scheduler.rs:516-574 | in any zone, two to five days after a skipped date of a weekly schedule the start a week before it isn't found |
| Starts.WeeklyIsNextWhen | node/src/controller/scheduler.rs:516-582 | for one day of the week the search is exact if and only if the week's date has a start, or the one before starts later than the instant, or no later date has one |
| RunTable.Prune | node/src/db/mod.rs:1350-1360 | no running row and no other schedule's row is dropped, and none is changed |
| RunTable.NewestIsKept | node/src/db/mod.rs:1324-1361 | a schedule's newest row is never dropped |
| RunTable.PruneKeepsFew | node/src/db/mod.rs:1324-1361 | at most 200 of a schedule's rows that aren't running are left |
| RunTable.PruneKeepsTheNewest | node/src/db/mod.rs:1350-1360 | of a schedule's rows exactly the newest 200, or all if there are fewer, and those running are left |
| RunTable.Updated | node/src/db/mod.rs:1363-1376 | an update writes the four columns of its row and never touches which occurrence a row is of, nor other rows |
| Scheduler.WithoutRowIsNew | node/src/controller/scheduler.rs:115-124 | a latest occurrence without a row is later than all its schedule's rows, and was never started, though old rows are dropped |
| Scheduler.InsertIsValid | node/src/db/mod.rs:1331-1361 | inserting, and dropping old rows, keeps what makes that so, also if the process dies in between |
| Scheduler.Scheduler.Insert | node/src/db/mod.rs:1331-1361 | an occurrence gets a row exactly if it had none; whatever is inserted was never started before |
| Scheduler.Scheduler.StartRun | node/src/controller/scheduler.rs:171-255 | nothing is asked of a node unless the occurrence was inserted just now; if all goes well the row holds what was asked and answered, recordings first; cut short, the row's stops are those of what started exactly if it noted them or there were none |
| Deeds.StartAllAsksForEach | node/src/controller/scheduler.rs:195-230 | one target for each thing wanted, of its kind, node and source or channel, in order, and one request for each whose preset is there, with nothing else asked |
| Deeds.WantsAreTheActions | node/src/controller/scheduler.rs:198-216 | a schedule wants each source of its recording actions recorded, with the action's preset if it's still there, and then each channel of its playout actions played, in the actions' order, and nothing else |
| Deeds.RequestsAreTheActions | node/src/controller/scheduler.rs:195-246 | the requests of a start, one after the other: each recording action's sources on their nodes with its preset, where that's there, and then each playout's channel and item |
| Deeds.TargetsNoteReplies | node/src/controller/scheduler.rs:258-329 | each target notes the reply to its own request, a recording's session or what went wrong, and a deleted preset is noted as failed |
| Deeds.WhatStartsIsStopped | node/src/controller/scheduler.rs:332-357 | what one request started is what the end stops: the node's recording by the session it answered, or its channel if that's to stop |
| Deeds.StopsAt | node/src/controller/scheduler.rs:332-357 | stops are sent once each, in the order of the targets |
| Deeds.StatusMeans | node/src/controller/scheduler.rs:236-254 | a started run failed if all of it did, runs if it has an end, and else is done or partial by whether anything failed |
| Deeds.LeadIsTheWait | node/src/controller/scheduler.rs:190-193 | the lead given is what's left until the start, in microseconds, within its bounds |
| Scheduler.Scheduler.SkipRun | node/src/controller/scheduler.rs:157-169 | a missed occurrence is noted once and never runs |
| Deeds.StopsAreExact | node/src/controller/scheduler.rs:332-357 | each target that started without error and stops at its end is asked to stop, and no other |
| Deeds.StopsAreOfTargets | node/src/controller/scheduler.rs:332-357 | every stop asked for is such a target's |
| Deeds.RecordGrows | node/src/controller/scheduler.rs:171-364 | a start's requests, of what it wants and no more, or a run's stops, of what came of starting it, keep the record of all that was asked exact |
| Scheduler.Scheduler.StopRun | node/src/controller/scheduler.rs:332-364 | exactly those stops are asked for, once each and in order, and then the run isn't running |
| Scheduler.StoppedMeans | node/src/controller/scheduler.rs:358-364 | a stopped run is partial if anything of it failed to start, and else done |
| Scheduler.Scheduler.Tick | node/src/controller/scheduler.rs:94-131 | all that a tick asks of nodes is to stop runs that are over, each for what its row notes, and then to start listed schedules' latest occurrences, each with all that its actions say; a completed tick stopped every run that was over and no other, started in full every occurrence due, without a row and in its window, and noted it, and noted as missed those past it; whatever runs ends later than now, and the wake time is the least of a minute on, the ends of the runs from before and what schedules ask; no running run ends before it exactly if none that this tick began has a window that does; and a tick completes if it gets as many operations as it may need |
| Scheduler.WakesForEveryStart | node/src/controller/scheduler.rs:126-128 | the wake time is in time, by the lead, for every future start of every schedule that's on, not only the next |
| Scheduler.WakesLaterWhen | node/src/controller/scheduler.rs:94-131 | the scheduler looks again after an instant exactly if no run from before ends by it and no schedule has a start coming up by the lead after it |
| Scheduler.ShortRunEndsBeforeWake | node/src/controller/scheduler.rs:94-131 | a one-off that's due, noticed at any time, is over before the wake time exactly if its window ends within a minute |
| Scheduler.Scheduler.StopNow | node/src/controller/scheduler.rs:61-71 | one running occurrence of the schedule is stopped, if there is any, and nothing else changes |
| Scheduler.DeletingStopsAllWhen | node/src/controller/api.rs:660-661 | stopping now leaves all of a schedule's running rows but one, to be deleted unasked; none is left exactly if one alone was running |
| Scheduler.RunsOverlapWhen | node/src/controller/scheduler.rs:111-125 | a later occurrence of a schedule comes due while one still runs exactly if its window isn't over when the next is due |
| Scheduler.DailyRunsCanOverlap | node/src/controller/scheduler.rs:453-463 | a daily rule with a window of thirty hours is let through, and overlaps |
| Scheduler.DailyRunsOverlap | node/src/controller/scheduler.rs:94-131 | two ticks that aren't cut short leave two of its rows running |
| Scheduler.Scheduler.Delete | node/src/controller/api.rs:651-669 | with nothing in between, deleting asks one running occurrence's stops, if there is one, and then no row of the schedule is left |
| Scheduler.Scheduler.Drop | node/src/db/mod.rs:1317-1319 | deleting a schedule takes its rows with it, leaves all others and asks no node to stop |
| Scheduler.Scheduler.RunAll | node/src/controller/scheduler.rs:73-131 | no occurrence is started twice over any ticks, stops and drops, in any order, each cut short anywhere, with a clock that doesn't go back, dates skipped or not; and the requests sent are, one after the other, those of starting just these occurrences and of stopping what came of starting them |
| Scheduler.DueIsMonotone | node/src/controller/scheduler.rs:115 | the occurrence looked up never precedes one looked up before, even if some were missed in between |
| Scheduler.DueIsLatest | node/src/controller/scheduler.rs:115 | what a tick finds is the latest of all the schedule's starts up to two seconds from now |
| Scheduler.IsDueWhen | node/src/controller/scheduler.rs:116-119 | an occurrence is due exactly if its window, of the rule's length or two minutes, ends after the schedule was saved |
| Search.NextIsUseful | node/src/benchmark/search.rs:49-73 | what is asked for is a count below any failure and within the limit, above what passed or else the best, unconfirmed one |
| Search.MeasuringNarrows | node/src/benchmark/search.rs:82-90 | whatever a measurement says, the lowest failure, the gap below it or the confirmation outstanding gets less |
| Search.CapNarrowsUnlessFailed | node/src/benchmark/search.rs:93-95 | a cap shrinks the search before the first failure and changes nothing after it |
| Search.FailedIsValid | node/src/benchmark/search.rs:87-90 | a failure, even of a count that passed before, leaves the best below it |
| Search.DoneIsSettled | node/src/benchmark/search.rs:49-73 | an answer is none or passed in full, and one more failed or it is the limit |
| Search.Search.Passed | node/src/benchmark/search.rs:82-85 | a pass is noted, a full one never forgotten |
| Search.Search.Failed | node/src/benchmark/search.rs:87-90 | the lowest failure is kept, and passes not below this one retracted |
| Benchmark.MeasuredIsSound | node/src/benchmark/run.rs:229-251 | a measurement, or a step broken off for memory, leaves what the search knows backed by the log, enough feeds running to go back to, and less to find out |
| Benchmark.PassIsSound | node/src/benchmark/run.rs:196-252 | so does a pass of the loop, unless memory blocks it after a failure, and then it stays blocked |
| Benchmark.EndsIffNeverStalled | node/src/benchmark/run.rs:196-252 | whatever is measured, the loop ends exactly if memory never blocks it after a failure |
| Benchmark.RoomyMachineEnds | node/src/benchmark/run.rs:213-227 | it ends where there is room for the limit's worth of feeds that each take the most any measured step of the run averages |
| Benchmark.MemoryCanBlockForGood | node/src/benchmark/run.rs:213-227 | a machine on which it doesn't end, of any size whose floor is the least, with a budget the program makes, and never short of memory |
| Benchmark.AnswerIsCertified | node/src/benchmark/run.rs:196-209 | the answer kept up in a full step, one more was measured and didn't or it is the limit as capped, and nothing up to it ever failed |
| Benchmark.AnswerIsTheCapacity | node/src/benchmark/search.rs:49-90 | where full steps keep up exactly to c the uncapped answer is min(c, limit), whatever quick checks let through |
| Benchmark.AnswerIsAtLeast | node/src/benchmark/run.rs:196-252 | where full steps keep up to c and no disk fills up the answer is at least c, or the limit, or all that fits in memory by what feeds were seen to take |
| Benchmark.FullDiskCaps | node/src/benchmark/run.rs:229-251 | a step that kept up on a nearly full disk caps the search at its count, and nothing else measured lowers the limit |
| Benchmark.BrokenWhen | node/src/benchmark/run.rs:229-251 | a pass is broken off exactly if the operator stops a measurement whose feeds could start |
| Benchmark.ShortIsGivenUp | node/src/benchmark/run.rs:229-251 | a count that memory runs short of, as feeds start or later, fails, and feeds go back to the best or one below it |
| Benchmark.MeasuredIsNoted | node/src/benchmark/run.rs:229-251 | a count measured whole is what runs then, what it took is observed, and its verdict logged |
| Benchmark.FewCountsAreMeasured | node/src/benchmark/search.rs:49-90 | where quick checks do too it takes at most 2⌈log2 limit⌉ + 2 counts |
| Benchmark.FitsNeverGrowsOverARun | node/src/benchmark/run.rs:190-253 | however long a run goes on, no more feeds fit than did at the start |
| Benchmark.Driver.SetFeeds | node/src/benchmark/run.rs:360-378 | the feeds asked for run, numbered from 1, unless memory is short on the way |
| Benchmark.VerdictMeans | node/src/benchmark/run.rs:278-335 | a quick pass exactly for a quick window clear of the limit; a full pass exactly if one of two full windows keeps up where they're looked at; a failure exactly if a quick window is far over the limit or neither full one keeps up |
| Benchmark.Driver.Check | node/src/benchmark/run.rs:278-335 | the windows measured one after the other come to that verdict |
| Benchmark.Driver.Turn | node/src/benchmark/run.rs:196-252 | one pass of the loop, and a new high is measured only if it fits in memory |
| Benchmark.Driver.FindLimit | node/src/benchmark/run.rs:190-253 | the loop, ending in the answer of the run |
| Memory.FitsNeverGrows | node/src/benchmark/memory.rs:39-53 | observing never makes more feeds fit |
| Memory.FitsLeavesFloor | node/src/benchmark/memory.rs:47-53 | as many feeds as fit, none taking more than the most seen, leave the floor |
| Memory.FitsExactly | node/src/benchmark/memory.rs:47-53 | exactly so many feeds fit as a quarter more than the greediest seen each leaves room for |
| Memory.BudgetMeans | node/src/benchmark/memory.rs:20-46 | an eighth of the memory, or the least, is kept free; what's known of feeds is the most that any step took of each on average |
| Memory.RoundingIsCoveredWhen | node/src/benchmark/memory.rs:39-53 | exactly when a step that doesn't raise the rounded average leaves the floor whatever it takes |
| Memory.MarginCoversRounding | node/src/benchmark/memory.rs:39-53 | it does once feeds take four bytes |
| Memory.RoundingCanGoShort | node/src/benchmark/memory.rs:39-53 | and needn't below that, with a budget the program makes of any size whose floor is the least: 80 feeds fit, and leave less than the floor unnoticed |
| NodeClock.SameSourceIsEquivalence | node/src/clock.rs:359-377 | being the same source is an equivalence |
| NodeClock.StepIsSound | node/src/clock.rs:167-323 | every claim, change of mode and look of a waiting thread keeps: with no error the clock awaited or else in use is the one last asked for, with an error none is awaited, none replaced comes back, claims by different controllers are 20 s apart |
| NodeClock.EveryRunIsSound | node/src/clock.rs:167-323 | so does every interleaving of them |
| NodeClock.NewIsSound | node/src/clock.rs:77-102 | from a node's start on, whatever steps there are |
| NodeClock.ReplacedStaysReplaced | node/src/clock.rs:303-316 | a replaced clock is never in use again, however late it syncs |
| NodeClock.DomainChangesAreNoticed | node/src/clock.rs:129-140 | the domain never changes without subscribers being told |
| NodeClock.ClaimIsApart | node/src/clock.rs:185-206 | an accepted claim is the timeout after every other controller's accepted ones, not only the last's |
| NodeClock.ClaimIsTakenWhen | node/src/clock.rs:185-220 | a claim is taken exactly if the node has no mode of its own and it's the first, the master's, or the timeout after the last; then its controller is the master and the clock it names is followed |
| NodeClock.SilentMasterIsReplaced | node/src/clock.rs:185-206 | over any run, once the timeout has gone by since every claim whoever claims gets the node |
| NodeClock.RenamedIsFollowedOn | node/src/clock.rs:359-377 | a controller followed already that claims under another name is followed on |
| NodeClock.ClaimingKeepsTheNode | node/src/clock.rs:185-206 | a controller that claims more often than the timeout has every claim accepted and no other has any |
| NodeClock.OwnModeTakesNoClaims | node/src/clock.rs:186-190 | with a mode of its own a node changes nothing for a claim |
| NodeClock.OwnModeMeans | node/src/clock.rs:167-183 | a mode of one's own ends all claims, and a controller is on its own clock at once; giving it up leaves the clock as it is |
| NodeClock.NodeClock.SwitchTo | node/src/clock.rs:222-265 | following a source, at once, once synced, or not if it's followed already |
| NodeClock.FollowingMeans | node/src/clock.rs:222-265 | a source followed already is stayed with; another is awaited, or used at once if it's the machine's own, unless making a PTP clock fails |
| NodeClock.WaitingMeans | node/src/clock.rs:303-316 | a waiting thread puts its clock in use once it synced, if it's still awaited, and otherwise leaves |
| NodeClock.DomainsAgreeWhen | node/src/clock.rs:129-140 | two nodes are in one domain exactly if they run on one controller's clock or one PTP domain's, or are the same node on its own |
| NodeClock.NodeClock.AwaitSync | node/src/clock.rs:303-316 | a waiting thread leaves once replaced or once its clock is in use |
| MoveFiles.FileSystem.FilesIn | node/src/update.rs:629-639 | lists just the files under a folder, once each |
| MoveFiles.FileSystem.MoveFiles | node/src/update.rs:607-626 | on success every file is at its place and nothing else changed; on failure with a working rollback, and nothing at the destination before, all is as it was |
| MoveFiles.FileSystem.Swap | node/src/update.rs:565-596 | a swap succeeds if nothing fails and nothing's in the way, with the app's files aside and the update's in their place; one that fails anywhere, if nothing fails after that, leaves every file of the app and the update as it was |
| MoveFiles.WayInIsClear | node/src/update.rs:565-596 | with the app's files aside nothing is in the way of the update's |
| MoveFiles.AllMovedMeans | node/src/update.rs:607-626 | every file is at its relative path with what it held, gone from where it was, and nothing elsewhere changed |
| MoveFiles.SameCount | node/src/update.rs:613-620 | no two files go to the same place |
| MoveFiles.MoveBackUndoes | node/src/update.rs:589-595 | moving back undoes moving |
| MoveFiles.WayBackStaysClear | node/src/update.rs:589-595 | nothing is in the way of moving back |
| MoveFiles.RollbackIsExactWhen | node/src/update.rs:614-624 | a rolled back move leaves all as it was exactly if it had replaced nothing |
| Updater.Newest | node/src/update.rs:217-228 | the newest release is one offered, no lower than any offered and higher than any after it; none only if none is |
| Updater.StepIsSound | node/src/update.rs:91-101 | every step of checks, channel changes and installs keeps: a stored version was found on the channel now set, an available one is newer, and a check shown as on is |
| Updater.EveryRunIsSound | node/src/update.rs:318-360 | so does every interleaving of them |
| Updater.StartIsSound | node/src/update.rs:91-101 | from the start on, in every interleaving, a version is offered only of the channel now set and only if newer |
| Updater.OverOnceRecorded | node/src/update.rs:325-358 | a check that looked is over only once it recorded a result for the channel then set |
| Updater.RecordMeans | node/src/update.rs:337-358 | an answer on the channel set is the version found, on offer exactly if it's newer than the one running; an error leaves what was found before |
| Updater.SetChannelMeans | node/src/update.rs:91-101 | another channel leaves nothing on offer, the same one everything |
| Updater.CheckMeans | node/src/update.rs:318-336 | a check begins only while nothing goes on, asks about the channel it reads, and reads again if that's not set any more |
| Updater.InstallStandsWhenNoCheckIsOn | node/src/update.rs:318-324 | what is shown of an install stands, whatever else happens, exactly if no check is on as it starts |
| Updater.InstallCanBeSpokenOver | node/src/update.rs:318-324 | from the start, a check begun just before an install leaves what's said of it not standing |
| Updater.Updater.Check | node/src/update.rs:318-360 | the loop records the answer of the first round in which the channel wasn't changed, asked on the channel then set |
| Registry.RemoveKeepsPinsWhen | node/src/controller/registry.rs:111-119 | removing a node leaves the pins the entries' keys exactly if no other node has its key |
| Registry.UpsertKeepsPinsWhen | node/src/controller/registry.rs:84-107 | so does approving one, exactly if it keeps its key or no other node has the old one |
| Registry.StepIsSound | node/src/controller/discovery.rs:305-349 | every approval, removal, finding, dismissal, look at an announcement, late acting on one, and check result keeps: pins are the entries' keys, no node is both approved and found, each approved node has exactly one uncancelled relay, and what's said of it since its approval takes turns and ends with how it is |
| Registry.EveryRunIsSound | node/src/controller/registry.rs:71-232 | so does any sequence of them in which no key is shared, and the events sent are those |
| Registry.CheckedIsTrue | node/src/controller/discovery.rs:527-555 | after a check's result what's said of each node since its approval still takes turns and ends with how it is |
| Registry.ApprovalMeans | node/src/controller/discovery.rs:305-349 | approved, a node is an entry with this address and key, trusted and no longer found; one known keeps the rest and its relay, a new one gets a relay of its own |
| Registry.RemovalMeans | node/src/controller/registry.rs:111-119 | removed, its relay is cancelled and its key ignored and not trusted; no other node changes |
| Registry.CheckMeans | node/src/controller/discovery.rs:527-555 | what a check's result changes of the node, and exactly when it's said to be online or offline or changed |
| Registry.AnnouncementMeans | node/src/controller/discovery.rs:108-148 | with nothing in between, a node that's new and not ignored is offered, one that answers elsewhere with its own key is moved, and nothing else comes of an announcement |
| Registry.MissMeans | node/src/controller/discovery.rs:438-444 | one more miss is noted, and told when it drops the node |
| Registry.SaidTwiceRunning | node/src/controller/discovery.rs:527-555 | removed and approved again, a node is said to be online, or offline, twice running |
| Registry.StepAlternatesWhen | node/src/controller/discovery.rs:527-555 | one step leaves a node's online and offline events taking turns exactly if it isn't the first check since an approval, finding what was said last before |
| Registry.RunAlternatesWhen | node/src/controller/discovery.rs:527-555 | over whole runs they take turns exactly if no such check is in it |
| Registry.NeverRemovedTakesTurns | node/src/controller/discovery.rs:527-555 | of a node that's never removed they always do |
| Registry.LastHeardIsTrueWhen | node/src/controller/discovery.rs:527-555 | the last event of an approved node agrees with whether it's healthy exactly if it was checked since its approval or that event was offline |
| Registry.LooksAndOffersAreHarmless | node/src/controller/discovery.rs:108-148 | looking an announcement up changes nothing, and unless it's a move, acting on it changes only what's found |
| Registry.MovesAreHarmlessWhen | node/src/controller/discovery.rs:124-130 | acting on a move, however late, approves no node and changes no key exactly if the node is still approved with the key looked up; then only its address changes |
| Registry.LateMoveApprovesAnew | node/src/controller/discovery.rs:305-349 | removed in between, the node is approved anew by its announcement, its key trusted and a relay running |
| Registry.AnnouncementsAreHarmless | node/src/controller/discovery.rs:108-148 | with nothing in between, an announcement approves no node and changes no key; it moves only a node that holds its pinned key |
| Registry.IgnoredIsNotOffered | node/src/controller/registry.rs:161-186 | a dismissed or removed node's key isn't offered again over any run |
| Registry.RemovedIsNotOffered | node/src/controller/registry.rs:111-119 | so a removed node's key is not offered over any run after |
| Registry.DismissedIsNotOffered | node/src/controller/registry.rs:161-186 | nor is a dismissed one's |
| Registry.NodeRegistry.Upsert | node/src/controller/registry.rs:84-107 | a node is entered, pinned and no longer found; an update keeps its relay |
| Registry.NodeRegistry.Remove | node/src/controller/registry.rs:111-119 | a node and its pin go, its relay is cancelled, its key isn't offered again |
| Registry.NodeRegistry.RecordFailure | node/src/controller/registry.rs:221-232 | failures in a row are counted, and a new reason told |
| Registry.NodeRegistry.FoundMissed | node/src/controller/discovery.rs:438-444 | one more failure in a row is counted for a found node |
| Registry.ThirdMissDrops | node/src/controller/discovery.rs:438-444 | a found node outlasts two failures in a row and is dropped at the third, others untouched |
| Registry.Discovery.RecordResults | node/src/controller/discovery.rs:527-555 | a round of results is the run of its checks |
| Power.StepIsSound | node/src/power.rs:59-108 | every caller's change and every step of the worker keeps: displays are the live handles, what was sent ends with what is wanted, and what is held only moves on |
| Power.EveryRunIsSound | node/src/power.rs:59-108 | in every interleaving the last of what is held, in hand and queued is what is wanted; with the queue drained what is held is |
| Power.StartIsSound | node/src/power.rs:59-108 | so it is from the program's start on |
| Power.RunComesTo | node/src/power.rs:37-108 | after any run from the start, once the worker has nothing left to do, screens are held awake exactly if more were opened than closed, and the machine exactly if so or if that was last said |
| Power.LeftAloneItSettles | node/src/power.rs:96-102 | the worker always finishes, in three steps more than the queue is long, holding what is wanted |
| Power.ScreensFollowHandles | node/src/power.rs:37-45 | screens stay awake exactly while a handle is alive, and the machine with them |
| Power.StepIsCounted | node/src/power.rs:66-76 | the count of displays never underflows |
| Power.Power.Change | node/src/power.rs:78-87 | a change is sent exactly if it takes other locks |
| Power.Power.Drain | node/src/power.rs:96-102 | the worker's loop holds the last it takes |
| MountPath.Slug | node/src/pipeline/rtsp.rs:78-87 | the loop over a segment's characters |
| MountPath.SlugIsWords | node/src/pipeline/rtsp.rs:75-88 | a segment comes to its words, the longest stretches of characters kept, in lower case with one dash between |
| MountPath.CleanStays | node/src/pipeline/rtsp.rs:75-88 | a segment stays as it is exactly if it's empty or of safe characters with single dashes inside |
| MountPath.MountPathIsSafe | node/src/pipeline/rtsp.rs:70-95 | every path is one or more such segments, each after a slash, whatever was asked for |
| MountPath.SafeStays | node/src/pipeline/rtsp.rs:70-95 | such paths are exactly the ones that stay as they are under any channel name |
| MountPath.SplitIsExact | node/src/pipeline/rtsp.rs:75-94 | splitting and joining lose nothing |
| MountPath.MountPathIsIdempotent | node/src/pipeline/rtsp.rs:70-95 | a path asked for again stays the same under any name |
| MountPath.PathIsOf | node/src/pipeline/rtsp.rs:70-78 | a path asked for is used, whatever the channel is called, if there's more to it than slashes, and if not the channel's name is |
| MountPath.NameIsItsPath | node/src/pipeline/rtsp.rs:70-95 | a channel's name of safe segments is its path |
| MountPath.NothingIsChannel | node/src/pipeline/rtsp.rs:88-94 | a name with nothing to keep comes to a path of its own |
| MountPath.IdentityIsIdempotentWhen | node/src/pipeline/output.rs:139-162 | filling in the channel's name again changes nothing under any name, exactly if an NDI output without a name of its own got a trimmed, non-empty one |
| MountPath.RenameChangesWhen | node/src/pipeline/output.rs:135-162 | a rename changes an output exactly if it's called after the channel and the names come to something else |
| MountPath.IdentitiesAgreeWhen | node/src/pipeline/output.rs:135-162 | two outputs have one identity exactly if they're of one kind with the same settings, and called or served by the same |
| Timecode.StampsCountExactly | node/src/pipeline/timecode.rs:75-89 | every frame's exact time rounded down to a nanosecond counts as that frame, negative ones too, exactly if a frame lasts over 1000 ns |
| Timecode.FramesAreStretches | node/src/pipeline/timecode.rs:75-89 | each frame owns one stretch of time, from 1000 ns before its exact time rounded up to the next one's |
| Timecode.CountIsMonotone | node/src/pipeline/timecode.rs:75-89 | later moments never count as earlier frames |
| Timecode.AfterComposes | node/src/pipeline/timecode.rs:75-89 | counting to a frame and on from there is counting straight to the end |
| Timecode.AfterIsTheOwner | node/src/pipeline/timecode.rs:75-89 | the frame given is the one whose stretch the moment is in, unless it's further off than 64 bits count |
| Timecode.AfterIsCounted | node/src/pipeline/timecode.rs:75-89 | the count fits 64 bits at any rate of up to a frame a nanosecond, but for the last microsecond of times |
| Capacity.FromRuns | node/src/capacity.rs:190-237 | the loop keeps just the runs that stand for themselves |
| Capacity.ProfilesDontMatch | node/src/capacity.rs:190-237 | no two profiles are of the same setup and matching formats |
| Capacity.EveryRunIsRepresented | node/src/capacity.rs:190-237 | every completed run with steps is represented by one at least as new |
| Capacity.MatchedRunCanStand | node/src/capacity.rs:134-139 | matching isn't transitive |
| Capacity.MatchesWhen | node/src/capacity.rs:134-139 | formats match exactly if they're of one size at frame rates less than a hundredth apart |
| Capacity.ChosenIsBest | node/src/capacity.rs:206-215 | a run's writes are from its last full pass at the answer if any, and from a passing step if any passed |
| Capacity.MeasuredFormatIsExact | node/src/capacity.rs:246-258 | looking up the format and setup of a run that stands gives that run's answer, not an estimate |
| Capacity.LookupIsOfTheNearest | node/src/capacity.rs:246-269 | only a setup never measured is unknown; a matching format isn't scaled, another is from the nearest |
| Capacity.UnknownFormatIsTheNewest | node/src/capacity.rs:253-255 | where the source's format isn't known the newest run of the setup answers, as an estimate |
| Capacity.NearestIsNearest | node/src/capacity.rs:260-266 | the first of the profiles whose pixel rate is the least factor away |
| Capacity.NearerWhen | node/src/capacity.rs:260-266 | nearer is the smaller factor between pixel rates, either way |
| Capacity.EstimateMeans | node/src/capacity.rs:246-269 | an estimate is as many times as many feeds as the format has fewer pixels a second |
| Capacity.EstimateOfNothing | node/src/capacity.rs:246-269 | in a format without pixels the estimate is infinite, or no number |
| Capacity.LoadOf | node/src/capacity.rs:320-332 | the loop that adds feeds up, rounding each time |
| Capacity.VerdictMeans | node/src/capacity.rs:168-179 | feeds are over exactly if they come to more than the node, else unknown if the setup of one was never measured, else tight or fitting by 0.8 of it |
| Capacity.EstimatedWhen | node/src/capacity.rs:320-332 | they're an estimate exactly if one of them is |
| Capacity.ShareMeans | node/src/capacity.rs:151-155 | a feed's share is one over how many are sustained, and twice the node for a setup that can't sustain half of one |
| Capacity.TotalAdds | node/src/capacity.rs:320-332 | before rounding, load is additive over concatenation |
| Capacity.SameFeedsWeighTheSame | node/src/capacity.rs:320-332 | before rounding, load doesn't depend on the order of feeds |
| Capacity.MoreFeedsWeighMore | node/src/capacity.rs:168-179 | adding feeds anywhere among others never lowers the rounded load, nor the verdict |
| Capacity.AnswerIsTheLine | node/src/capacity.rs:151-179 | of the setup and format measured, fewer feeds than the benchmark's answer are never over and more always are; fewer than four fifths of it fit comfortably and more never do; just as many, or just four fifths, are judged so exactly for the answers that don't tip over |
| Capacity.NineOfNineAreOver | node/src/capacity.rs:151-179 | nine feeds on a node whose benchmark came to nine are over |
| Capacity.TotalIsNear | node/src/capacity.rs:320-332 | rounding takes the load of n feeds no further off than n parts in 2^52 |
| Capacity.OrderSeldomMatters | node/src/capacity.rs:168-179 | feeds in another order get the same verdict unless their load is that near to a line |
| Capacity.OrderCanTip | node/src/capacity.rs:168-179 | on the line five feeds are over in one order and not in another |
| Capacity.OrderCanTipFor | node/src/capacity.rs:168-179 | so for five runs of five setups that came to 2, 5, 6, 12 and 20 feeds |
| Tipping.TippingIsExact | node/src/capacity.rs:151-179 | which answers up to the benchmark's limit on feeds tip over, all and no others, and of which four fifths do |
| Tipping.OrderTips | node/src/capacity.rs:320-332 | a half, a fifth, a sixth, a twelfth and a twentieth come to more than one in one order and not in another |
| Shares.OffTheLine | node/src/capacity.rs:151-179 | fewer shares than make up the node never add up to more, and more always do, for answers to a million |
| Shares.OffFourFifths | node/src/capacity.rs:151-179 | the same at four fifths |
| Shares.UnitsAgree | node/src/capacity.rs:320-332 | sums come out the same whatever power of two one is counted in, so whole numbers stand for floating-point ones |
| Float64.RoundIsNearest | node/src/capacity.rs:320-332 | no number of 53 bits is nearer than the rounded one |
| Float64.RoundIsNear | node/src/capacity.rs:320-332 | rounding is off by at most one part in 2^53 |
| Float64.AddIsMore | node/src/capacity.rs:320-332 | adding never loses what was there |

## Left out

- SQL, its types and migrations: the run table is a map from keys to rows, with the unique key on schedule and planned start.
- Row ids: a counter stands for random UUIDs, so ids never repeat.
- Scheduler.Scheduler.StartRun: requests of one start are sent one after the other, where the program sends each kind concurrently; the wait before playouts, and reading the presets, have no step of their own.
- Scheduler.Scheduler.RunAll: a schedule's rule is fixed, ids of deleted schedules are never used again, the clock doesn't go back, and time zones don't set it back by 21 hours or more within twelve days of a tick; a rule edited while it runs is not modelled. A schedule dropped while a tick goes on is dropped before or after it, not during.
- Starts.NextAfterIsNext: dates are unbounded; the date library's limits on years are not modelled.
- Search.NextIsUseful: counts are unbounded, where the program doubles 32-bit numbers; its limits on feeds are far below where that could wrap.
- Memory.FitsLeavesFloor: rooms and margins are exact rationals where the program uses floating-point numbers.
- Benchmark.MeasuredIsSound: what a step measures, pauses, the published progress and the closing message are outside; a run broken off by an error or the operator just ends.
- NodeClock.StepIsSound: the offset a controller claims is stored, but nothing is said of which clock it belongs to, since the program keeps the last accepted claim's, whatever clock is in use.
- NodeClock.NodeClock.SwitchTo: failing to make a network clock is only modelled for PTP; statistics, clock objects and threads' timing are outside.
- MoveFiles.FileSystem.MoveFiles: empty folders, links, permissions and other processes' changes are outside; a failed rename changes nothing.
- MoveFiles.FileSystem.Swap: only the file moves of the Windows update, not unpacking; the macOS and Linux swaps are two renames.
- Updater.Updater.Check: requests' timing is outside; channels set while a round is asked about are a parameter, and in the object they stop changing at some point.
- Updater.Newest: versions are numbers standing for precedence (section 11 of Semantic Versioning 2.0.0).
- Registry.EveryRunIsSound: counts of failures are unbounded, where the program's have 32 bits; the database and the pairing code are outside, and stored nodes are loaded only while unknown.
- Power.EveryRunIsSound: the operating systems' locks, and a worker that couldn't be started.
- MountPath.MountPathIsSafe: Unicode is any lower-casing and white space that leave the safe characters and slashes alone and yield no upper-case ASCII letters.
- Timecode.AfterComposes: a timecode is a frame count; labels and dropped frame numbers are the video library's.
- Capacity.AnswerIsTheLine: floating-point exponents' limits are not modelled; a load is a whole number of units of which one has 2^256. At the line itself it speaks of answers up to 128, the most feeds a benchmark tries (node/src/benchmark/mod.rs:46).
- Capacity.LookupIsOfTheNearest: frame rates, pixel rates and feeds scaled from another format are exact, and nearness by the logarithm of a quotient is nearness by the quotient itself.
- Setup keys, `per_format`'s counting and sorting for display, and run details copied into a profile.
- Video pipelines, windows, tray, TLS, HTTP and WebSocket handlers, mDNS, logs and storage listing.
