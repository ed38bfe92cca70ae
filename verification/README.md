# ModelDeck in Dafny

A model of the parts of ModelDeck that are hard to get right, and proofs of what they keep. ModelDeck serves
local AI models behind one gateway: it throttles work by temperature, routes public model names to local
Workers, guides operators through setting up a capability, qualifies candidate models with a frozen schedule of
requests, and exports and imports its state.

`dafny verify dfyconfig.toml` checks everything.

| Files | What they model |
|---|---|
| ThermalPolicy, ThermalRuns, ThermalHysteresis, ThermalAccounts, ThermalService | the thermal state machine, admission, poll accounting and the status file |
| Schedule, ScheduleProperties, ScheduleCounts | the frozen request schedule |
| AttemptJournal, Runner, JournalSafety | the attempt journal, the request loop with its pacing, and reading a torn journal |
| Statistics, Qualification, QualificationProperties, QualificationReasons | percentiles, the Wilson interval, request gates and review aggregation |
| StateArchive, StateArchiveProperties, StateImport | exporting, validating, extracting and importing state |
| Routing, RoutingReports, ControlPlane, ControlPlaneService, RoutingOperations, RoutingInvariant, PublishedRouting | routing profiles, policies, evidence and the management operations |
| GuidedPublication, Setup, SetupService, SetupSafety, SetupEndings, SetupRequests, SetupPublication | guided setup: publication with rollback, the setup protocol, how it ends, what becomes of cancellation requests, and whether a publication stays uncancelled |
| Common, Sorting, Text | shared types, a canonical sort, decimal texts |

Objects that change step by step are classes or methods (the state machine, the policy manager, the journal, the
disk, the control plane's store, the setup document); each method is proved against a function of the old state, and the
properties are lemmas about those functions and about runs of them.

What is assumed: SHA-256 is injective (a constructor); JSON encoding is a parameter that decodes back, has no
line breaks and no decodable strict prefix; numbers are reals, with a not-a-number and infinities where sensors
can give them; the square root in the Wilson interval is any non-negative real whose square is the radicand;
the model cache, the supervisor, probes and the clock are parameters. Static tables (protocol contracts,
capability matchers) are parameters too. The SQLite store is modelled as maps, append-only revisions and tests newest
first, following `backend/modeldeck/compatibility/store.py`; a refused transaction changes nothing. API model
names are lower case by their pattern, so the case folding of routes is the identity; Worker names are folded by
a parameter.

## Where the code falls short of a property

Each of these is proved with a concrete case or an exact condition.

- The reported peak temperature does not bound the readings when the first sampled one is not a number: no later
  comparison replaces it. It also lags while the critical handler runs, and for good if the poll is cancelled there
  (`PeakBoundsReadingsExactly`, `LeadingNotANumberStays`, `PeakLagsBehindTheHandler`).
- Rotating the arms and reversing odd blocks cancel out for two arms, so a two-arm development run and every
  holdout run all blocks in the same order (`CounterbalancedOnlyFromThreeArms`, `HoldoutIsNeverCounterbalanced`).
- A further review can clear `factual_quality`: by asserting more it enlarges the denominator of the unsupported
  rate. It can exactly when it raises the maximum of asserted by more than fifty times what it raises the maximum of
  unsupported (`ReviewCannotClearFacts`, `ReviewCanClearFacts`).
- Archiving an unreferenced Worker from before capability policies can take away the grandfathered grant a live
  route of another Worker of the same cached Model relies on (`ArchiveKeepsRoutingExactly`,
  `ArchivingAGrantorBreaksARoute`). It cannot happen where the grants are also stored, as the migration to schema v4
  leaves them.
- A setup can make a second Worker exactly after the first is renamed or archived before the setup has recorded its
  id, which takes a death or an exception between the two writes (`SecondWorkerExactlyAfterReleaseInTheWindow`,
  `ReleaseInTheWindowHappens`).
- A cancellation requested while a setup makes, starts or qualifies its Worker is overwritten by the runner's own copy
  of the document (`RequestIsHonouredExactlyWhereItIsRead`, `RequestIsOverwritten`).
- A cancellation that waits for its Worker to stop while the setup is retried marks a running setup as cancelled. A
  running setup is always stored as unfinished exactly when no handler finishes with a write while the runner waits
  (`RunningIsShownExactlyWhenHandlersWriteAlone`, `LateCancelMarksARunningSetup`).
- A publication that has begun can still be cancelled, by a cancellation that was accepted before and waits for the
  Worker to stop; exactly then (`PublicationStaysUncancelledExactlyWithoutAWaitingCancel`,
  `PublishedSetupIsCancelled`).
- An accepted archive may still fail to extract, when one of its files is named above another member
  (`ExtractionSucceedsExactlyWhenNoFileIsAFolder`, `AcceptedArchiveFails`).

## Model

| member | source | states |
|---|---|---|
| ThermalRuns.EveryRunIsSound | backend/modeldeck/thermal.py:277-384 | In every run of the enabled machine, whatever telemetry arrives and however the clock behaves: a state other than telemetry-degraded is at least as severe as the entry band of the last accepted reading and no more severe than the band of some accepted reading; accepted readings are finite, credible and all from the selected sensor. |
| ThermalRuns.AdmissionNeedsACoolFreshReading | backend/modeldeck/thermal.py:437-550 | After any run and a refresh: background and benchmark work is let in only on a fresh, credible reading of the selected sensor below the warm threshold; model loads and heavy inference only below the hot threshold; an interactive request undegraded only below the warm threshold. |
| ThermalRuns.EveryRunLogsAPath | backend/modeldeck/thermal.py:393-414 | The transition log is a path from the initial to the current state, each entry starting where the previous one ended, and never stays in place. |
| ThermalHysteresis.ChangesAreLogged | backend/modeldeck/thermal.py:393-409 | Every change of state adds exactly one log entry, with the states, the reading that caused it, its age, and the reason. |
| ThermalRuns.CoolDownLowerBound | backend/modeldeck/thermal.py:360-391 | A run from entering CRITICAL to NORMAL takes at least D, the larger of minimum dwell and recovery step, and the configured number of accepted readings; without a pass through telemetry-degraded it takes 4 D and four times the count, whatever escalations happen on the way. |
| ThermalRuns.DropoutShortensCoolDown | backend/modeldeck/thermal.py:360-366 | The weaker bound is attained: with the default configuration a dropout right after CRITICAL brings NORMAL back after one dwell and three readings. |
| ThermalHysteresis.AcceptedExactly | backend/modeldeck/thermal.py:277-298 | A reading is accepted exactly if it names the selected sensor, carries a finite value from -20 to 125, is neither from the future nor older than the limit, and was not observed before; an unusable one loses telemetry and the count, a repeated one changes nothing. |
| ThermalHysteresis.InvalidExactly | backend/modeldeck/thermal.py:329-350 | Why a reading is not usable: the first of unavailable, unnamed, of another sensor, not credible, from the future and stale that applies. |
| ThermalHysteresis.RisesAndFallsExactly | backend/modeldeck/thermal.py:299-391 | Away from telemetry loss an accepted reading raises the state exactly if it reaches a higher threshold, and lowers it by one level exactly if it is below that level's own recovery limit and the count and both waits are met; a reading at or above the limit starts the count again. Told in the configuration's fields. |
| ThermalHysteresis.LeavesLossExactly | backend/modeldeck/thermal.py:360-366 | Out of telemetry loss a reading from the hot threshold on is believed at once, a cooler one exactly if the count and both waits are met. |
| ThermalHysteresis.StaysUntilCooledBelowTheLimit | backend/modeldeck/thermal.py:368-391 | Over every run that does not lose telemetry a machine at some level or above stays there while no accepted reading is below that level's recovery limit; at WARM or above it is never NORMAL before one below the warm recovery limit. |
| ThermalPolicy.AdmissionAgreesWithCapacity | backend/modeldeck/thermal.py:417-550 | No class of work is admitted for which the published capacity is zero; background and benchmark work is admitted exactly when theirs is not. |
| ThermalPolicy.SeverityIsMonotone | backend/modeldeck/thermal.py:417-550 | A workload admitted in a more severe state is admitted, and no more degraded, in every less severe one, and no capacity grows with severity. |
| ThermalHysteresis.AdmittedExactly | backend/modeldeck/thermal.py:437-550 | In which states each class of work is let in, and which refusal or degradation it meets otherwise, as if-and-only-ifs over all states. |
| ThermalHysteresis.CapacityExactly | backend/modeldeck/thermal.py:417-434 | Heavy capacity as configured up to WARM, one in HOT and without telemetry, none above; one model load up to WARM; background work in NORMAL alone. |
| ThermalService.ThermalStateMachine.Update | backend/modeldeck/thermal.py:277-313 | The machine object ends in exactly the state, counters, log and latched sensor that the pure policy step gives for its old state. |
| ThermalService.ThermalStateMachine.Refresh | backend/modeldeck/thermal.py:315-320 | Re-evaluating freshness changes the object as the policy's refresh does. |
| ThermalService.ThermalStateMachine.LeaveDegraded | backend/modeldeck/thermal.py:360-366 | Leaving telemetry-degraded: HOT and VERY_HOT at once, other states when recovery is ready. |
| ThermalService.ThermalStateMachine.StepDown | backend/modeldeck/thermal.py:368-391 | One step of recovery, as RisesAndFallsExactly tells it: count, reset or fall to the next lower state. |
| ThermalService.ThermalStateMachine.EnterState | backend/modeldeck/thermal.py:393-414 | A transition sets both clocks, resets the count and appends one log entry; staying only changes the reason. |
| ThermalService.SelectControlReading | backend/modeldeck/thermal.py:844-870 | The loop over telemetry items returns the configured sensor's first parsable value, or the first maximum by priority and value. |
| ThermalAccounts.BestIsHottestOfThePreferred | backend/modeldeck/thermal.py:848-870 | The automatic choice has the highest priority and is the hottest number within it, unless the first of them is not a number, and then, and only then, the choice is not a number. |
| ThermalAccounts.ControlReadingIsTheHottestPreferred | backend/modeldeck/thermal.py:844-870 | Without a configured sensor the control reading is the value of a ranked item: CPU control before GPU edge before other AMD sensors, and within its kind no hotter item unless it is not a number; none exactly if no ranked item has a value. |
| ThermalAccounts.ControlReadingIsOfTheSensor | backend/modeldeck/thermal.py:844-858 | With a configured or latched sensor it is that sensor's first value that parses, and no other sensor stands in for it. |
| ThermalService.ThermalPolicyManager.TakeSample | backend/modeldeck/thermal.py:725-750 | The part of a poll up to its first wait charges, reads, updates and calls the critical handler as specified, and records the peak only if it calls none. |
| ThermalService.ThermalPolicyManager.PollOnce | backend/modeldeck/thermal.py:725-762 | A whole poll with nothing interleaved is a sample, the return of the handler and a publication with the time at which the poll began. |
| ThermalService.ThermalPolicyManager.CreditThresholds | backend/modeldeck/thermal.py:730-733 | The loop over 75, 80, 83 and 85 credits exactly the thresholds the previous reading had reached. |
| ThermalService.ThermalPolicyManager.ReportStatus | backend/modeldeck/thermal.py:764-823 | A status call refreshes the machine and describes the state it is then in. |
| ThermalAccounts.EveryRunAccounts | backend/modeldeck/thermal.py:725-823 | On a clock that does not go backwards the seconds charged to the six states sum to last poll minus first poll, and the four at-or-above counters are nested and within that time, with status calls interleaved anywhere and polls cancelled while the critical handler runs. |
| ThermalAccounts.EverySecondIsCharged | backend/modeldeck/thermal.py:725-735 | In any run and on any clock the seconds of each state are those between polls through which the machine was in it, and those of each threshold those through which its reading was at or above it. |
| ThermalAccounts.HandlerCalledOncePerCriticalEntry | backend/modeldeck/thermal.py:740-750 | An installed critical handler has been called exactly once per logged entry to CRITICAL, with status calls while it runs and polls cancelled in it. |
| ThermalAccounts.PeakBoundsReadingsExactly | backend/modeldeck/thermal.py:750-756 | At any point of any run of samples, handler returns, publications, cancelled polls and status calls, the peak bounds all sampled readings exactly when each reading still waiting for the critical handler, or cancelled in it, is matched by a counted one, and the first counted one is a number or all are not. |
| ThermalAccounts.LeadingNotANumberStays | backend/modeldeck/thermal.py:753-756 | A concrete run: the first reading is not a number, the second is 90 degrees, and the peak stays not a number. |
| ThermalAccounts.PeakLagsBehindTheHandler | backend/modeldeck/thermal.py:748-756 | A concrete run: while the critical handler runs, a status call reports 90 degrees, CRITICAL and a peak of 70, and cancelling the poll there leaves it at 70. |
| ThermalAccounts.ReportedStateIsFresh | backend/modeldeck/thermal.py:923-955 | A reader told a state other than telemetry-degraded is told the true age of the reading behind it, at most the staleness limit, a state at least as severe as its band, and that state's capacity. The two stages do not add up to twice the limit: a poll publishes with the time of its own reading. |
| ThermalAccounts.ReadsTheFile | backend/modeldeck/thermal.py:923-955 | A status file within the limit is reported as it is, with its age added to the reading's; none, one from the future or an older one is telemetry-degraded; disabled is NORMAL. |
| ThermalAccounts.FreshnessBoundIsAttained | backend/modeldeck/thermal.py:923-955 | The bound is attained by a concrete run. |
| Schedule.MakeSchedule | backend/modeldeck/scenechat_experiment.py:180-218 | The nested loops build exactly the specified schedule, or refuse a holdout of more than two and a sustained run of other than one arm. Every request of a holdout names a holdout image of the corpus, of any other stage a development image, with its digest; the stages have at most one, three, five and one blocks. |
| Schedule.AppendBlock | backend/modeldeck/scenechat_experiment.py:199-217 | One block appends its loads in the block's arm order. |
| Schedule.StageImages | backend/modeldeck/scenechat_experiment.py:180-188 | A balanced corpus gives a holdout its 14 holdout images and a development or sustained run its 14 development images, by category and identity; a screen gets, of each of the first four categories, the development image with the smallest identity. |
| ScheduleProperties.ArmOrderAt | backend/modeldeck/scenechat_experiment.py:195-198 | Place k of block b holds arm (b + k) mod n, or arm (b + n - 1 - k) mod n when b is odd. |
| ScheduleProperties.CounterbalancedOnlyFromThreeArms | backend/modeldeck/scenechat_experiment.py:195-198 | All blocks run the arms in one and the same order exactly when there is at most one block or at most two arms. |
| ScheduleProperties.HoldoutIsNeverCounterbalanced | backend/modeldeck/scenechat_experiment.py:189-198 | A holdout takes at most two finalists, so each of its five blocks runs them in the same order. |
| ScheduleProperties.RequestAt | backend/modeldeck/scenechat_experiment.py:195-217 | Every slot of the schedule: where occurrence o of load k of block b sits and what it is. |
| ScheduleProperties.EveryLoadWarmsUpTwice | backend/modeldeck/scenechat_experiment.py:193-217 | Every request of each of the one, three, five or one blocks: a load starts with exactly two warm-ups on the stage's first image; then come questions 1 to 7 of each image in turn, with its digest, in that load's block and arm. |
| ScheduleProperties.IdentityDetermines | backend/modeldeck/scenechat_experiment.py:205-208 | The identity text determines stage, block, arm, image, question, warm-up and occurrence, although its fields have no fixed length. |
| ScheduleProperties.IdentitiesAreDistinct | backend/modeldeck/scenechat_experiment.py:204-217 | Request ids are distinct across the whole schedule. |
| ScheduleCounts.EveryQuestionIsMeasured | backend/modeldeck/scenechat_experiment.py:193-217 | Each arm measures each question on each image of the stage once in a screen, three times in a development, five in a holdout run; a sustained run twice, and three times on the first two images; and how many requests that makes. |
| ScheduleCounts.ScheduleIgnoresListingOrder | backend/modeldeck/scenechat_experiment.py:180-218 | Listing the same images or configurations in another order freezes the same requests. |
| AttemptJournal.Journal.Append | backend/modeldeck/scenechat_experiment.py:255-258 | Appending a record adds exactly its line to the text. |
| AttemptJournal.ReadAttempts | backend/modeldeck/scenechat_experiment.py:264-290 | The reading loop gives every scheduled row its status, tolerating an undecodable last line only without its line break. |
| AttemptJournal.ReadingIsExact | backend/modeldeck/scenechat_experiment.py:264-290 | For any text: reading is refused exactly if some line other than a last one without its line break does not decode; otherwise the last record of a row's attempt decides its status. |
| AttemptJournal.LinesMakeUpTheText | backend/modeldeck/scenechat_experiment.py:268-272 | The lines make up the text, none is empty, and each has at most one line break, at its end; all but the last have one. |
| AttemptJournal.EveryCutIsAPrefixOfRecords | backend/modeldeck/scenechat_experiment.py:264-290 | Cut the journal after any number of characters: reading never fails and gives the statuses after some prefix of the records, never beyond those whose every character but the last line break is there; the whole text gives all. |
| Runner.Execute | backend/modeldeck/scenechat_runner.py:306-476 | The request loop journals the attempts of the frozen rows in order, with at most one hanging, each started while its own block and arm was the one last loaded, and ends with the cleanup record. Every row with a started record passed its window and safety checks, its wait, its load where block or arm changes, and its image check; the failure is that of the first check that does not pass; and it is none exactly if every check of every row passes and a sustained run lasts two hours. |
| Runner.AwaitPacedStart | backend/modeldeck/scenechat_runner.py:314-321 | The waiting loop ends well exactly if the target is reached at once, or at a clock reading up to which every check passes. |
| Runner.AwaitTurn | backend/modeldeck/scenechat_runner.py:312-322 | A row waits well exactly if its checks pass and, measured in a sustained run, its paced start is reached, counted from when the first measured row was due. |
| Runner.LoadArm | backend/modeldeck/scenechat_runner.py:323-383 | A row is served exactly if its block and arm are those of the row before or the new arm loads and answers. |
| Runner.ExecuteSustained | backend/modeldeck/scenechat_runner.py:314-322 | Measured request k of a sustained run starts no earlier than k * 7200 / 209 seconds after the first was due; a run that gets through has 210 of them and lasts 7200 seconds, and the early-end error cannot occur. |
| Runner.SustainedScheduleIsNeverShort | backend/modeldeck/scenechat_experiment.py:200-204 | Every frozen sustained schedule has exactly 210 measured requests. |
| JournalSafety.EveryCutIsReadCorrectly | backend/modeldeck/scenechat_experiment.py:264-290 | For any run, even one ending in an exception, and any number of characters kept of its journal: finished rows with the statuses recorded, then at most one interrupted row, then not-started rows, in schedule order. |
| JournalSafety.NoUnfinishedAttemptSucceeds | backend/modeldeck/scenechat_experiment.py:264-290 | A row read as success was finished as success by the run. |
| Statistics.PercentilesIgnoreOrder | backend/modeldeck/scenechat_experiment.py:293-300 | Neither percentile depends on the order of the values. |
| Statistics.PercentileIsBoundedAndMonotone | backend/modeldeck/scenechat_experiment.py:293-300 | The interpolated percentile lies between minimum and maximum, attains them at 0 and 1 and never decreases in p. |
| Statistics.NearestRankBracketsInterpolation | scripts/benchmarks/benchmark_models.py:73-78 | For 0 <= p <= 1 the nearest-rank percentile is one of the two order statistics, at most one rank apart, that bracket the interpolated percentile of the same data. |
| Statistics.PercentileInterpolates | backend/modeldeck/scenechat_experiment.py:293-300 | With the values in ascending order and rank (n - 1) p between two places, the percentile divides the way between their values as the rank divides the way between the places; at a whole rank it is the value there. |
| Statistics.NearestRankIsTheFirst | scripts/benchmarks/benchmark_models.py:73-78 | The nearest-rank percentile is the value at the first place by which the share p of the values has been passed. |
| Statistics.WilsonIsSound | backend/modeldeck/scenechat_experiment.py:307-316 | For 0 <= successes <= total and total > 0, over the reals, 0 <= lower <= successes / total <= upper <= 1. |
| Statistics.WilsonTouchesTheEnds | backend/modeldeck/scenechat_experiment.py:307-316 | The lower end is 0 exactly when nothing succeeded and the upper end 1 exactly when everything did. |
| Statistics.WilsonIsSymmetric | backend/modeldeck/scenechat_experiment.py:307-316 | Counting failures instead of successes mirrors the interval. |
| Statistics.WilsonInvertsTheScoreTest | backend/modeldeck/scenechat_experiment.py:307-316 | A rate lies in the interval exactly if the observed rate differs from it by no more than 1.959963984540054 standard errors reckoned with that rate: the interval inverts the score test. |
| Qualification.GroupReviews | backend/modeldeck/scenechat_experiment.py:423-427 | Grouping refuses exactly the review lists in which somebody reviews an output twice, and otherwise gives each output its reviews in order. |
| Qualification.AggregateGroup | backend/modeldeck/scenechat_experiment.py:444-448 | The loop over a group computes the worst case of each count. |
| Qualification.DecideQualification | backend/modeldeck/scenechat_experiment.py:399-453 | The whole decision, visiting outputs in any order, equals the specified verdict. |
| Qualification.GateLatencies | backend/modeldeck/scenechat_experiment.py:410-419 | The latency gate is applied overall and for each of the seven questions. |
| QualificationProperties.ReviewOrderIsIrrelevant | backend/modeldeck/scenechat_experiment.py:423-453 | The same reviews in another order give the same result, refusal included. |
| QualificationProperties.TallyIsWorstCase | backend/modeldeck/scenechat_experiment.py:444-448 | Each aggregated count is the worst that any reviewer of the output gave, and somebody gave it. |
| QualificationProperties.TotalsAddUp | backend/modeldeck/scenechat_experiment.py:428-451 | Over all outputs supported plus unsupported never exceeds asserted, covered never exceeds relevant, and the rates are between 0 and 1, although maxima and minima may come from different reviewers. |
| QualificationProperties.MoreReviewsNeverHelp | backend/modeldeck/scenechat_experiment.py:428-453 | More reviews of outputs that have enough never raise the supported rate or the coverage and clear no reason except perhaps factual_quality. |
| QualificationProperties.ReviewCannotClearFacts | backend/modeldeck/scenechat_experiment.py:444-453 | One more review cannot clear factual_quality, in any context, if it adds at least one unsupported assertion per fifty asserted ones by which it raises the maxima. |
| QualificationProperties.ReviewCanClearFacts | backend/modeldeck/scenechat_experiment.py:444-453 | And otherwise it can: for any group and any such review there is a context in which factual_quality is a reason before and not after it. |
| QualificationProperties.PassingMeans | backend/modeldeck/scenechat_experiment.py:403-453 | A verdict without reasons means: all measured requests succeeded within the token limit, each question and the whole have all their durations with bounded numbers above 8 and 12 seconds, and every output has enough reviews, none unsafe. |
| QualificationReasons.PassesExactly | backend/modeldeck/scenechat_experiment.py:399-453 | A qualification is refused exactly if somebody reviewed an output twice, and otherwise passes exactly if something was measured, all of it succeeded, every latency gate holds, every output has enough reviews and no doubtful one, and the totals keep the three rates, in whole numbers. |
| QualificationReasons.RequestReasonsExactly | backend/modeldeck/scenechat_experiment.py:403-422 | When each reason from the requests is reported: failed or no requests, token limit, missing output, and each of the eight latency gates. |
| QualificationReasons.TooSlowExactly | backend/modeldeck/scenechat_experiment.py:410-419 | A latency gate fails exactly without requests, without some duration, or with a median over 8 or a 95th percentile over 12 seconds. |
| QualificationReasons.SubsetIs | backend/modeldeck/scenechat_experiment.py:410-415 | The gate of a question is given exactly that question's measured requests, each as often as it was measured, and the overall gate all of them. |
| QualificationReasons.ReviewReasonsExactly | backend/modeldeck/scenechat_experiment.py:428-443 | When each reason from the reviews is reported: an output with too few, two being needed if it was drawn for a second review or is doubtful, and each kind of doubt among the outputs with enough. |
| QualificationReasons.ContributionExactly | backend/modeldeck/scenechat_experiment.py:436-448 | An output without enough reviews adds nothing to the totals, one with enough the worst case of its reviews. |
| StateArchive.CheckMembers | backend/modeldeck/state_archive.py:61-72 | The loop reports the first objection to the members: empty, unsafe path, duplicate path or unsupported type. |
| StateArchiveProperties.RefusalExactly | backend/modeldeck/state_archive.py:61-72 | An archive is accepted exactly if it has members, each a file or folder with a relative path without double dots below modeldeck-state and unlike the earlier ones; otherwise the first member that is not decides which error. |
| StateArchiveProperties.PartsExactly | backend/modeldeck/state_archive.py:44-47 | A member name is read as the components between its slashes, empty ones and single dots left out. |
| StateArchive.Disk.MakeFolders | backend/modeldeck/state_archive.py:48-51 | Making a folder with its parents works exactly when no file is in the way, and adds only the missing folders. |
| StateArchive.Disk.Extract | backend/modeldeck/state_archive.py:35-58 | Nothing is written for a refused archive; otherwise members are placed in order up to the first that cannot be. |
| StateArchiveProperties.ExportIsAcceptedExactlyWhenPlain | backend/modeldeck/state_archive.py:26-72 | The members exported from a tree pass validation exactly when the tree is not a lone socket and holds only folders, files and sockets, which tar passes over; otherwise they are refused as unsupported, or as empty. |
| StateArchiveProperties.ArchiveRoundTrip | backend/modeldeck/state_archive.py:17-72 | Exporting any tree of folders, files and sockets and extracting it where nothing lies yet rebuilds exactly its folders and files and changes nothing else. |
| StateArchiveProperties.ExtractionIsContained | backend/modeldeck/state_archive.py:42-56 | Whatever accepted archive and however the extraction ends, nothing that existed changes and nothing appears outside the destination but folders leading to it. |
| StateArchiveProperties.ExtractionSucceedsExactlyWhenNoFileIsAFolder | backend/modeldeck/state_archive.py:42-58 | An accepted archive can be extracted into a fresh destination exactly when no file is named strictly above another member, whatever the order; the result is told from the members alone. |
| StateArchiveProperties.AcceptedArchiveFails | backend/modeldeck/state_archive.py:42-58 | The exception is real: two files, one named above the other, are accepted and stop the extraction, wherever it goes. |
| StateImport.Swap | backend/modeldeck/state_import.py:117-127 | Moving the previous state aside and the staged one in, stopped before any step: a source apart from the destination is unchanged, non-empty previous state is complete at exactly one of destination and backup, and the destination holds the previous state, nothing, or validated state. |
| StateImport.ImportDirectory | backend/modeldeck/state_import.py:50-88 | The same for a whole directory import, wherever it raises or is killed, and wherever source and destination lie, one inside the other included. It completes exactly if the source is importable and not above the destination, the parent folder can be made, the destination is free or a folder that may be replaced with its backup name free, and every step works; it then leaves a validated copy of the source, no scratch folder, and a backup exactly when there was state. A refusal changes none of the three places. |
| StateImport.ImportArchive | backend/modeldeck/state_import.py:91-130 | The same for an archive import, the archive inside the destination included. If the archive was exported from a tree, the import completes exactly if that tree is importable and the other conditions hold, and leaves exactly its folders and files; and it completes with no archive that fails the checks or has a file above another member. |
| StateImport.ExportedStateIsImportable | backend/modeldeck/state_import.py:28-47 | An exported tree is importable exactly if it is a folder whose own entry modeldeck.sqlite3 is a file with a sound database. |
| StateImport.Prepare | backend/modeldeck/state_import.py:68-74 | Until staging starts source, destination and backup path hold what they held; staging is reached exactly if the parent folder can be made, the destination is free or confirmed for replacement, and the system calls work. |
| StateImport.MoveAside | backend/modeldeck/state_import.py:77-87 | Existing state goes to the free backup path as it is; an empty destination is removed. |
| Routing.CapabilityEvidence | backend/modeldeck/capabilities.py:428-460 | The scan over the tests, newest first, gives the specified status and test. |
| Routing.EvidenceDecides | backend/modeldeck/capabilities.py:428-460 | The status is qualified or legacy exactly when some test proves the capability of the Worker as configured now, whatever failures and stale tests precede it; so recording tests never revokes a success. |
| RoutingReports.EvidenceExactly | backend/modeldeck/capabilities.py:428-460 | The newest proof decides the status and names its test; without one the oldest failure of the current configuration; without either it is stale if there is any test of the capability and not tested otherwise. |
| Routing.ComputePolicy | backend/modeldeck/v2_api.py:2101-2119 | Stored grants filtered by the model policy, with grandfathered grants only where nothing is stored, in any order of the Workers. |
| Routing.ValidateRoutingProfile | backend/modeldeck/domain.py:214-281 | The loops over bindings and Workers produce the specified errors, resolutions and verdict. |
| Routing.ValidExactlyWhenServed | backend/modeldeck/domain.py:214-281 | The report is valid exactly when every Worker of every binding exists, has the family, traits and settings its contract asks for, is granted the capability, and where demanded has a test that proves it. |
| RoutingReports.ReportExactly | backend/modeldeck/domain.py:214-281 | An error is listed exactly for each thing wrong with a Worker of a binding, under that binding and Worker; each binding is resolved to its Workers in order, the first as primary, each valid exactly if nothing is wrong with it. |
| ControlPlaneService.Service.RebindRoutingProfileDrafts | backend/modeldeck/compatibility/store.py:681-701 | After the loop every draft names the new Worker wherever it named the old one. |
| ControlPlaneService.Service.WorkerUsage | backend/modeldeck/v2_api.py:2057-2091 | The loop collects exactly the draft and active bindings that use the Worker; older revisions do not block. |
| ControlPlaneService.Service.ArchiveWorker | backend/modeldeck/v2_api.py:795-812 | An unreferenced stopped Worker is removed; any other archive is refused without change. ArchiveExactly says of which Workers that is. |
| ControlPlaneService.Service.CapabilityPolicyReferences | backend/modeldeck/main.py:596-650 | The loop collects exactly the draft and active bindings of the capability's contract that use a Worker of the cached Model. |
| ControlPlaneService.Service.SetCapabilityPolicy | backend/modeldeck/main.py:337-386 | Disallowing is refused while referenced; otherwise the grant is stored. |
| ControlPlaneService.Service.Conflicts | backend/modeldeck/compatibility/store.py:100-127 | The loop finds exactly the public names that another active profile already serves. |
| ControlPlaneService.Service.PublishRevision | backend/modeldeck/compatibility/store.py:515-532 | A revision is appended and made active, or on a name collision nothing changes. |
| ControlPlaneService.Service.PublishProfile | backend/modeldeck/v2_api.py:1198-1213 | A published draft is appended to its history and that revision is live with its snapshot; a refusal leaves revisions and routing as they were. |
| ControlPlaneService.Service.ReactivateRevision | backend/modeldeck/v2_api.py:1282-1301 | The requested stored revision is live afterwards with its own snapshot, and nothing else is; a refusal leaves routing as it was. |
| RoutingOperations.ReactivateExactly | backend/modeldeck/v2_api.py:1282-1301 | Reactivation is carried out exactly if the requested revision is stored, well formed and served in every binding and none of its public names is live in another profile; then it is live route by route, and every other profile, draft, revision, Worker, policy and test is as it was. |
| RoutingOperations.PublishExactly | backend/modeldeck/v2_api.py:1198-1213 | The same for publishing: the history is one longer, ending in the draft, and that revision is live; a refusal changes nothing, the history included. |
| RoutingOperations.ArchiveExactly | backend/modeldeck/v2_api.py:795-812 | A Worker is archived exactly if it exists, is stopped and no binding of any draft or live revision names it. |
| RoutingOperations.SetGrantExactly | backend/modeldeck/main.py:337-386 | A known capability is disallowed exactly if no binding of any draft or live revision needs its contract from a Worker of that cached Model; the one grant changes. |
| RoutingOperations.SetModelExactly | backend/modeldeck/main.py:426-463 | A known Model is disallowed exactly if no Worker is configured for it; the one policy changes. |
| RoutingOperations.CreateExactly | backend/modeldeck/v2_api.py:552-699 | A Worker is created exactly under a free name, for an allowed Model, with a capability that its runtime offers and the policy allows, and is stored as configured. |
| RoutingOperations.RenameExactly | backend/modeldeck/v2_api.py:709-724 | Renaming changes the name alone, exactly if no other Worker bears it. |
| RoutingOperations.ReplaceExactly | backend/modeldeck/v2_api.py:755-793 | A replacement is created beside a Worker made from a template; if asked for, every draft names the new one place by place, and what is published stays. |
| RoutingOperations.TestsExactly | backend/modeldeck/compatibility/store.py:798-830 | A qualification of an allowed capability is recorded passed or failed, as the newest test, bound to the configuration of now. |
| RoutingOperations.DraftsExactly | backend/modeldeck/compatibility/store.py:457-481 | When a draft is saved, discarded or deleted and a profile deactivated, and that nothing else changes. |
| RoutingOperations.EveryRunKeepsRecords | backend/modeldeck/compatibility/store.py:515-532 | Over every run of operations no published revision is altered or taken back and no test is lost. |
| RoutingInvariant.SetGrantKeepsRouting | backend/modeldeck/main.py:337-386 | A capability policy change never invalidates a live profile. |
| RoutingInvariant.SetModelKeepsRouting | backend/modeldeck/main.py:426-463 | A model policy change never invalidates a live profile. |
| RoutingInvariant.RenameKeepsRouting | backend/modeldeck/v2_api.py:709-724 | Renaming never invalidates a live profile: the fingerprint does not cover the name. |
| RoutingInvariant.TestKeepsRouting | backend/modeldeck/compatibility/store.py:798-830 | Recording any test, failed ones included, never invalidates a live profile. |
| RoutingInvariant.ActivateKeepsRouting | backend/modeldeck/compatibility/store.py:545-573 | Activating a valid revision keeps all live profiles valid and public names unambiguous. |
| PublishedRouting.ArchiveKeepsRoutingExactly | backend/modeldeck/v2_api.py:795-812 | Archiving an unreferenced Worker keeps published routing valid if and only if no live binding relies on a grant that only this Worker carries over from before capability policies. |
| PublishedRouting.ArchivingAGrantorBreaksARoute | backend/modeldeck/v2_api.py:2109-2119 | A concrete case: a recovered gemma4-general-chat-rocm Worker of google/gemma-4-E2B-it from before capability policies, and a later gemma4-general-chat-rocm-adaptive Worker of the same cached Model, created for image chat and serving openai-chat-v1. Creating it, saving a draft and publishing lead there; archiving the first is accepted, and the live route becomes invalid. |
| PublishedRouting.EveryRunKeepsRouting | backend/modeldeck/v2_api.py:553-1311 | Over every sequence of create, rename, replace, archive, qualify, test, policy change, draft change, publish, reactivate, deactivate and guided publication with its rollback, from a state where grandfathered grants are stored, every active revision still validates, its snapshot is that revision's, and no two live profiles share a public name. |
| PublishedRouting.FreshStoreHolds | backend/modeldeck/compatibility/store.py:133-137 | The store a service starts with satisfies what those runs start from. |
| PublishedRouting.EveryGuardedRunKeepsRouting | backend/modeldeck/v2_api.py:553-1311 | The same from any valid state, if no Worker is archived while it is the only grantor of a live binding. |
| PublishedRouting.EveryLiveRouteIsServed | backend/modeldeck/domain.py:214-303 | In every reachable state each Worker behind a live route exists and suits its contract, its Model is allowed, it is proven where demanded, and a public name belongs to one live route. |
| GuidedPublication.RollbackRestoresRouting | backend/modeldeck/v2_api.py:1571-1584 | If route verification fails after a publish, deactivating and reactivating what was live before restores the active revisions and snapshots exactly, whether or not they still validate, and no reactivation can be refused; the new revision and the saved draft remain. Only the store's own guarantees are needed. |
| GuidedPublication.PublishAndVerify | backend/modeldeck/v2_api.py:1537-1595 | The handler's publication ends in a conflict that changes only the draft, in serving the target as its newest revision, in the restored routing after an HTTP error, or, after any other exception, with the target still serving and no rollback; which of them is decided exactly. It is never stuck in the middle of a restore, and takes the step that the runs of the control plane take. |
| GuidedPublication.GuidedKeepsRouting | backend/modeldeck/v2_api.py:1518-1595 | However a guided publication ends, an escaping exception included, live profiles stay valid and public names unambiguous. |
| SetupSafety.EveryRunHasEvidence | backend/modeldeck/v2_api.py:409-515 | Over every interleaving of the setup runner, cancel, retry and publish at their waits, and deaths after any write with restart, a setup stored as awaiting-publication, publishing, verifying-route or succeeded carries a qualification that passed. |
| SetupSafety.EveryRunMakesAtMostOneWorker | backend/modeldeck/v2_api.py:428-432 | Over the same runs a setup creates at most one Worker, a death between storing the Worker and its id included, if no Worker is renamed or archived before its setup has recorded it. |
| SetupSafety.SecondWorkerExactlyAfterReleaseInTheWindow | backend/modeldeck/v2_api.py:428-432 | After any such run, renaming or archiving the Worker of the planned name leaves all further such runs with one Worker if and only if it was not a Worker its setup had yet to record. |
| SetupSafety.UnrecordedWorkerCanBeMadeAgain | backend/modeldeck/v2_api.py:409-441 | From every reachable state without a recorded Worker, once the planned name is free, the setup's own steps and a retry lead to one Worker more. |
| SetupSafety.ReleaseInTheWindowHappens | backend/modeldeck/v2_api.py:430-433 | The window is reachable: start, and die between storing the Worker and storing its id. |
| SetupSafety.RecordedWorkerStays | backend/modeldeck/v2_api.py:428-432 | In every run no stale copy of the document ever loses or exchanges the recorded Worker. |
| SetupSafety.ReconcilingTwiceIsOnce | backend/modeldeck/v2_api.py:1656-1730 | A second reconciliation changes nothing, and the first leaves nothing in progress but what is queued. |
| SetupRequests.RequestIsHonouredExactlyWhereItIsRead | backend/modeldeck/v2_api.py:409-494 | In every run a stored cancellation request is honoured by the setup's next step if and only if that step reads the stored document, being queued or cooling down; elsewhere it is overwritten unless the setup fails. A death before the next write keeps it, and the next start honours it. |
| SetupRequests.RequestIsOverwritten | backend/modeldeck/v2_api.py:430-441 | A concrete run from the start in which a stored request is lost. |
| SetupRequests.RunningIsShownExactlyWhenHandlersWriteAlone | backend/modeldeck/v2_api.py:1398-1410 | For every run: at every moment a setup that somebody runs is stored as unfinished, if and only if no cancel or publish handler that waited finishes with a write while the setup runner waits. |
| SetupRequests.StoredStateTellsWhatARequestDoes | backend/modeldeck/v2_api.py:434-494 | In exactly those runs, also: a stored request will be honoured by the next step if and only if the stored state is queued or waiting for thermal capacity. |
| SetupRequests.LateCancelMarksARunningSetup | backend/modeldeck/v2_api.py:1402-1410 | A concrete run that breaks it: a cancellation that waited for its Worker to stop marks a retried, running setup as cancelled. |
| SetupPublication.PublicationStaysUncancelledExactlyWithoutAWaitingCancel | backend/modeldeck/v2_api.py:1402-1410 | In every reachable state whose publication has begun: whatever happens next, the setup does not go from there to cancelled, if and only if nobody is waiting for its Worker to stop in order to record a cancellation. |
| SetupPublication.PublishedSetupIsCancelled | backend/modeldeck/v2_api.py:1404-1410 | A concrete run that breaks it: cancel a setup awaiting publication, publish it while its Worker is being stopped, and the late cancellation is stored over the success. |
| SetupEndings.HowASetupEnds | backend/modeldeck/v2_api.py:409-515 | In every run a wait of the runner that comes back ends the setup or goes on to the next wait, with exactly the specified document. An ended setup is stored as awaiting publication exactly if its probe passed, as failed exactly if a step raised or was refused or the probe was negative, whose evidence is kept, and as cancelled otherwise; only the wait for the Worker makes one. |
| SetupEndings.HowASetupStarts | backend/modeldeck/v2_api.py:409-433 | Only a setup that is queued or waiting for thermal capacity and not run by anybody is taken up; a stored request is honoured at once, a name in use fails, and otherwise the Worker is made or started. |
| SetupEndings.EveryPublicationWasReviewed | backend/modeldeck/v2_api.py:1518-1535 | In every run, deaths and restarts included, a setup that is publishing, verifying its route or succeeded was at some earlier moment awaiting publication with its Worker and a passed qualification, and a reviewed request came then. |
| SetupEndings.HowAPublicationGoes | backend/modeldeck/v2_api.py:1518-1595 | Publication begins exactly for a reviewed setup that awaits it and has its Worker; what is stored after a name conflict, another exception, and each ending of the verification. |
| SetupEndings.HowARequestGoes | backend/modeldeck/v2_api.py:1398-1428 | What cancelling and retrying make of the stored document in each state, and what a cancellation that waited stores. |
| SetupEndings.HowARestartGoes | backend/modeldeck/v2_api.py:1641-1730 | What reconciliation makes of each stored state; nothing but the state changes. |
| SetupService.Service.RunSetup | backend/modeldeck/v2_api.py:409-515 | The whole runner with its two retry loops, whatever the others do at its waits and however these end, makes exactly the writes of the run that the properties speak of. If it ends, the setup is stored as awaiting publication, cancelled or failed, as its last wait and the result decide; otherwise it waits where the script stops. |
| SetupService.Service.StartWorker | backend/modeldeck/v2_api.py:443-460 | The loop around starting the Worker, left by success, failure or a cancellation read after cooling down. |
| SetupService.Service.QualifyWorker | backend/modeldeck/v2_api.py:467-514 | The loop around the qualification, in the same way; if it ends, it is as the last wait decides, a negative qualification being kept with the failure. |
| SetupService.Service.Judge | backend/modeldeck/v2_api.py:495-515 | A probe that passed awaits publication with its evidence; a negative one fails with its evidence; any other exception fails. |
| SetupService.ReconcileSetups | backend/modeldeck/v2_api.py:1641-1730 | The loop over all stored setups gives each the specified state and schedules exactly those that are queued. |

## Left out

- HTTP handling, request parsing, streaming, the gateway's forwarding, the desktop controller and the frontend.
- SQLite itself, schema migrations, `published_at` and the order it gives to active snapshots, the legacy singleton table.
- Process supervision, model discovery and profile construction: one flag per operation says whether they allow it.
- The configuration lock, which only refuses, and Worker ports.
- Reading sensors, and parsing and naming of telemetry items: an item comes with its identifier, rank and parsed value.
- The safety monitor's threads and timing: one flag per pass of the request loop says whether its checks hold.
- The tar byte format, file modes and times; hard links count as entries tar does not store as files.
- Exclusive creation of the export file, and the disk running full in the middle of one file.
- `..` in a member name is resolved lexically; on a disk without symbolic links in the staging folder that is what the system does.
- `freeze`'s digest of the execution path, image files and their checks, and the report's per-question and per-scene summaries.
- `blind_outputs`: which outputs need a second review is an input here.
- `release_decision`, `benchmark_history`, `async_execution`: independent checks and conversions that would add only easy members.
- Floating-point rounding in percentiles, rates, the Wilson interval and the clock.
- StateImport.ImportDirectory: the source is taken not to change while it is copied, and copying a tree into itself, as a destination inside the source asks for, is taken to raise.
- StateImport.ImportArchive: the scratch name is taken not to be in use.
- Runner.Execute: a request's start is measured after its wait and load, which only makes starts later.
- The setup's request handlers and the management operations without a loop: they are functions on values, with no method that changes a store.
- SetupSafety.EveryRunHasEvidence: says nothing of the tool-calling rehearsal, whose result the handler does not inspect.
- GuidedPublication.PublishAndVerify: no other handler runs while the route is exercised.
- PublishedRouting.EveryRunKeepsRouting: operations run to completion one after another; a restart that fails to load a Worker is not modelled.
