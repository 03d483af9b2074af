# Itinerary solver and request governor: a verified model

The repository plans trips. Its solver places attractions on trip days, routes every day with an
external search, repairs what the search dropped, and re-checks the result. Beside it runs a
governor that many processes share: it spaces the requests to an external provider, limits them
per day and opens a circuit after repeated failures. This project models both and proves what
they promise for every input, every answer of the search and every interleaving of clients.

## The solver

* `Models`, `TimeWindows`, `VisitPeriods` hold the records, the date rules, the opening windows and
  the search for the nearest occurrence of a preferred period of the day. Dates are day ordinals,
  minutes are integers, ratios are exact reals.
* `Calendar` defines leap years, months and the count of days apart from the decoding of ordinals and
  proves that every date of every year is decoded to itself. Rules
  and weekdays are stated in its terms.
* `Timeline` states what a decoded route satisfies (`SoundRoute`): entry windows and day bounds,
  lengths, stored travel equal to the travel data, and arrivals after the buffered travel.
* `Validation` is the independent re-check of a day. `HardFeasible` says in plain terms what C1
  (closures), C2 (windows, lengths), C4 (day bounds), C5 (weather) and C6 (buffered travel) ask;
  the report is proved empty exactly on such days, and each possible entry is proved present
  exactly when its constraint is broken there.
* `Routing` decodes a search answer. The search is a function of the number of the call, the day's
  plan and an optional terminal. It may answer differently every time it is called and is bound
  only by `ObeysModel`, the constraints the code itself adds: different successors, a self-loop for
  a dropped node, windows for the arrival, the time inequality along used arcs, and no arc without
  travel data. Nothing forbids subtours; that there are none follows from the times.
* `Refinement` and `RefinementProofs` stretch stays, insert lunch and delay visits. No stay gets
  shorter. `LunchMoves` says when a stop comes earlier than it was routed: only the stop that lunch
  is put before, and exactly if it was routed later than lunch leaves it. `LunchSetsGardenBack` is a
  day, from its search to its end, on which that happens. `RefinementChoice` describes every schedule
  that is considered, stop by stop, and proves which one is taken: one with a lunch hour if any has
  one, then the longest stays, then the end nearest to the afternoon target, then the earliest end.
* `Segments` and `SegmentProofs` route the evening and the daytime separately, join them by one
  common delay of the evening or reject the evening whole, and place dinner.
* `Assignment` and `AssignmentProofs` are step 1: the data gate, and the greedy placing of every
  eligible attraction on a day. `AssignmentChoice` says which day that is, and what it means for the
  finished plan: outside leisure mode nobody is kept from a nearer day that could still take them, and
  in any mode nobody is left out whom some day could still take.
* `Itinerary`, `BoardFacts`, `Phases`, `FinalPhase` and `Planner` are `route_itinerary`: route every
  day, offer every dropped attraction to the other dates nearest first, route every day again. Each
  loop is a method proved equal to a specification function, and the promises are lemmas about
  those functions. `RescueOrder` pins the rescue down by distances in days: the nearest date that
  accepts is taken, and the nearer ones are recorded with their refusals; `RescueReport` reads the
  same off the finished itinerary. `TripEnds` shows that it keeps the traveller's arrival and departure.
* `DinnerLimit` says exactly how late a day may leave for its evening and still be sure of a full
  dinner it had room for; `SmallRuns` holds searches of one or two stops, with which this and other
  limits are shown.
* `ConservationLimit` says exactly which plans the itinerary stage conserves whatever the search
  answers: those in which no id is both allocated and unplaced. The other plans can lose an
  attraction, because the final phase skips a drop whose id is already listed; step 1 never makes
  such a plan.
* `Quality` is the gate at the end, and `PlanTrip` the whole pipeline.
* `DataValidation` is the raw-data check of parsed time rules, compared with the solver's own rules.
* `Closeness` scores an itinerary against a reviewed baseline; explanations and component scores are
  computed by separate code and proved to agree.

`route_day` raises on an allocation shorter than 60% of the suggested duration and on a buffer ratio
below 1. `ItineraryRoutesIff` shows that these, an allocation on a foreign date and a repeated date
or id are all that makes the itinerary stage raise. `PlanTrip` therefore states exactly when the
whole run raises: on inputs step 1 does not accept, and if something is planned with a buffer below
1 or a stay below the floor. `FloorsSuffice` and `FloorsAreNeeded` relate this to the duration ratio
0.6. Durability of rescues is proved for a search that answers the same question the same way;
conservation and safety are proved for every search. `RescueLimit` is a search that changes its mind:
it obeys the model, takes an attraction on another date and leaves it unvisited there in the end. A
retained attraction may be dropped in the final phase too; it is then accounted for as unplaced.

Every final day carries the best dinner its gaps admit. The source describes a full dinner gap before
the evening as preserved. The gap is, but not always inside the dinner window: the days that have
room for a full dinner before leaving for the evening at a given minute are all served one if and
only if that minute is no later than the end of the window.

Every lemma switches automatic induction off, so each inductive proof shows its own recursion.

## The governor

* `Governor` has the stored state, its operations on a mutable record, and the file-backed governor,
  whose lock makes each operation one step.
* `GovernorSafety` proves what holds over every run of operations in commit order. `now` is read
  before the lock or the transaction, so the readings of a run are arbitrary. Spacing holds for any
  clock readings, across midnight as well. The daily budget and the open time of the circuit do
  not: `SkewDefeatsBudget` and `SkewShortensCircuit` are runs of three calls in the UTC calendar
  that break them.
* `ClockConditions` says exactly which clock readings keep those two promises, for every choice of
  operations. The budget is kept if and only if the readings do not leave a quota day and return
  to it with room for one more spaced request than the budget allows; for all intervals and budgets
  together, if and only if no reading of another day lies between two readings of one day that are
  in order. An opened circuit keeps its time if and only if no reading in between is so old that
  its own open time would be over first.
* `CircuitCount` and `HistoryAnswers` read every answer off the calls and answers before it: when a
  failure opens the circuit, which limit blocks a request and until when, and what a snapshot counts.
* `RedisGovernor` has any number of clients doing WATCH, GET, compute, MULTI/EXEC with retry.
  Versions stand for Redis's own check that a watched key is untouched. Every interleaving is
  explained by a serial run in commit order, in which a blocked request, which writes nothing,
  stands where it read. Its entries are exactly the operations that took effect, each once; every
  call is accounted for; an operation that returned before another was called comes first; and the
  exact clock conditions hold for interleaved clients as they do for one.

## Model

| member | source | states |
|---|---|---|
| VisitPeriods.BestOffset | src/travel_agent/solver/visit_periods.py:82-102 | within the scanned range no occurrence is closer, and every earlier one is strictly farther |
| VisitPeriods.PreferredOffsetIsOptimal | src/travel_agent/solver/visit_periods.py:70-102 | the bounded scan finds the lexicographic minimum over all integer day offsets, and the first of equals |
| VisitPeriods.DeviationIsDistance | src/travel_agent/solver/visit_periods.py:37-67 | the deviation is the distance to the nearest of all occurrences of the preferred bucket |
| VisitPeriods.DeviationBound | src/travel_agent/solver/visit_periods.py:37-102 | zero exactly in the preferred bucket; at most 360, 570, 510 minutes for morning, afternoon, evening |
| VisitPeriods.EvaluationIsPeriodic | src/travel_agent/solver/visit_periods.py:24-67 | shifting the arrival by whole days changes nothing in the evaluation |
| VisitPeriods.OutcomeIsExact | src/travel_agent/solver/visit_periods.py:37-67 | preferred inside some occurrence of the preferred bucket, acceptable inside one of an accepted bucket, fallback outside of all |
| TimeWindows.EffectiveWindowIsExact | src/travel_agent/solver/time_windows.py:23-65 | a window resolves exactly when the attraction is always open or one rule covers the date, each refusal has its exact cause, and the arrivals admitted are exactly those from which a minimum stay fits the rule, or the day for an attraction that is always open |
| Calendar.OrdinalIsDecoded | src/travel_agent/solver/models.py:235-241 | every day of every year, counted by leap years and lengths of months, is decoded to its own month and day |
| Calendar.EveryDateIsACalendarDay | src/travel_agent/solver/models.py:235-241 | every ordinal from 1 on is a calendar day, and the one it is decoded to |
| Calendar.RuleCoversCalendarDays | src/travel_agent/solver/models.py:235-241 | a rule covers exactly the days of a year from its first to its last, or those outside of the gap between them if it wraps |
| Calendar.WeekdaysFollow | src/travel_agent/solver/availability.py:14-26 | weekdays follow each other from Monday to Sunday, starting from a known Monday |
| TimeWindows.MayVisitIff | src/travel_agent/solver/availability.py:14-26 | one-off closures, then one-off openings, then the weekday counted from a Monday; and only a forecast of extreme weather keeps an outdoor attraction from being visited |
| TimeWindows.FitsDayIsExact | src/travel_agent/solver/segments.py:472-485 | the check made of every visit is that its whole stay lies in the day and is admitted by the one rule of the date, last entry included |
| TimeWindows.DayBoundsAreExact | src/travel_agent/solver/anchors.py:19-49 | a day admits a stretch exactly if it begins after the way to the city on the first day, leaves time for the way back and the check-in on the last, and lies between 9:00 and 21:00 otherwise |
| TimeWindows.MinutesAreRoundedUp | src/travel_agent/solver/transport.py:134-180 | minimum stays and buffered travel are the least whole minutes that reach their share |
| TimeWindows.MatchingRulesMembers | src/travel_agent/solver/time_windows.py:46-50 | the filter is empty exactly when no rule matches the date, and ambiguous exactly when two different positions match |
| Routing.WalkIsSimple | src/travel_agent/solver/routing.py:248-292 | the walk from a visited node ends, meets no node twice and never goes back in time |
| Routing.ActiveIsVisited | src/travel_agent/solver/routing.py:238-292 | every node that is no self-loop lies on the walk from the depot: no subtour survives the time constraints |
| Routing.TourAndDroppedPartition | src/travel_agent/solver/routing.py:238-292 | walked and dropped nodes are the indices 1 to n, each once |
| Routing.WalkSuccessors | src/travel_agent/solver/routing.py:248-292 | the loop decodes exactly the depot walk, and its running totals are the sums over the visits' travel |
| Routing.RouteDay | src/travel_agent/solver/routing.py:61-302 | routing a day is the specification: the same errors in the same order, otherwise the decoded route |
| Routing.RoutePartitions | src/travel_agent/solver/routing.py:219-302 | scheduled and unplaced attractions together are the day's allocations, for any obedient answer |
| Routing.RouteIsSound | src/travel_agent/solver/routing.py:131-198 | the decoded route satisfies windows, bounds, lengths and buffered travel, and its period evaluations are current |
| Routing.RouteErrorsAreExact | src/travel_agent/solver/routing.py:79-96 | routing raises for a buffer below one, then a repeated id, then the first allocation with a foreign date or too short a stay, and for nothing else |
| Routing.UnplacedCodesAreExact | src/travel_agent/solver/routing.py:219-247 | an unplaced attraction says whether the search ran out of time, found nothing or left it out |
| Validation.ValidateRoutedDay | src/travel_agent/solver/routing.py:343-429 | the loops report what the specification lists, or raise at the first invalid connection |
| Validation.ViolationsExact | src/travel_agent/solver/routing.py:343-429 | a violation is reported if and only if that constraint is broken for that attraction and code |
| Validation.ValidIffHardFeasible | src/travel_agent/solver/routing.py:343-429 | the report is empty exactly on days meeting C1, C2, C4, C5 and C6 |
| Validation.HardFeasibleIff | src/travel_agent/solver/routing.py:343-429 | hard feasibility spelled out: open and permitted, stays admitted by the hours of the date and three fifths of the suggestion long, inside the day, and between visits at least the travel times the buffer |
| Validation.RaisesIff | src/travel_agent/solver/transport.py:149-152 | the re-check raises exactly for a negative connection time or a buffer below one, the latter at the first connection |
| Validation.SoundRouteIsValid | src/travel_agent/solver/routing.py:343-429 | a sound route of attractions open and weather-permitted that day passes the re-check without raising |
| Validation.ValidDayIsOrdered | src/travel_agent/solver/routing.py:343-429 | on a valid day any earlier visit has ended before any later one begins, and takes time |
| Validation.ValidDayFitsSpan | src/travel_agent/solver/transport.py:134-180 | all stays plus all buffered travel of a valid day fit in its span |
| Refinement.ExpandEveningDurations | src/travel_agent/solver/schedule_refinement.py:108-135 | the reverse in-place loop stretches each evening visit against its successor's unchanged arrival and the day's end |
| Refinement.BuildCandidate | src/travel_agent/solver/schedule_refinement.py:225-282 | the appending and overwriting loop builds the specified schedule, or none if it misses the deadline |
| Refinement.CollectCandidates | src/travel_agent/solver/schedule_refinement.py:73-101 | the candidates are the offers of all four option pairs, in order |
| Refinement.Best | src/travel_agent/solver/schedule_refinement.py:103-105 | the chosen candidate is one of them and none has a higher score |
| Refinement.RefineDaytimeSchedule | src/travel_agent/solver/schedule_refinement.py:28-105 | the method is the specification function the refinement theorems are about |
| RefinementProofs.ExpandedEveningIsTidy | src/travel_agent/solver/schedule_refinement.py:108-135 | stretching the evening keeps stops, order, windows and bounds, moves no evening arrival and shortens nothing |
| RefinementProofs.ExpandedSingleOutcome | src/travel_agent/solver/schedule_refinement.py:138-222 | every branch for a single daytime visit keeps a tidy day, its stops and the dinner gap |
| RefinementProofs.MovedSingleKeepsMeals | src/travel_agent/solver/schedule_refinement.py:190-222 | a single visit moves only later, behind a full lunch inside the lunch window, and only when the full dinner stays free |
| RefinementProofs.CandidateIsOrdered | src/travel_agent/solver/schedule_refinement.py:225-282 | a built candidate has the same stops, no stay shortened, travel respected, and ends by the deadline |
| RefinementProofs.MinimumFinishIsLowerBound | src/travel_agent/solver/schedule_refinement.py:307-313 | the chain's minimum finish never exceeds the actual finish of any visit of the chain |
| RefinementProofs.DeadlineLeavesRoom | src/travel_agent/solver/schedule_refinement.py:62-71 | the deadline leaves the crossing, and the full dinner whenever the input left it |
| RefinementProofs.RefinedManyOutcome | src/travel_agent/solver/schedule_refinement.py:60-105 | the best of the candidates and the input keeps a tidy day, its stops, evening arrivals and the dinner gap |
| RefinementProofs.RefinedOutcome | src/travel_agent/solver/schedule_refinement.py:28-105 | all branches together keep a tidy day, its stops and the dinner gap |
| RefinementProofs.RescheduledIsCurrent | src/travel_agent/solver/schedule_refinement.py:285-304 | a rescheduled visit carries the period evaluation of its new arrival |
| RefinementProofs.RefinementIsSafe | src/travel_agent/solver/schedule_refinement.py:28-282 | a feasible route stays feasible with the same visits, travel and evening arrivals, no shorter stay, current evaluations and an existing dinner gap |
| RefinementChoice.CandidateIsExact | src/travel_agent/solver/schedule_refinement.py:225-282 | a pair of options yields exactly the schedule described stop by stop, if it is in time and has its lunch, and nothing otherwise |
| RefinementChoice.RefinedIsBestOption | src/travel_agent/solver/schedule_refinement.py:60-105 | the result is the best of the feasible schedules: lunch hour, then longest stays, then nearest to 16:00 or the deadline, then earliest, then first tried; without any only the evening is stretched |
| RefinementChoice.DeadlineIsExact | src/travel_agent/solver/schedule_refinement.py:62-71 | the deadline leaves a full dinner exactly when the stops with their stays can be over by then in some timing |
| RefinementChoice.RefinedEveningStaysAreLongest | src/travel_agent/solver/schedule_refinement.py:108-135 | every evening visit stays as long as its window, the day and the next visit allow, up to the suggestion |
| RefinementChoice.RefinedSingle | src/travel_agent/solver/schedule_refinement.py:138-222 | a single daytime visit stays as long as it can, and is moved to the afternoon exactly if that whole stay fits there behind lunch and before dinner |
| LunchMoves.CandidateSetsBackIff | src/travel_agent/solver/schedule_refinement.py:233-282 | a candidate begins some stop earlier than routed if and only if it keeps lunch and its lunch stop was routed later than lunch leaves it |
| LunchMoves.RefinedSetsBackIff | src/travel_agent/solver/schedule_refinement.py:28-105 | refinement begins a stop earlier than routed if and only if a candidate that sets its lunch stop back is chosen |
| LunchMoves.RefinedNeverEarlier | src/travel_agent/solver/schedule_refinement.py:28-282 | no stop begins earlier if no lunch stop was routed later than lunch leaves it, with and without longer stays |
| LunchMoves.LunchSetsGardenBack | src/travel_agent/solver/schedule_refinement.py:247-266 | a searched day of two stops whose second one moves from 16:40 to 14:00 |
| Segments.RouteSegmentedDay | src/travel_agent/solver/segments.py:45-134 | evening first, then daytime towards its first stop, then merge, refinement, dinner and re-check, errors included |
| SegmentProofs.SegmentsByOpening | src/travel_agent/solver/segments.py:68-75 | an allocation belongs to the evening exactly if the rule of the date opens at the threshold or later |
| SegmentProofs.TwoQuestionsAreAsked | src/travel_agent/solver/segments.py:77-98 | the day depends on the search only through its answers for the evening and, with the first evening stop as terminal, for the daytime |
| SegmentProofs.MergeIsCorrect | src/travel_agent/solver/segments.py:170-306 | a feasible route either with the evening shifted by one least delay, or of the daytime alone with all evening visits unplaced; totals are the sums over the kept edges |
| SegmentProofs.MergeRejectsOnlyIfNoDelayWorks | src/travel_agent/solver/segments.py:201-255 | rejection means missing travel data, or that no common delay whatsoever makes the evening feasible |
| SegmentProofs.CombinedFitsIff | src/travel_agent/solver/segments.py:472-485 | the window check of the merged route holds exactly when every delayed evening visit fits |
| SegmentProofs.RejectionIsRecorded | src/travel_agent/solver/segments.py:187-255 | a finished day records a rejected evening exactly if both segments have visits and the evening's are missing, with missing travel data told from lack of time |
| SegmentProofs.MergeConserves | src/travel_agent/solver/segments.py:170-306 | scheduled and unplaced after the merge are those of both segments |
| Segments.ScheduleMeal | src/travel_agent/solver/segments.py:352-426 | the nested loops return the first fit in the specified order |
| SegmentProofs.FitMealExact | src/travel_agent/solver/segments.py:429-454 | a gap is used exactly when some start fits the gap and the dinner window, with the full length at the latest or the earliest such start |
| SegmentProofs.DinnerIsComplete | src/travel_agent/solver/segments.py:352-454 | full exactly when some considered gap admits it; unscheduled exactly when none admits the reduced length |
| SegmentProofs.DinnerIsSound | src/travel_agent/solver/segments.py:352-454 | a scheduled dinner lies in the day and the dinner window, meets no visit, and leaves the travel to the evening intact |
| SegmentProofs.DinnerIsTimed | src/travel_agent/solver/segments.py:363-454 | dinner takes the first place that fits it, as late as it can before a visit and as early as it can after the last one |
| SegmentProofs.DinnerSurvives | src/travel_agent/solver/schedule_refinement.py:62-71 | room for a full dinner before a departure inside the dinner window is still there after refinement |
| SegmentProofs.FinishedDinner | src/travel_agent/solver/segments.py:112-134 | the dinner stored for a finished day is sound, the best and best timed for its final visits, and full if the merged route had room before its departure |
| DinnerLimit.FullDinnerIffInTime | src/travel_agent/solver/schedule_refinement.py:138-222 | with positive travel and any obedient search, the days with room for a full dinner before leaving at a given minute are all served one if and only if that minute is no later than the end of the dinner window |
| SegmentProofs.SegmentedDayIsSafe | src/travel_agent/solver/segments.py:45-134 | whatever both searches answer, the day is feasible, accounts for exactly its allocations, stores its own re-check and serves the best dinner |
| SegmentProofs.SegmentedDayRoutesIff | src/travel_agent/solver/segments.py:45-134 | a day of distinct attractions raises exactly if it has allocations and the buffer is below one, a date is foreign or a stay is too short |
| SegmentProofs.SegmentedDaySucceeds | src/travel_agent/solver/segments.py:45-134 | a plan that is empty or can be loaded is routed without raising |
| SegmentProofs.SegmentedDayIsDeterministic | src/travel_agent/solver/segments.py:45-134 | a deterministic search routes the same plan the same way in every phase |
| AssignmentProofs.GateConserves | src/travel_agent/solver/data_gate.py:13-34 | eligible and rejected attractions are the inputs, each once |
| AssignmentChoice.GateIsExact | src/travel_agent/solver/data_gate.py:13-34 | exactly the active, verified and unconflicted attractions are eligible, and a rejected one carries the first of these that fails |
| AssignmentChoice.ReasonsAreExact | src/travel_agent/solver/day_assignment.py:191-229 | a reason is recorded against a date exactly if it holds, minutes left only if nothing else speaks against it |
| AssignmentChoice.NoReasonIff | src/travel_agent/solver/day_assignment.py:191-229 | a date has no reason exactly if its day is open to the attraction, some start fits its whole minimum stay, and the minutes left suffice |
| AssignmentChoice.FirstChoiceIsTaken | src/travel_agent/solver/day_assignment.py:145-163 | among the dates without a reason the one taken is nearest to the preferred date, then has less energy or minutes by mode, or in leisure mode less energy first; unplaced only if there is none |
| AssignmentChoice.PreferredDateIsTaken | src/travel_agent/solver/day_assignment.py:232-245 | in normal and speed mode a preferred date without a reason is the date assigned |
| AssignmentChoice.UnplacedCodeIsExact | src/travel_agent/solver/day_assignment.py:248-263 | the overall code says that every day lacked minutes, or that extreme weather ruled out every day, or that there is no usable day |
| AssignmentChoice.Step1ChoosesWell | src/travel_agent/solver/day_assignment.py:55-170 | the plan has exactly the usable days of the trip in their bounds; demanding attractions come first; outside leisure mode no allocation has a nearer day of the finished plan that could take it, and no day of it could take an unplaced attraction |
| AssignmentChoice.Step1ErrorsAreExact | src/travel_agent/solver/day_assignment.py:71-92 | step 1 raises for an empty trip, then foreign weather, then the first preference with a repeated id or a foreign date, then the ratio, and for nothing else |
| AssignmentChoice.Step1CarriesWishes | src/travel_agent/solver/day_assignment.py:93-163 | allocations carry the preferred date and period of an eligible preference and the minimum stay for the ratio or the mode |
| Assignment.ExamineDates | src/travel_agent/solver/day_assignment.py:119-131 | every trip date is recorded with its reasons, and the candidates are those without one |
| Assignment.BestDate | src/travel_agent/solver/day_assignment.py:145-153 | the chosen date is a candidate and no candidate has a smaller key |
| Assignment.DayState.Place | src/travel_agent/solver/day_assignment.py:161-163 | the day's state gains the allocation, its minutes and its energy, and nothing else changes |
| Assignment.PlaceOne | src/travel_agent/solver/day_assignment.py:113-163 | one round changes the chosen day only, or none and yields the unplaced record |
| Assignment.AssignDays | src/travel_agent/solver/day_assignment.py:55-170 | the mutable loop produces the specified plan, raising on the same inputs |
| AssignmentProofs.AssignmentInvariant | src/travel_agent/solver/day_assignment.py:113-229 | after any number of preferences totals are sums, minutes fit the capacity, allocations satisfy C1 and C5, and whoever is unplaced has a reason for every date |
| AssignmentProofs.RunConserves | src/travel_agent/solver/day_assignment.py:113-163 | placed and unplaced so far are the preferences so far |
| AssignmentProofs.LeisureBalance | src/travel_agent/solver/day_assignment.py:145-163 | in leisure mode, while no date is refused, the energy totals of any two days differ by at most 5 |
| AssignmentProofs.Step1Outcome | src/travel_agent/solver/day_assignment.py:55-170 | days sound and in date order, refusals justified, every input exactly once among planned, unplaced and rejected |
| Quality.AssignRaisesIff | src/travel_agent/solver/day_assignment.py:71-92 | step 1 raises exactly on empty trips, foreign weather or preferred dates, duplicate ids and ratios outside (0, 1] |
| Quality.AssignedPlanIsWellFormed | src/travel_agent/solver/day_assignment.py:115-160 | what step 1 plans keeps C1, C5 and distinct ids; all the itinerary stage can object to is a buffer below one or a stay below the floor, and a ratio of at least 0.6 has no such stay |
| Phases.RoutesSucceedIff | src/travel_agent/solver/itinerary.py:59-77 | the first phase raises exactly if some day cannot be routed |
| Phases.RouteAll | src/travel_agent/solver/itinerary.py:59-77 | every day is routed once in date order, or the first error is raised |
| Phases.CollectDropped | src/travel_agent/solver/itinerary.py:79-92 | the loop takes exactly the unplaced allocations off each day, with the last code given for each |
| Phases.CollectingConserves | src/travel_agent/solver/itinerary.py:79-92 | what is left on the days plus what was dropped is what was there before, date by date |
| BoardFacts.SplitIsExact | src/travel_agent/solver/itinerary.py:79-92 | an allocation stays exactly if it is not unplaced and is otherwise dropped with the last code given for it |
| Itinerary.TryTarget | src/travel_agent/solver/itinerary.py:126-193 | one date's answer: pre-check reasons, a displacement code, the re-check's codes without repetition, or acceptance |
| Itinerary.TrialIsExact | src/travel_agent/solver/itinerary.py:126-193 | a date accepts if and only if the pre-check passes and a route visits everything on it and passes the re-check |
| Itinerary.RescueTakesFirstDate | src/travel_agent/solver/itinerary.py:118-203 | the first accepting date is taken; the attempts are exactly the dates before it with exactly their reasons, and all dates when none accepts |
| Itinerary.RescueDatesExact | src/travel_agent/solver/itinerary.py:121-124 | the dates tried are all dates but the source |
| RescueOrder.PrecheckIsExact | src/travel_agent/solver/itinerary.py:267-300 | the pre-check names exactly what speaks against a date and passes exactly if the attraction may be visited and its whole stay fits somewhere in the day |
| RescueOrder.RescueTakesNearestDate | src/travel_agent/solver/itinerary.py:118-203 | the nearest accepting date is taken, earlier dates first among equally near ones; exactly the nearer ones are recorded, in order of distance, each with its refusal |
| RescueOrder.EveryRescueTakesNearestDate | src/travel_agent/solver/itinerary.py:118-203 | in a whole run every drop goes to the nearest date that accepts it at its turn or is given up with every other date refusing, and the board and both lists change by that alone |
| RescueReport.RescuesAreReported | src/travel_agent/solver/itinerary.py:94-253 | the finished lists begin with those of step 1; moves follow by old date and id; whoever was given up names every trip date but one with its refusals, nearest first; final drops have no attempts |
| RescueReport.DropsAreListed | src/travel_agent/solver/itinerary.py:241-253 | final drops are listed once per id with their code and preferred date |
| RescueReport.InitialMovesAreExact | src/travel_agent/solver/itinerary.py:94-103 | step 1 moved exactly the allocations away from their preferred date |
| RescueReport.InitialUnplacedAreExact | src/travel_agent/solver/itinerary.py:104-116 | step 1's unplaced attractions are listed with their code and every date's reasons |
| Itinerary.RescueOne | src/travel_agent/solver/itinerary.py:118-203 | the inner loop with its early exit is the specified search over the dates nearest first |
| Phases.RescueDropped | src/travel_agent/solver/itinerary.py:118-203 | the outer loop moves or gives up each drop in turn, changing board, unplaced and reassignments as specified |
| Phases.RescuedBoard | src/travel_agent/solver/itinerary.py:118-203 | no attraction is lost or duplicated, the board stays admissible for C1 and C5, earlier moves stay, and rescues stay settled under a deterministic search |
| Phases.RescuesSucceed | src/travel_agent/solver/itinerary.py:118-203 | on a board of distinct fitting allocations no rescue raises |
| Phases.RescuesIgnoreListed | src/travel_agent/solver/itinerary.py:106-203 | the rescue loop carries step 1's unplaced list along in front and is not influenced by it |
| Phases.RescueIsSettled | src/travel_agent/solver/itinerary.py:160-193 | a date that accepted is visited completely however often a deterministic search is asked again |
| Phases.AddFinalDrops | src/travel_agent/solver/itinerary.py:241-253 | the loop adds every drop not yet on the list with its preferred date, or raises if it was never allocated |
| Phases.DropsAreAdded | src/travel_agent/solver/itinerary.py:241-253 | planned drops never raise, and distinct ones are appended in order, each once |
| FinalPhase.RouteFinally | src/travel_agent/solver/itinerary.py:205-253 | every day is re-routed, re-checked and its drops accounted for as specified |
| FinalPhase.FinalDaysHold | src/travel_agent/solver/itinerary.py:209-240 | the result for each date is the segmented route of what the board holds there, with its re-check |
| FinalPhase.FinalConserves | src/travel_agent/solver/itinerary.py:205-253 | scheduled plus unplaced after the final phase is what the board held plus what was unplaced before |
| FinalPhase.FinalPhaseIgnoresListed | src/travel_agent/solver/itinerary.py:205-253 | names on the list that nobody on the board shares do not influence the final phase |
| FinalPhase.AdmissibleDayIsValid | src/travel_agent/solver/itinerary.py:233-240 | a sound day made of C1 and C5 admissible allocations is reported valid |
| Planner.RouteItinerary | src/travel_agent/solver/itinerary.py:35-264 | the whole mutable run is the specification the next three theorems are about |
| Planner.RescuedOutcome | src/travel_agent/solver/itinerary.py:59-203 | the first two phases raise exactly if the plan cannot be routed; otherwise board and given-up attractions are step 1's planned ones |
| Planner.ItineraryRoutesIff | src/travel_agent/solver/itinerary.py:35-264 | the run raises if and only if dates or ids repeat, an allocation has a foreign date or too short a stay, or something is planned with a buffer below one |
| Planner.ItineraryIsSafe | src/travel_agent/solver/itinerary.py:205-264 | a well-formed plan is always routed and every final day is hard-feasible, validated as such and served the best dinner, whatever the search answers in each phase |
| Planner.ItineraryConserves | src/travel_agent/solver/itinerary.py:79-253 | if no id is both allocated and unplaced, every attraction of step 1 is scheduled, unplaced or data-rejected exactly once, even if the search answers differently in every phase |
| TripEnds.TripTimesAreKept | src/travel_agent/solver/anchors.py:19-49 | in the finished itinerary no visit begins before the city is reached on the first day, and the last day leaves time for the way back and the check-in |
| ConservationLimit.SpotIsLost | src/travel_agent/solver/itinerary.py:207-253 | a concrete plan, world and search that lose an attraction whose id was listed already |
| ConservationLimit.ConservedIffIdsApart | src/travel_agent/solver/itinerary.py:207-253 | plans with given ids are conserved by every search in every world if and only if no id is both allocated and unplaced |
| Planner.RescuesAreDurable | src/travel_agent/solver/itinerary.py:138-253 | under a deterministic search every rescued attraction is visited on its new date in the final plan and nothing on that date is unplaced |
| RescueLimit.FickleSearchUndoesRescue | src/travel_agent/solver/itinerary.py:118-253 | an obedient search that answers the same question differently undoes a rescue on two dates |
| Planner.SettledIsDurable | src/travel_agent/solver/itinerary.py:205-253 | a settled rescue survives the final re-routing |
| Quality.ConservedIffSameIds | src/travel_agent/solver/quality.py:66-95 | for distinct inputs the accounting is conserved exactly when the id multisets are equal |
| Quality.CountsPartition | src/travel_agent/solver/quality.py:97-113 | the per-constraint counts add up to the number of violations |
| Quality.AccountingIsExact | src/travel_agent/solver/quality.py:66-95 | the three id lists are ascending and hold exactly what went missing, came unexpected or came out twice |
| Quality.ViolationsAreCounted | src/travel_agent/solver/quality.py:97-142 | every violation the re-check reports is counted under the constraint that is broken |
| Quality.CountsAreExact | src/travel_agent/solver/quality.py:97-119 | the report lists C1, C2, C4, C5, C6 and the rest in this order and totals all violations |
| Quality.GateIsExact | src/travel_agent/solver/quality.py:60-119 | the gate passes exactly when input and outcome ids agree as multisets and no day reports a violation |
| Quality.PlanTrip | src/travel_agent/infrastructure/solver/gateway.py:108-121 | raises exactly on inputs that are not solvable; otherwise, for any obedient search, the gate passes, all inputs are accounted for, and all days are hard-feasible and within the traveller's own times |
| Quality.FloorsSuffice | src/travel_agent/solver/routing.py:79-96 | an accepted input with a ratio from 0.6 and a buffer from 1 is solvable |
| Quality.FloorsAreNeeded | src/travel_agent/solver/routing.py:79-96 | one attraction on one day raises at ratio 0.5, and at ratio 1 exactly if the buffer is below 1 |
| Governor.ProviderState.Rollover | src/travel_agent/infrastructure/provider_governance.py:127-133 | on another day the counters restart and the budget is refreshed; spacing and circuit data stay |
| Governor.ProviderState.ApplyBeforeRequest | src/travel_agent/infrastructure/provider_governance.py:475-505 | the record and the answer after a request, blocked for the first reason in the source's order |
| Governor.ProviderState.ApplySuccess | src/travel_agent/infrastructure/provider_governance.py:508-511 | the record after a success: one more success, failures in a row and circuit cleared |
| Governor.ProviderState.ApplyFailure | src/travel_agent/infrastructure/provider_governance.py:514-530 | the record after a failure: counts by code, and the circuit opened when the policy says so |
| Governor.Apply | src/travel_agent/infrastructure/provider_governance.py:190-226 | a blocked operation leaves the store untouched; any other leaves a record of its own day |
| Governor.JsonGovernor.LoadToday | src/travel_agent/infrastructure/provider_governance.py:228-241 | a fresh record equal to the stored one brought to the present day |
| Governor.JsonGovernor.Perform | src/travel_agent/infrastructure/provider_governance.py:190-226 | under the lock an operation answers and stores as `Apply` says and leaves other providers alone |
| GovernorSafety.GrantExact | src/travel_agent/infrastructure/provider_governance.py:475-505 | a request is granted if and only if the circuit is shut, the interval has passed and today's count is below the budget |
| GovernorSafety.GrantsAreSpaced | src/travel_agent/infrastructure/provider_governance.py:489-505 | from any stored record, the k-th grant after another is at least k intervals later, for any clock readings and across days |
| GovernorSafety.LedgerStep | src/travel_agent/infrastructure/provider_governance.py:228-241 | a call keeps the stored count equal to its day's grants exactly when it keeps the day |
| GovernorSafety.LedgerIffDaysKept | src/travel_agent/infrastructure/provider_governance.py:228-241 | the count is right after every call of a run exactly when no call writes on a day already left with grants |
| GovernorSafety.BudgetHolds | src/travel_agent/infrastructure/provider_governance.py:499-505 | a right count keeps every quota day within the budget |
| GovernorSafety.MonotoneClockKeepsBudget | src/travel_agent/infrastructure/provider_governance.py:499-505 | quota days that do not go back among the writing calls suffice |
| GovernorSafety.SkewDefeatsBudget | src/travel_agent/infrastructure/provider_governance.py:190-197 | three calls around midnight UTC that grant two requests on a day with budget one |
| ClockConditions.OverrunHappens | src/travel_agent/infrastructure/provider_governance.py:127-133 | readings that leave a day and return with room for one request more than the budget overrun it with requests there and snapshots elsewhere |
| ClockConditions.OverrunHasCause | src/travel_agent/infrastructure/provider_governance.py:499-505 | an overrun budget always has such readings |
| ClockConditions.BudgetKeptIff | src/travel_agent/infrastructure/provider_governance.py:499-505 | for a given calendar, interval and budget, the budget holds for every choice of operations if and only if the readings are not of that kind |
| ClockConditions.BudgetAlwaysKeptIff | src/travel_agent/infrastructure/provider_governance.py:127-133 | for all intervals and budgets, it holds if and only if no reading returns to a day another reading left |
| GovernorSafety.OpeningGuards | src/travel_agent/infrastructure/provider_governance.py:514-530 | an opening failure stores its reading plus the open time |
| CircuitCount.CircuitOpensIff | src/travel_agent/infrastructure/provider_governance.py:514-530 | over whole histories and days a failure opens the circuit exactly if its code is immediate or the counting failures since the last success or closing request have reached the threshold with it |
| CircuitCount.CircuitBlocksIff | src/travel_agent/infrastructure/provider_governance.py:475-488 | a request is blocked for the circuit exactly if a failure tripped it, nothing ended it since and its open time is not over, which is also when to retry |
| CircuitCount.InterleavedCircuitBlocksIff | src/travel_agent/infrastructure/provider_governance.py:326-353 | the same for any interleaving of clients, in commit order |
| HistoryAnswers.StretchIsCounted | src/travel_agent/infrastructure/provider_governance.py:127-133 | the stored counters are exactly the grants, successes and failures by code since the day was entered |
| HistoryAnswers.RequestAnswerIsExact | src/travel_agent/infrastructure/provider_governance.py:475-505 | a request is answered by the first limit that forbids it, circuit, interval, budget, with the minute it may be retried, each limit read off the calls before |
| HistoryAnswers.SnapshotIsExact | src/travel_agent/infrastructure/provider_governance.py:116-151 | a snapshot reports exactly what happened since its day was entered |
| GovernorSafety.GuardStep | src/travel_agent/infrastructure/provider_governance.py:480-530 | every call but a success keeps the guard, an opening failure exactly when its reading is not too old; nothing is granted before the guard's time |
| GovernorSafety.OpenCircuitHolds | src/travel_agent/infrastructure/provider_governance.py:480-530 | from any stored record, after an opening failure nothing is granted before the open time has passed, unless a success or an older re-opening intervenes |
| GovernorSafety.SkewShortensCircuit | src/travel_agent/infrastructure/provider_governance.py:514-530 | three calls in the UTC calendar in which an older re-opening ends a five-minute circuit at once |
| ClockConditions.EarlyGrantHasCause | src/travel_agent/infrastructure/provider_governance.py:480-530 | a grant within the open time without a success in between always has a reading so old that its own open time was over |
| ClockConditions.CircuitKeptIff | src/travel_agent/infrastructure/provider_governance.py:480-530 | for a given calendar and open time, an opened circuit keeps it from every stored record and for every choice of operations if and only if no reading in between is so old |
| ClockConditions.CircuitAlwaysKeptIff | src/travel_agent/infrastructure/provider_governance.py:480-530 | for a given calendar and all open times, it does if and only if no reading is older than one before it and one after it |
| RedisGovernor.StepKeepsLinearized | src/travel_agent/infrastructure/provider_governance.py:326-353 | every step of every client keeps the store and all answers explained by the log in commit order |
| RedisGovernor.StepKeepsRecorded | src/travel_agent/infrastructure/provider_governance.py:326-353 | every step keeps operations and entries in one-to-one correspondence and the order of operations that do not overlap |
| RedisGovernor.RunIsLinearized | src/travel_agent/infrastructure/provider_governance.py:326-353 | every interleaving equals a serial run in log order whose entries are exactly the operations that finished or returned, each once with its call and answer, after its call |
| RedisGovernor.RealTimeOrderIsKept | src/travel_agent/infrastructure/provider_governance.py:326-353 | an operation that returned before another was called has the smaller index |
| RedisGovernor.LogOnlyGrows | src/travel_agent/infrastructure/provider_governance.py:340-351 | what has taken effect is never undone or reordered |
| RedisGovernor.OperationsAreTheCalls | src/travel_agent/infrastructure/provider_governance.py:294-324 | every call is in progress or has returned, and every operation is a call that was made |
| RedisGovernor.FailedExecMeansCommit | src/travel_agent/infrastructure/provider_governance.py:340-353 | a transaction fails only if another has committed since its WATCH |
| RedisGovernor.InterleavedGrantsAreSpaced | src/travel_agent/infrastructure/provider_governance.py:326-353 | grants to any clients are spaced in commit order however they interleave |
| RedisGovernor.InterleavedBudgetHolds | src/travel_agent/infrastructure/provider_governance.py:326-353 | the daily budget holds over all clients if the writers' days do not go back in commit order |
| RedisGovernor.EveryHistoryHappens | src/travel_agent/infrastructure/provider_governance.py:326-353 | one client taking its turns alone produces any serial history |
| RedisGovernor.InterleavedBudgetKeptIff | src/travel_agent/infrastructure/provider_governance.py:326-353 | over all interleavings the budget is kept under exactly the same readings as for one caller |
| RedisGovernor.InterleavedCircuitKeptIff | src/travel_agent/infrastructure/provider_governance.py:326-353 | over all interleavings an opened circuit is kept under exactly the same readings as for one caller |
| DataValidation.TimeOrderErrors | src/travel_agent/solver/data_validation.py:183-193 | the loop reports the order findings of every rule, in order |
| DataValidation.LastEntryAndOverlapErrors | src/travel_agent/solver/data_validation.py:196-215 | the growing set of occupied days reports an overlap exactly with the days of earlier rules |
| DataValidation.AcceptedRuleIsUnrolled | src/travel_agent/solver/models.py:195-233 | an accepted rule keeps its dates, closes at the first closing time after it opens, and admits last at an occurrence of the entry time in between |
| DataValidation.RuleChecksMatchConstructor | src/travel_agent/solver/models.py:195-229 | a parsed rule passes rules 2 and 3 exactly when the solver's constructor accepts it |
| DataValidation.FindingsNameFaults | src/travel_agent/solver/data_validation.py:183-215 | every order and last-entry finding is reported for exactly the fault it names |
| DataValidation.YearDayIsMonotone | src/travel_agent/solver/data_validation.py:336-341 | day numbers of a leap year and month-day codes order the calendar alike |
| DataValidation.RangeDaysMatch | src/travel_agent/solver/data_validation.py:336-341 | a month-day is in the validator's range exactly when the solver's rule matches it, wrap-around included |
| DataValidation.OverlapCheckIsExact | src/travel_agent/solver/data_validation.py:196-215 | an overlap is reported exactly when some calendar month-day matches two rules |
| DataValidation.PassingRecordNeverConflicts | src/travel_agent/solver/data_validation.py:183-215 | a record passing rules 2 and 3 never yields a rule conflict, on any date |
| DataValidation.TargetDateCheckIsExact | src/travel_agent/solver/data_validation.py:232-245 | for a passing record the target-date check succeeds exactly when the solver resolves a window |
| Closeness.ActualsAreExact | src/travel_agent/solver/closeness.py:193-200 | an attraction counts as planned exactly if some day visits it, with the day and period of such a visit |
| Closeness.DirectedIsExact | src/travel_agent/solver/closeness.py:466-471 | a pair is adjacent exactly if some day visits the second directly after the first |
| Closeness.VisitScoresAreExact | src/travel_agent/solver/closeness.py:448-459 | days and periods score one where preferred, or accepted without any preferred; seven tenths where only accepted; nothing otherwise |
| Closeness.GroupsAndPairsAreExact | src/travel_agent/solver/closeness.py:272-306 | a group scores one exactly if one day has all of it, a pair exactly if it is adjacent, in either direction if that does not matter |
| Closeness.DayAssignmentComponent | src/travel_agent/solver/closeness.py:232-249 | matched and total are the sum and number of the day explanations, and the score their quotient in [0, 1] |
| Closeness.TimeBucketComponent | src/travel_agent/solver/closeness.py:252-269 | the same for the bucket explanations |
| Closeness.SameDayTestsAgree | src/travel_agent/solver/closeness.py:272-287 | the set-based test of the score and the list-based test of the explanation agree |
| Closeness.SameDayComponent | src/travel_agent/solver/closeness.py:272-287 | matched is the weighted fold of the same-day explanations, total the baseline's weight |
| Closeness.AdjacencyComponent | src/travel_agent/solver/closeness.py:290-306 | matched is the weighted fold of the adjacency explanations, total the baseline's weight |
| Closeness.FixedMatches | src/travel_agent/solver/closeness.py:309-357 | the separately counted fixed expectations are the fixed explanations and those of them met in full |
| Closeness.OverallIsConvex | src/travel_agent/solver/closeness.py:486-495 | the overall score lies between the least and the greatest available component score, and is one if there is none |
| Closeness.EvaluateCloseness | src/travel_agent/solver/closeness.py:182-208 | the four scores and the fixed score are the folds of the explanations, all in [0, 1]; the overall score is one if no visit names a day or bucket and no group or pair is expected; the fixed score is one exactly if every fixed explanation is met in full |

## Left out

- The search itself, its cost terms, penalties, slack bounds, time limits, status mapping and attempt history: a foreign call, kept as an arbitrary function bound by the routing model's constraints.
- Rounding of floating-point numbers: ratios, weights and scores are exact reals.
- The approximate distance provider and the metadata of travel times: travel is an arbitrary partial function of two attraction ids.
- Counting of search calls: searches are numbered by their position in the run, also where a pre-check makes one unnecessary; the answers are arbitrary, so no behaviour is lost.
- Notices, pace labels, degradation messages and result snapshots: text without constraints.
- The origin and reference fields of a visit-period preference and the resolution of the effective preference: plain selection among optional fields.
- The date field inside a weather record: the map's key is the date, so the mismatch error cannot be expressed.
- TimeBucketFor and EvaluateVisitPeriod are total on negative arrivals, where the source raises; no sound route has one.
- Guards on the drop penalty and the time limit of a search: they concern parameters of the search.
- Segment settings other than the defaults are covered by RouteSegmentedDay; the itinerary always uses the defaults, as the source does.
- Quality.PlanTrip: takes its inputs as already prepared; reading the request and choosing default preferred dates from the travel data are not modelled.
- JSON and Redis formats, expiry of keys and the calls that lock a file: the locked file is one atomic step and the watched key a value with a version.
- Guards on blank provider and failure codes, and the construction of policies from settings: constructor checks.
- Clients with different policies on one key: a run has one policy. Counting against the daily budget, the answers read off a history and the runs of Redis clients start from an empty store; spacing and the open time of the circuit are proved from any stored record.
- Parsing of month-day and clock texts, and data rules 1, 4 and 6 to 9: presence and shape checks on single fields.
- The closeness threshold and report record: a conjunction of values proved here.
- The arrival evaluation record of `evaluate_arrival` and the assignment to the nearest date with feasible weather: neither is used by the pipeline.
