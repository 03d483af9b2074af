/** Soft refinement of a routed day: longer stays, a lunch gap, a fuller afternoon.
    The visit order and the travel between visits never change. */
module Refinement {
  import opened Prelude
  import opened Models
  import opened TimeWindows
  import opened Timeline

  const SPREAD_TARGET_END_MIN: int := 960
  const SPREAD_MAX_DELAY_MIN: int := 60
  const LUNCH_EARLIEST_MIN: int := 690
  const LUNCH_LATEST_END_MIN: int := 840
  const LUNCH_DURATION_MIN: int := 60
  const LUNCH_TARGET_END_MIN: int := 780

  function Reschedule(v: RouteVisit, arrival: int, duration: int): RouteVisit {
    v.(arrivalMin := arrival,
       leaveMin := arrival + duration,
       plannedDurationMin := duration,
       visitPeriod := Reevaluate(v.visitPeriod, arrival))
  }

  predicate TimesFit(day: RoutedDay) {
    forall i :: 0 <= i < |day.visits| ==>
      var v := day.visits[i];
      FitsDay(v.attraction, day.visitDate, day.bounds, v.arrivalMin, v.plannedDurationMin)
  }

  // ---- evening stays --------------------------------------------------------------

  /** The evening visit `i`, stretched into the slack before closing time and the next visit. */
  function ExpandedVisit(day: RoutedDay, i: nat): RouteVisit
    requires i < |day.visits|
  {
    var v := day.visits[i];
    var resolution := DefaultWindow(v.attraction, day.visitDate);
    if resolution.NoWindow? then v
    else
      var nextStart :=
        if i + 1 < |day.visits| then day.visits[i + 1].arrivalMin - day.visits[i + 1].bufferedTravelMin
        else day.bounds.endMin;
      var maximumLeave := Min(resolution.window.closeMin, nextStart);
      var expanded := Min(v.attraction.suggestedDuration, maximumLeave - v.arrivalMin);
      if expanded > v.plannedDurationMin then Reschedule(v, v.arrivalMin, expanded) else v
  }

  function ExpandedEvening(day: RoutedDay, count: nat): (r: RoutedDay)
    ensures |r.visits| == |day.visits|
    ensures forall i :: 0 <= i < |r.visits| ==>
      r.visits[i] == if i < count then day.visits[i] else ExpandedVisit(day, i)
  {
    day.(visits := seq(|day.visits|, i requires 0 <= i < |day.visits| =>
      if i < count then day.visits[i] else ExpandedVisit(day, i)))
  }

  /** Walks the evening backwards, editing the list in place; a visit's successor has by
      then been stretched, but its arrival and its travel have not moved. */
  method ExpandEveningDurations(day: RoutedDay, count: nat) returns (r: RoutedDay)
    requires count <= |day.visits|
    ensures r == ExpandedEvening(day, count)
  {
    hide FitsDay, ResolveEffectiveWindow, Reevaluate;
    var visits := day.visits;
    ghost var target := ExpandedEvening(day, count).visits;
    var index := |visits|;
    while index > count
      invariant count <= index <= |visits| == |day.visits|
      invariant forall i :: 0 <= i < index ==> visits[i] == day.visits[i]
      invariant forall i :: index <= i < |visits| ==> visits[i] == target[i]
    {
      index := index - 1;
      var visit := visits[index];
      var resolution := DefaultWindow(visit.attraction, day.visitDate);
      if resolution.Window? {
        var nextStart := day.bounds.endMin;
        if index + 1 < |visits| {
          nextStart := visits[index + 1].arrivalMin - visits[index + 1].bufferedTravelMin;
        }
        var maximumLeave := Min(resolution.window.closeMin, nextStart);
        var expanded := Min(visit.attraction.suggestedDuration, maximumLeave - visit.arrivalMin);
        if expanded > visit.plannedDurationMin {
          visits := visits[index := Reschedule(visit, visit.arrivalMin, expanded)];
        }
      }
    }
    assert visits == target;
    r := day.(visits := visits);
  }

  // ---- one daytime visit -----------------------------------------------------------

  /** The latest leave of the single daytime visit, and whether a full dinner still fits
      between it and the evening. */
  function SingleDeadline(day: RoutedDay, window: EffectiveTimeWindow, cross: int, dinner: int): (int, bool)
    requires day.visits != []
  {
    var deadline := Min(day.bounds.endMin, window.closeMin);
    if |day.visits| == 1 then (deadline, false)
    else
      var dinnerSafe := day.visits[1].arrivalMin - cross - dinner;
      if dinnerSafe >= day.visits[0].leaveMin then (Min(deadline, dinnerSafe), true)
      else (Min(deadline, day.visits[1].arrivalMin - cross), false)
  }

  function ReplaceFirst(day: RoutedDay, arrival: int, duration: int): RoutedDay
    requires day.visits != []
  {
    day.(visits := day.visits[0 := Reschedule(day.visits[0], arrival, duration)])
  }

  /** The later start that covers the afternoon while leaving lunch before it. */
  function SpreadSingle(day: RoutedDay, expanded: RoutedDay, window: EffectiveTimeWindow, deadline: int, duration: int): RoutedDay
    requires day.visits != [] && expanded.visits != []
  {
    var lunchReady := Max(day.bounds.startMin, LUNCH_EARLIEST_MIN) + LUNCH_DURATION_MIN;
    if lunchReady > LUNCH_LATEST_END_MIN then expanded
    else
      var targetLeave := Min(SPREAD_TARGET_END_MIN, deadline);
      var desired := Max(Max(day.visits[0].arrivalMin, lunchReady), targetLeave - duration);
      var latest := Min(
        Min(LatestFor(window, duration), day.bounds.endMin - duration),
        deadline - duration);
      if desired > latest then expanded
      else
        var candidate := ReplaceFirst(expanded, desired, duration);
        if TimesFit(candidate) then candidate else expanded
  }

  function ExpandedSingle(day: RoutedDay, cross: int, dinner: int): RoutedDay
    requires day.visits != []
  {
    var visit := day.visits[0];
    var resolution := DefaultWindow(visit.attraction, day.visitDate);
    if resolution.NoWindow? then day
    else
      var (deadline, canSpread) := SingleDeadline(day, resolution.window, cross, dinner);
      var duration := Min(visit.attraction.suggestedDuration, deadline - visit.arrivalMin);
      if duration < visit.plannedDurationMin then day
      else
        var expanded :=
          if duration > visit.plannedDurationMin then ReplaceFirst(day, visit.arrivalMin, duration) else day;
        if !TimesFit(expanded) then day
        else if !canSpread then expanded
        else SpreadSingle(day, expanded, resolution.window, deadline, duration)
  }

  // ---- several daytime visits --------------------------------------------------------

  predicate LunchFits(previousLeave: int, baseArrival: int) {
    && previousLeave <= LUNCH_LATEST_END_MIN
    && baseArrival + LUNCH_DURATION_MIN >= LUNCH_EARLIEST_MIN
    && baseArrival < LUNCH_LATEST_END_MIN
  }

  datatype Progress = Progress(built: seq<RouteVisit>, lunchInserted: bool)

  function CandidateDuration(v: RouteVisit, expand: bool): int {
    if expand then Max(v.plannedDurationMin, v.attraction.suggestedDuration) else v.plannedDurationMin
  }

  /** One more visit appended to a candidate. */
  function AppendNext(progress: Progress, v: RouteVisit, expand: bool, preserveLunch: bool): Progress {
    var duration := CandidateDuration(v, expand);
    if progress.built == [] then
      Progress([Reschedule(v, v.arrivalMin, duration)], progress.lunchInserted)
    else
      var previous := progress.built[|progress.built| - 1];
      var base := previous.leaveMin + v.bufferedTravelMin;
      if preserveLunch && !progress.lunchInserted && LunchFits(previous.leaveMin, base) then
        var arrival := Max(base + LUNCH_DURATION_MIN, LUNCH_TARGET_END_MIN);
        Progress(progress.built + [Reschedule(v, arrival, duration)], true)
      else
        Progress(progress.built + [Reschedule(v, Max(base, v.arrivalMin), duration)], progress.lunchInserted)
  }

  function Built(visits: seq<RouteVisit>, n: nat, expand: bool, preserveLunch: bool): (p: Progress)
    requires n <= |visits|
    ensures |p.built| == n
  {
    if n == 0 then Progress([], false)
    else AppendNext(Built(visits, n - 1, expand, preserveLunch), visits[n - 1], expand, preserveLunch)
  }

  /** The last visit moved towards the afternoon target, by a bounded delay. */
  function DelayLast(built: seq<RouteVisit>, deadline: int): (r: seq<RouteVisit>)
    requires built != []
    ensures |r| == |built|
  {
    var last := built[|built| - 1];
    var targetEnd := Min(SPREAD_TARGET_END_MIN, deadline);
    if last.leaveMin < targetEnd then
      var delay := Min(targetEnd - last.leaveMin, SPREAD_MAX_DELAY_MIN);
      built[|built| - 1 := Reschedule(last, last.arrivalMin + delay, last.plannedDurationMin)]
    else built
  }

  function CandidateSpec(
    visits: seq<RouteVisit>, expand: bool, preserveLunch: bool, deadline: int): (r: Option<seq<RouteVisit>>)
    requires visits != []
    ensures r.Some? ==> |r.value| == |visits|
  {
    var progress := Built(visits, |visits|, expand, preserveLunch);
    if preserveLunch && !progress.lunchInserted then None
    else
      var delayed := DelayLast(progress.built, deadline);
      if delayed[|delayed| - 1].leaveMin > deadline then None else Some(delayed)
  }

  method BuildCandidate(visits: seq<RouteVisit>, expand: bool, preserveLunch: bool, deadline: int)
    returns (r: Option<seq<RouteVisit>>)
    requires visits != []
    ensures r == CandidateSpec(visits, expand, preserveLunch, deadline)
  {
    hide Reevaluate;
    var built: seq<RouteVisit> := [];
    var lunchInserted := false;
    for index := 0 to |visits|
      invariant Progress(built, lunchInserted) == Built(visits, index, expand, preserveLunch)
    {
      var visit := visits[index];
      var duration := CandidateDuration(visit, expand);
      var arrival := visit.arrivalMin;
      if index > 0 {
        var previous := built[|built| - 1];
        var base := previous.leaveMin + visit.bufferedTravelMin;
        arrival := Max(base, visit.arrivalMin);
        if preserveLunch && !lunchInserted && LunchFits(previous.leaveMin, base) {
          arrival := Max(base + LUNCH_DURATION_MIN, LUNCH_TARGET_END_MIN);
          lunchInserted := true;
        }
      }
      built := built + [Reschedule(visit, arrival, duration)];
    }
    if preserveLunch && !lunchInserted { return None; }
    var targetEnd := Min(SPREAD_TARGET_END_MIN, deadline);
    var last := built[|built| - 1];
    if last.leaveMin < targetEnd {
      var delay := Min(targetEnd - last.leaveMin, SPREAD_MAX_DELAY_MIN);
      built := built[|built| - 1 := Reschedule(last, last.arrivalMin + delay, last.plannedDurationMin)];
    }
    if built[|built| - 1].leaveMin > deadline { return None; }
    return Some(built);
  }

  // ---- choosing among the candidates ---------------------------------------------------

  /** The finish of the first `n` visits if nobody ever waits. */
  function MinimumFinish(visits: seq<RouteVisit>, n: nat): int
    requires 1 <= n <= |visits|
  {
    if n == 1 then visits[0].arrivalMin + visits[0].plannedDurationMin
    else MinimumFinish(visits, n - 1) + visits[n - 1].bufferedTravelMin + visits[n - 1].plannedDurationMin
  }

  /** The longest stay inside the lunch window between two visits, zero if there is none. */
  function LunchGap(visits: seq<RouteVisit>): int {
    if |visits| < 2 then 0
    else
      var previous, current := visits[|visits| - 2], visits[|visits| - 1];
      var gapStart := Max(previous.leaveMin, LUNCH_EARLIEST_MIN);
      var gapEnd := Min(current.arrivalMin - current.bufferedTravelMin, LUNCH_LATEST_END_MIN);
      Max(LunchGap(visits[..|visits| - 1]), gapEnd - gapStart)
  }

  datatype Score = Score(lunchKept: int, durationGain: int, spread: int, earliness: int)

  predicate Higher(a: Score, b: Score) {
    || a.lunchKept > b.lunchKept
    || (a.lunchKept == b.lunchKept && a.durationGain > b.durationGain)
    || (a.lunchKept == b.lunchKept && a.durationGain == b.durationGain && a.spread > b.spread)
    || (a.lunchKept == b.lunchKept && a.durationGain == b.durationGain && a.spread == b.spread
        && a.earliness > b.earliness)
  }

  datatype Candidate = Candidate(score: Score, day: RoutedDay)

  function PlannedMinutes(visits: seq<RouteVisit>): int {
    Sum(Map((v: RouteVisit) => v.plannedDurationMin, visits))
  }

  function ScoreOf(refined: seq<RouteVisit>, daytime: seq<RouteVisit>, deadline: int): Score
    requires refined != []
  {
    var finish := refined[|refined| - 1].leaveMin;
    Score(
      if LunchGap(refined) >= LUNCH_DURATION_MIN then 1 else 0,
      PlannedMinutes(refined) - PlannedMinutes(daytime),
      -Abs(finish - Min(SPREAD_TARGET_END_MIN, deadline)),
      -finish)
  }

  /** The latest daytime finish: before a full dinner if the visits can finish that early. */
  function Deadline(day: RoutedDay, count: nat, cross: int, dinner: int): int
    requires 1 <= count <= |day.visits|
  {
    if count == |day.visits| then day.bounds.endMin
    else
      var departure := day.visits[count].arrivalMin - cross;
      if departure - dinner >= MinimumFinish(day.visits[..count], count) then
        Min(day.bounds.endMin, departure - dinner)
      else Min(day.bounds.endMin, departure)
  }

  /** The candidate of one combination of options, if it is feasible. */
  function Offer(day: RoutedDay, count: nat, deadline: int, expand: bool, preserveLunch: bool): seq<Candidate>
    requires 1 <= count <= |day.visits|
  {
    var daytime, evening := day.visits[..count], day.visits[count..];
    var refined := CandidateSpec(daytime, expand, preserveLunch, deadline);
    if refined.None? then []
    else
      var candidate := day.(visits := refined.value + evening);
      if !TimesFit(candidate) then [] else [Candidate(ScoreOf(refined.value, daytime, deadline), candidate)]
  }

  /** The candidates of the first `k` combinations: longer stays first, lunch first. */
  function Offers(day: RoutedDay, count: nat, deadline: int, k: nat): seq<Candidate>
    requires 1 <= count <= |day.visits|
  {
    if k == 0 then []
    else Offers(day, count, deadline, k - 1) + Offer(day, count, deadline, k - 1 < 2, (k - 1) % 2 == 0)
  }

  /** The first candidate no other one outscores. */
  function Best(candidates: seq<Candidate>): (best: Candidate)
    requires candidates != []
    ensures best in candidates
    ensures forall c :: c in candidates ==> !Higher(c.score, best.score)
  {
    if |candidates| == 1 then candidates[0]
    else
      var front, last := Best(candidates[..|candidates| - 1]), candidates[|candidates| - 1];
      assert candidates == candidates[..|candidates| - 1] + [last];
      if Higher(last.score, front.score) then last else front
  }

  function RefinedMany(day: RoutedDay, count: nat, cross: int, dinner: int): RoutedDay
    requires 1 <= count <= |day.visits|
  {
    var candidates := Offers(day, count, Deadline(day, count, cross, dinner), 4);
    if candidates == [] then day else Best(candidates).day
  }

  function Refined(day: RoutedDay, count: nat, cross: int, dinner: int): RoutedDay {
    if count > |day.visits| then day
    else
      var expanded := ExpandedEvening(day, count);
      if count == 1 then ExpandedSingle(expanded, cross, dinner)
      else if count < 2 then expanded
      else RefinedMany(expanded, count, cross, dinner)
  }

  method CollectCandidates(day: RoutedDay, count: nat, deadline: int) returns (candidates: seq<Candidate>)
    requires 1 <= count <= |day.visits|
    ensures candidates == Offers(day, count, deadline, 4)
  {
    hide CandidateSpec, TimesFit, ScoreOf;
    var daytime, evening := day.visits[..count], day.visits[count..];
    candidates := [];
    var options := [true, false];
    for e := 0 to 2
      invariant candidates == Offers(day, count, deadline, 2 * e)
    {
      for p := 0 to 2
        invariant candidates == Offers(day, count, deadline, 2 * e + p)
      {
        var refined := BuildCandidate(daytime, options[e], options[p], deadline);
        ghost var offer := Offer(day, count, deadline, options[e], options[p]);
        ghost var before := candidates;
        if refined.Some? {
          var candidate := day.(visits := refined.value + evening);
          if TimesFit(candidate) {
            candidates := candidates + [Candidate(ScoreOf(refined.value, daytime, deadline), candidate)];
          }
        }
        assert candidates == before + offer;
      }
    }
  }

  method RefineDaytimeSchedule(day: RoutedDay, count: nat, cross: int, dinner: int) returns (r: RoutedDay)
    ensures r == Refined(day, count, cross, dinner)
  {
    hide Offers, ExpandedSingle, ExpandedEvening, MinimumFinish, Best;
    if count > |day.visits| { return day; }
    var route := ExpandEveningDurations(day, count);
    if count == 1 { return ExpandedSingle(route, cross, dinner); }
    if count < 2 { return route; }
    var daytime, evening := route.visits[..count], route.visits[count..];
    var deadline := route.bounds.endMin;
    if evening != [] {
      var dinnerSafe := evening[0].arrivalMin - cross - dinner;
      if dinnerSafe >= MinimumFinish(daytime, |daytime|) {
        deadline := Min(deadline, dinnerSafe);
      } else {
        deadline := Min(deadline, evening[0].arrivalMin - cross);
      }
    }
    var candidates := CollectCandidates(route, count, deadline);
    r := if candidates == [] then route else Best(candidates).day;
  }
}
