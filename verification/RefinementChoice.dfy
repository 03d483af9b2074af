/** What refinement chooses: which schedules it considers, and that the one it takes is the best of
    them.  Schedules are described stop by stop, with the minutes of the day written out. */
module RefinementChoice {
  import opened Prelude
  import opened Models
  import opened TimeWindows
  import opened Timeline
  import opened Validation
  import opened Refinement
  import opened RefinementProofs

  // ---- the schedules considered -------------------------------------------------------------------

  function StayOf(v: RouteVisit, expand: bool): int {
    if expand && v.attraction.suggestedDuration > v.plannedDurationMin then v.attraction.suggestedDuration
    else v.plannedDurationMin
  }

  /** The earliest arrival at stop `i` after the stop before it in `w`. */
  function Reached(visits: seq<RouteVisit>, w: seq<RouteVisit>, i: nat): int
    requires 1 <= i < |visits| && i <= |w|
  {
    w[i - 1].leaveMin + visits[i].bufferedTravelMin
  }

  /** An hour of lunch, at 14:00 at the latest, can begin before stop `i`, and would not be over
      before 11:30. */
  predicate LunchFitsAt(visits: seq<RouteVisit>, w: seq<RouteVisit>, i: nat)
    requires 1 <= i < |visits| && i <= |w|
  {
    && w[i - 1].leaveMin <= 840
    && Reached(visits, w, i) + 60 >= 690
    && Reached(visits, w, i) < 840
  }

  /** The first stop lunch fits before, if lunch is to be kept. */
  predicate TakesLunch(visits: seq<RouteVisit>, w: seq<RouteVisit>, preserveLunch: bool, i: nat)
    requires i < |visits| && i <= |w|
  {
    preserveLunch && i >= 1 && LunchFitsAt(visits, w, i) && forall k :: 1 <= k < i ==> !LunchFitsAt(visits, w, k)
  }

  /** When stop `i` begins: no earlier than it is reached and than it was routed, but after lunch
      an hour later than it is reached and not before 13:00. */
  function StartOf(visits: seq<RouteVisit>, w: seq<RouteVisit>, preserveLunch: bool, i: nat): int
    requires i < |visits| && i <= |w|
  {
    if i == 0 then visits[0].arrivalMin
    else if TakesLunch(visits, w, preserveLunch, i) then Max(Reached(visits, w, i) + 60, 780)
    else Max(Reached(visits, w, i), visits[i].arrivalMin)
  }

  /** The last stop is delayed by up to an hour towards leaving at 16:00 or at the deadline. */
  function AfternoonDelay(leave: int, deadline: int): int {
    Max(0, Min(60, Min(960, deadline) - leave))
  }

  predicate ScheduledStop(visits: seq<RouteVisit>, w: seq<RouteVisit>, expand: bool, preserveLunch: bool, i: nat)
    requires i < |visits| && i < |w|
  {
    w[i] == Reschedule(visits[i], StartOf(visits, w, preserveLunch, i), StayOf(visits[i], expand))
  }

  /** The schedule for one pair of options, whether or not it meets the deadline. */
  predicate ScheduleFor(visits: seq<RouteVisit>, expand: bool, preserveLunch: bool, deadline: int, w: seq<RouteVisit>) {
    && |w| == |visits| > 0
    && (forall i :: 0 <= i < |visits| - 1 ==> ScheduledStop(visits, w, expand, preserveLunch, i))
    && var last, stay := |visits| - 1, StayOf(visits[|visits| - 1], expand);
       var start := StartOf(visits, w, preserveLunch, last);
       w[last] == Reschedule(visits[last], start + AfternoonDelay(start + stay, deadline), stay)
  }

  predicate LunchTaken(visits: seq<RouteVisit>, w: seq<RouteVisit>)
    requires |w| == |visits|
  {
    exists i :: 1 <= i < |visits| && LunchFitsAt(visits, w, i)
  }

  /** The schedule for one pair of options: in time, and with a lunch if lunch is to be kept. */
  predicate CandidateFor(visits: seq<RouteVisit>, expand: bool, preserveLunch: bool, deadline: int, w: seq<RouteVisit>) {
    && ScheduleFor(visits, expand, preserveLunch, deadline, w)
    && (preserveLunch ==> LunchTaken(visits, w))
    && w[|w| - 1].leaveMin <= deadline
  }

  /** A stretch of stops built without the final delay. */
  predicate BuiltAs(visits: seq<RouteVisit>, n: nat, expand: bool, preserveLunch: bool, p: Progress) {
    && n <= |visits| && |p.built| == n
    && (forall i :: 0 <= i < n ==> ScheduledStop(visits, p.built, expand, preserveLunch, i))
    && (p.lunchInserted <==> preserveLunch && exists i :: 1 <= i < n && LunchFitsAt(visits, p.built, i))
  }

  lemma {:induction false} SameBefore(visits: seq<RouteVisit>, w: seq<RouteVisit>, x: seq<RouteVisit>, preserveLunch: bool, i: nat)
    requires i < |visits| && i <= |w| && i <= |x| && w[..i] == x[..i]
    ensures forall k :: 1 <= k <= i ==> LunchFitsAt(visits, w, k) == LunchFitsAt(visits, x, k)
    ensures StartOf(visits, w, preserveLunch, i) == StartOf(visits, x, preserveLunch, i)
  {
    forall k | 1 <= k <= i
      ensures LunchFitsAt(visits, w, k) == LunchFitsAt(visits, x, k)
      ensures Reached(visits, w, k) == Reached(visits, x, k)
    {
      assert w[..i][k - 1] == x[..i][k - 1];
    }
  }

  lemma {:induction false} AppendedAs(visits: seq<RouteVisit>, n: nat, expand: bool, preserveLunch: bool, p: Progress)
    requires n < |visits| && BuiltAs(visits, n, expand, preserveLunch, p)
    ensures
      var r := AppendNext(p, visits[n], expand, preserveLunch);
      && r.built == p.built + [Reschedule(visits[n], StartOf(visits, p.built, preserveLunch, n), StayOf(visits[n], expand))]
      && (r.lunchInserted <==> p.lunchInserted || TakesLunch(visits, p.built, preserveLunch, n))
  {
    hide Reschedule, ScheduledStop;
    if n > 0 { assert p.built[n - 1] == p.built[|p.built| - 1]; }
  }

  lemma {:induction false} BuiltIsAs(visits: seq<RouteVisit>, n: nat, expand: bool, preserveLunch: bool)
    requires n <= |visits|
    ensures BuiltAs(visits, n, expand, preserveLunch, Built(visits, n, expand, preserveLunch))
  {
    hide AppendNext, Reschedule, StayOf, LunchFitsAt;
    if n > 0 {
      BuiltIsAs(visits, n - 1, expand, preserveLunch);
      var p, r := Built(visits, n - 1, expand, preserveLunch), Built(visits, n, expand, preserveLunch);
      AppendedAs(visits, n - 1, expand, preserveLunch, p);
      forall i | 0 <= i < n
        ensures StartOf(visits, r.built, preserveLunch, i) == StartOf(visits, p.built, preserveLunch, i)
        ensures forall k :: 1 <= k <= i ==> LunchFitsAt(visits, r.built, k) == LunchFitsAt(visits, p.built, k)
      {
        SameBefore(visits, r.built, p.built, preserveLunch, i);
      }
      forall i | 0 <= i < n
        ensures ScheduledStop(visits, r.built, expand, preserveLunch, i)
      {
        if i < n - 1 { assert ScheduledStop(visits, p.built, expand, preserveLunch, i); }
      }
    }
  }

  /** A sequence scheduled stop by stop is the built one. */
  lemma {:induction false} ScheduledIsBuilt(visits: seq<RouteVisit>, n: nat, expand: bool, preserveLunch: bool, w: seq<RouteVisit>)
    requires n <= |visits| && n <= |w|
    requires forall i :: 0 <= i < n ==> ScheduledStop(visits, w, expand, preserveLunch, i)
    ensures w[..n] == Built(visits, n, expand, preserveLunch).built
  {
    hide AppendNext, Reschedule, StayOf, LunchFitsAt, StartOf;
    if n > 0 {
      ScheduledIsBuilt(visits, n - 1, expand, preserveLunch, w);
      BuiltIsAs(visits, n - 1, expand, preserveLunch);
      var p := Built(visits, n - 1, expand, preserveLunch);
      AppendedAs(visits, n - 1, expand, preserveLunch, p);
      assert p.built[..n - 1] == p.built;
      SameBefore(visits, w, p.built, preserveLunch, n - 1);
      assert ScheduledStop(visits, w, expand, preserveLunch, n - 1);
      assert w[..n] == w[..n - 1] + [w[n - 1]];
    }
  }

  lemma {:induction false} DelayedLast(visits: seq<RouteVisit>, built: seq<RouteVisit>, deadline: int, start: int, stay: int)
    requires built != [] && |visits| == |built| && built[|built| - 1] == Reschedule(visits[|built| - 1], start, stay)
    ensures DelayLast(built, deadline)
      == built[|built| - 1 := Reschedule(visits[|built| - 1], start + AfternoonDelay(start + stay, deadline), stay)]
  {
    hide Reevaluate;
    RescheduleTwice(visits[|built| - 1], start, stay, start + AfternoonDelay(start + stay, deadline), stay);
  }

  lemma {:induction false} CandidateIsSchedule(visits: seq<RouteVisit>, expand: bool, preserveLunch: bool, deadline: int)
    requires visits != []
    ensures
      var p := Built(visits, |visits|, expand, preserveLunch);
      var w := DelayLast(p.built, deadline);
      && ScheduleFor(visits, expand, preserveLunch, deadline, w)
      && (p.lunchInserted <==> preserveLunch && LunchTaken(visits, w))
  {
    hide Reschedule, StayOf, LunchFitsAt, DelayLast, StartOf, AfternoonDelay;
    var last := |visits| - 1;
    var p := Built(visits, |visits|, expand, preserveLunch);
    BuiltIsAs(visits, |visits|, expand, preserveLunch);
    var start, stay := StartOf(visits, p.built, preserveLunch, last), StayOf(visits[last], expand);
    assert ScheduledStop(visits, p.built, expand, preserveLunch, last);
    DelayedLast(visits, p.built, deadline, start, stay);
    var w := DelayLast(p.built, deadline);
    assert w[..last] == p.built[..last];
    forall i | 0 <= i < |visits|
      ensures StartOf(visits, w, preserveLunch, i) == StartOf(visits, p.built, preserveLunch, i)
      ensures i >= 1 ==> LunchFitsAt(visits, w, i) == LunchFitsAt(visits, p.built, i)
    {
      assert w[..i] == p.built[..i];
      SameBefore(visits, w, p.built, preserveLunch, i);
    }
    forall i | 0 <= i < last
      ensures ScheduledStop(visits, w, expand, preserveLunch, i)
    {
      assert ScheduledStop(visits, p.built, expand, preserveLunch, i);
    }
  }

  lemma {:induction false} ScheduleIsUnique(
    visits: seq<RouteVisit>, expand: bool, preserveLunch: bool, deadline: int, w: seq<RouteVisit>, x: seq<RouteVisit>)
    requires ScheduleFor(visits, expand, preserveLunch, deadline, w)
    requires ScheduleFor(visits, expand, preserveLunch, deadline, x)
    ensures w == x
  {
    hide Reschedule, StayOf, StartOf, AfternoonDelay, ScheduledStop;
    var last := |visits| - 1;
    ScheduledIsBuilt(visits, last, expand, preserveLunch, w);
    ScheduledIsBuilt(visits, last, expand, preserveLunch, x);
    SameBefore(visits, w, x, preserveLunch, last);
    assert w == w[..last] + [w[last]] && x == x[..last] + [x[last]];
  }

  /** A pair of options yields exactly the schedule it describes, if that is in time and has its
      lunch, and nothing otherwise. */
  lemma {:induction false} CandidateIsExact(
    visits: seq<RouteVisit>, expand: bool, preserveLunch: bool, deadline: int, w: seq<RouteVisit>)
    requires visits != []
    ensures CandidateSpec(visits, expand, preserveLunch, deadline) == Some(w) <==>
      CandidateFor(visits, expand, preserveLunch, deadline, w)
  {
    hide ScheduleFor, LunchTaken, DelayLast, Built;
    CandidateIsSchedule(visits, expand, preserveLunch, deadline);
    var x := DelayLast(Built(visits, |visits|, expand, preserveLunch).built, deadline);
    if ScheduleFor(visits, expand, preserveLunch, deadline, w) {
      ScheduleIsUnique(visits, expand, preserveLunch, deadline, w, x);
    }
  }

  // ---- what makes one schedule better ---------------------------------------------------------------

  /** An hour between 11:30 and 14:00, begun after stop `i - 1`, that leaves the travel to stop `i`. */
  predicate LunchHour(visits: seq<RouteVisit>, i: nat, t: int)
    requires 1 <= i < |visits|
  {
    && visits[i - 1].leaveMin <= t && t + 60 <= visits[i].arrivalMin - visits[i].bufferedTravelMin
    && 690 <= t && t + 60 <= 840
  }

  ghost predicate LeavesLunch(visits: seq<RouteVisit>) {
    exists i, t :: 1 <= i < |visits| && LunchHour(visits, i, t)
  }

  function LastLeave(visits: seq<RouteVisit>): int
    requires visits != []
  {
    visits[|visits| - 1].leaveMin
  }

  /** How far a day ends from 16:00, or from the deadline if that is earlier. */
  function OffTarget(leave: int, deadline: int): int {
    var target := if deadline < 960 then deadline else 960;
    if leave <= target then target - leave else leave - target
  }

  /** `a` leaves a lunch that `b` does not; or else has longer stays, or else ends nearer to the
      afternoon target, or else earlier. */
  ghost predicate Outdoes(a: seq<RouteVisit>, b: seq<RouteVisit>, deadline: int)
    requires a != [] && b != []
  {
    if LeavesLunch(a) != LeavesLunch(b) then LeavesLunch(a)
    else if PlannedTotal(a) != PlannedTotal(b) then PlannedTotal(a) > PlannedTotal(b)
    else if OffTarget(LastLeave(a), deadline) != OffTarget(LastLeave(b), deadline) then
      OffTarget(LastLeave(a), deadline) < OffTarget(LastLeave(b), deadline)
    else LastLeave(a) < LastLeave(b)
  }

  lemma {:induction false} LunchGapExact(visits: seq<RouteVisit>)
    ensures LunchGap(visits) >= LUNCH_DURATION_MIN <==> LeavesLunch(visits)
  {
    if |visits| >= 2 {
      var front, i := visits[..|visits| - 1], |visits| - 1;
      LunchGapExact(front);
      var t := Max(visits[i - 1].leaveMin, LUNCH_EARLIEST_MIN);
      if LeavesLunch(front) {
        var k, s :| 1 <= k < |front| && LunchHour(front, k, s);
        assert LunchHour(visits, k, s);
      }
      if LunchHour(visits, i, t) {
        assert LeavesLunch(visits);
      }
      if LeavesLunch(visits) && !LunchHour(visits, i, t) {
        var k, s :| 1 <= k < |visits| && LunchHour(visits, k, s);
        assert k < i;
        assert LunchHour(front, k, s);
      }
    }
  }

  lemma {:induction false} PlannedMinutesAreTotal(visits: seq<RouteVisit>)
    ensures PlannedMinutes(visits) == PlannedTotal(visits)
  {
    if visits != [] {
      var front, last := visits[..|visits| - 1], visits[|visits| - 1];
      var stay := (v: RouteVisit) => v.plannedDurationMin;
      PlannedMinutesAreTotal(front);
      assert visits == front + [last];
      MapConcat(stay, front, [last]);
      SumConcat(Map(stay, front), Map(stay, [last]));
      SumOfOne(Map(stay, [last]));
    }
  }

  lemma {:induction false} HigherIsBetter(a: seq<RouteVisit>, b: seq<RouteVisit>, daytime: seq<RouteVisit>, deadline: int)
    requires a != [] && b != []
    ensures Higher(ScoreOf(a, daytime, deadline), ScoreOf(b, daytime, deadline)) <==> Outdoes(a, b, deadline)
  {
    hide LunchGap, LeavesLunch, PlannedMinutes, PlannedTotal;
    LunchGapExact(a);
    LunchGapExact(b);
    PlannedMinutesAreTotal(a);
    PlannedMinutesAreTotal(b);
  }

  // ---- the choice ------------------------------------------------------------------------------------

  /** The day `r` follows option pair `m`: longer stays or not, lunch kept or not, in the order
      they are tried; the evening stays, and every stop lies in its window and the day. */
  predicate OptionDay(day: RoutedDay, count: nat, deadline: int, m: nat, r: RoutedDay)
    requires 1 <= count <= |day.visits|
  {
    && m < 4
    && r == day.(visits := r.visits) && |r.visits| == |day.visits| && r.visits[count..] == day.visits[count..]
    && CandidateFor(day.visits[..count], m == 0 || m == 1, m == 0 || m == 2, deadline, r.visits[..count])
    && TimesFit(r)
  }

  /** `r` is the first of the best among the option days, or the unrefined day if there is none. */
  ghost predicate BestOption(day: RoutedDay, count: nat, deadline: int, r: RoutedDay, options: nat)
    requires 1 <= count <= |day.visits|
  {
    || (r == day && forall j: nat, other :: j < options ==> !OptionDay(day, count, deadline, j, other))
    || exists m: nat :: m < options && OptionDay(day, count, deadline, m, r) && NoneBetter(day, count, deadline, m, r, options)
  }

  ghost predicate NoneBetter(day: RoutedDay, count: nat, deadline: int, m: nat, r: RoutedDay, options: nat)
    requires 1 <= count <= |day.visits| == |r.visits|
  {
    forall j: nat, other :: j < options && OptionDay(day, count, deadline, j, other) ==>
      && !Outdoes(other.visits[..count], r.visits[..count], deadline)
      && (j < m ==> Outdoes(r.visits[..count], other.visits[..count], deadline))
  }

  lemma {:induction false} OfferIsOption(day: RoutedDay, count: nat, deadline: int, m: nat, r: RoutedDay)
    requires 1 <= count <= |day.visits| && m < 4
    ensures OptionDay(day, count, deadline, m, r) <==>
      var offer := Offer(day, count, deadline, m < 2, m % 2 == 0);
      |r.visits| == |day.visits| && offer == [Candidate(ScoreOf(r.visits[..count], day.visits[..count], deadline), r)]
  {
    hide CandidateSpec, CandidateFor, TimesFit, ScoreOf;
    var daytime, evening := day.visits[..count], day.visits[count..];
    var spec := CandidateSpec(daytime, m < 2, m % 2 == 0, deadline);
    CandidateIsExact(daytime, m < 2, m % 2 == 0, deadline, if |r.visits| >= count then r.visits[..count] else []);
    if |r.visits| == |day.visits| { assert r.visits == r.visits[..count] + r.visits[count..]; }
    if spec.Some? {
      var offered := day.(visits := spec.value + evening);
      assert offered.visits[..count] == spec.value && offered.visits[count..] == evening;
    }
  }

  lemma {:induction false} OfferShape(day: RoutedDay, count: nat, deadline: int, m: nat)
    requires 1 <= count <= |day.visits| && m < 4
    ensures
      var offer := Offer(day, count, deadline, m < 2, m % 2 == 0);
      offer == [] || (|offer| == 1 && OptionDay(day, count, deadline, m, offer[0].day)
                      && offer[0].score == ScoreOf(offer[0].day.visits[..count], day.visits[..count], deadline))
  {
    hide CandidateSpec, TimesFit, ScoreOf, CandidateFor;
    var offer := Offer(day, count, deadline, m < 2, m % 2 == 0);
    if offer != [] {
      var refined := CandidateSpec(day.visits[..count], m < 2, m % 2 == 0, deadline).value;
      assert offer[0].day.visits[..count] == refined;
      OfferIsOption(day, count, deadline, m, offer[0].day);
    }
  }

  lemma {:induction false} OptionIsUnique(day: RoutedDay, count: nat, deadline: int, m: nat, r: RoutedDay, x: RoutedDay)
    requires 1 <= count <= |day.visits|
    requires OptionDay(day, count, deadline, m, r) && OptionDay(day, count, deadline, m, x)
    ensures r == x
  {
    hide ScheduleFor, TimesFit, LunchTaken;
    ScheduleIsUnique(day.visits[..count], m < 2, m % 2 == 0, deadline, r.visits[..count], x.visits[..count]);
    assert r.visits == r.visits[..count] + r.visits[count..] && x.visits == x.visits[..count] + x.visits[count..];
  }

  lemma {:induction false} BestAppend(front: seq<Candidate>, last: Candidate)
    requires front != []
    ensures Best(front + [last]) == if Higher(last.score, Best(front).score) then last else Best(front)
  {
    assert (front + [last])[..|front|] == front;
  }

  lemma {:induction false} OutdoesIsOrder(a: seq<RouteVisit>, b: seq<RouteVisit>, c: seq<RouteVisit>, deadline: int)
    requires a != [] && b != [] && c != []
    ensures !Outdoes(a, a, deadline)
    ensures Outdoes(a, b, deadline) ==> !Outdoes(b, a, deadline)
    ensures Outdoes(a, b, deadline) && !Outdoes(c, b, deadline) ==> Outdoes(a, c, deadline)
  {
    hide LeavesLunch, PlannedTotal;
  }

  /** What is known after the first `k` option pairs. */
  ghost predicate ChosenSoFar(day: RoutedDay, count: nat, deadline: int, k: nat, candidates: seq<Candidate>)
    requires 1 <= count <= |day.visits|
  {
    if candidates == [] then forall j: nat, other :: j < k ==> !OptionDay(day, count, deadline, j, other)
    else
      var best := Best(candidates);
      && |best.day.visits| == |day.visits|
      && best.score == ScoreOf(best.day.visits[..count], day.visits[..count], deadline)
      && exists m: nat :: m < k && OptionDay(day, count, deadline, m, best.day) && NoneBetter(day, count, deadline, m, best.day, k)
  }

  lemma {:induction false} ChooseNext(day: RoutedDay, count: nat, deadline: int, k: nat, candidates: seq<Candidate>)
    requires 1 <= count <= |day.visits| && k < 4 && ChosenSoFar(day, count, deadline, k, candidates)
    ensures ChosenSoFar(day, count, deadline, k + 1, candidates + Offer(day, count, deadline, k < 2, k % 2 == 0))
  {
    hide OptionDay, Offer, ScoreOf, Outdoes, Higher, Best;
    var offer := Offer(day, count, deadline, k < 2, k % 2 == 0);
    OfferShape(day, count, deadline, k);
    forall other | OptionDay(day, count, deadline, k, other)
      ensures offer != [] && other == offer[0].day
    {
      OfferIsOption(day, count, deadline, k, other);
    }
    if offer == [] {
      assert candidates + offer == candidates;
    } else {
      NewcomerCompared(day, count, deadline, k, candidates, offer[0]);
      assert offer == [offer[0]];
    }
  }

  lemma {:induction false} OnlyCandidate(day: RoutedDay, count: nat, deadline: int, k: nat, last: Candidate)
    requires 1 <= count <= |day.visits|
    requires OptionDay(day, count, deadline, k, last.day)
    requires last.score == ScoreOf(last.day.visits[..count], day.visits[..count], deadline)
    requires forall j: nat, other :: j < k ==> !OptionDay(day, count, deadline, j, other)
    ensures ChosenSoFar(day, count, deadline, k + 1, [last])
  {
    hide CandidateFor, TimesFit, ScoreOf, Outdoes;
    forall j: nat, other | j < k + 1 && OptionDay(day, count, deadline, j, other)
      ensures other == last.day && !Outdoes(other.visits[..count], last.day.visits[..count], deadline)
    {
      OptionIsUnique(day, count, deadline, k, last.day, other);
      OutdoesIsOrder(other.visits[..count], other.visits[..count], other.visits[..count], deadline);
    }
    assert NoneBetter(day, count, deadline, k, last.day, k + 1);
  }

  lemma {:induction false} NewcomerCompared(
    day: RoutedDay, count: nat, deadline: int, k: nat, candidates: seq<Candidate>, last: Candidate)
    requires 1 <= count <= |day.visits| && ChosenSoFar(day, count, deadline, k, candidates)
    requires OptionDay(day, count, deadline, k, last.day)
    requires last.score == ScoreOf(last.day.visits[..count], day.visits[..count], deadline)
    ensures ChosenSoFar(day, count, deadline, k + 1, candidates + [last])
  {
    hide CandidateFor, TimesFit, ScoreOf, Outdoes, Higher, Best;
    if candidates == [] {
      assert candidates + [last] == [last];
      OnlyCandidate(day, count, deadline, k, last);
    } else {
      BestAppend(candidates, last);
      var best := Best(candidates);
      var m: nat :| m < k && OptionDay(day, count, deadline, m, best.day) && NoneBetter(day, count, deadline, m, best.day, k);
      var a, b := last.day.visits[..count], best.day.visits[..count];
      HigherIsBetter(a, b, day.visits[..count], deadline);
      forall j: nat, other | j < k + 1 && OptionDay(day, count, deadline, j, other)
        ensures |other.visits| == |day.visits|
        ensures j == k ==> other == last.day
        ensures Outdoes(a, b, deadline) ==>
          !Outdoes(other.visits[..count], a, deadline) && (j < k ==> Outdoes(a, other.visits[..count], deadline))
        ensures !Outdoes(a, b, deadline) ==>
          !Outdoes(other.visits[..count], b, deadline) && (j < m ==> Outdoes(b, other.visits[..count], deadline))
      {
        if j == k { OptionIsUnique(day, count, deadline, k, last.day, other); }
        OutdoesIsOrder(a, b, other.visits[..count], deadline);
        OutdoesIsOrder(a, other.visits[..count], b, deadline);
      }
      if Outdoes(a, b, deadline) {
        assert NoneBetter(day, count, deadline, k, last.day, k + 1);
      } else {
        assert NoneBetter(day, count, deadline, m, best.day, k + 1);
      }
    }
  }

  lemma {:induction false} ChosenAfter(day: RoutedDay, count: nat, deadline: int, k: nat)
    requires 1 <= count <= |day.visits| && k <= 4
    ensures ChosenSoFar(day, count, deadline, k, Offers(day, count, deadline, k))
  {
    hide ChosenSoFar, Offer;
    if k == 0 {
      NothingChosen(day, count, deadline);
    } else {
      ChosenAfter(day, count, deadline, k - 1);
      ChooseNext(day, count, deadline, k - 1, Offers(day, count, deadline, k - 1));
    }
  }

  lemma {:induction false} NothingChosen(day: RoutedDay, count: nat, deadline: int)
    requires 1 <= count <= |day.visits|
    ensures ChosenSoFar(day, count, deadline, 0, [])
  {
  }

  /** With several daytime stops the refined day is the best of the four schedules that meet the
      deadline and every window: one with a lunch hour if any has, then the one with the longest
      stays, then the one ending nearest to 16:00 or the deadline, then the earliest, then the
      first tried.  Without such a schedule only the evening stays are stretched. */
  lemma {:induction false} RefinedIsBestOption(day: RoutedDay, count: nat, cross: int, dinner: int)
    requires 2 <= count <= |day.visits|
    ensures
      var expanded := ExpandedEvening(day, count);
      BestOption(expanded, count, Deadline(expanded, count, cross, dinner), Refined(day, count, cross, dinner), 4)
  {
    hide OptionDay, Offers, Deadline, ExpandedEvening, ScoreOf, NoneBetter, Best;
    var expanded := ExpandedEvening(day, count);
    ChosenAfter(expanded, count, Deadline(expanded, count, cross, dinner), 4);
  }

  // ---- the deadline -------------------------------------------------------------------------------------

  /** The stops of `visits`, with their stays, in another possible timing from the same start. */
  predicate Retimed(visits: seq<RouteVisit>, w: seq<RouteVisit>) {
    && |w| == |visits| > 0 && Ordered(w)
    && w[0].arrivalMin == visits[0].arrivalMin
    && forall i :: 0 <= i < |w| ==>
         && w[i].attraction == visits[i].attraction && w[i].bufferedTravelMin == visits[i].bufferedTravelMin
         && w[i].plannedDurationMin == visits[i].plannedDurationMin
         && w[i].leaveMin == w[i].arrivalMin + w[i].plannedDurationMin
  }

  ghost predicate CanLeaveBy(visits: seq<RouteVisit>, minute: int) {
    exists w: seq<RouteVisit> :: Retimed(visits, w) && w[|w| - 1].leaveMin <= minute
  }

  lemma {:induction false} RetimedNoEarlier(visits: seq<RouteVisit>, w: seq<RouteVisit>, n: nat)
    requires Retimed(visits, w) && 1 <= n <= |visits|
    ensures MinimumFinish(visits, n) <= w[n - 1].leaveMin
  {
    if n > 1 { RetimedNoEarlier(visits, w, n - 1); }
  }

  lemma {:induction false} RetimedTight(visits: seq<RouteVisit>, n: nat) returns (w: seq<RouteVisit>)
    requires 1 <= n <= |visits|
    ensures Retimed(visits[..n], w) && w[n - 1].leaveMin == MinimumFinish(visits, n)
  {
    hide Reevaluate;
    if n == 1 {
      w := [Reschedule(visits[0], visits[0].arrivalMin, visits[0].plannedDurationMin)];
    } else {
      var front := RetimedTight(visits, n - 1);
      var v := visits[n - 1];
      var last := Reschedule(v, front[n - 2].leaveMin + v.bufferedTravelMin, v.plannedDurationMin);
      w := front + [last];
      OrderedAppend(front, last);
    }
  }

  /** The deadline is the end of the day, or before an evening the departure; it leaves a full dinner
      before the departure exactly when the stops, with their stays, can be over by then. */
  lemma {:induction false} DeadlineIsExact(day: RoutedDay, count: nat, cross: int, dinner: int)
    requires 1 <= count <= |day.visits|
    ensures Deadline(day, count, cross, dinner) ==
      if count == |day.visits| then day.bounds.endMin
      else
        var departure := day.visits[count].arrivalMin - cross;
        var latest := if CanLeaveBy(day.visits[..count], departure - dinner) then departure - dinner else departure;
        if latest < day.bounds.endMin then latest else day.bounds.endMin
  {
    if count < |day.visits| {
      hide Retimed, MinimumFinish;
      var daytime, minute := day.visits[..count], day.visits[count].arrivalMin - cross - dinner;
      var w := RetimedTight(daytime, count);
      assert daytime[..count] == daytime;
      RetimedLength(daytime, w);
      if CanLeaveBy(daytime, minute) {
        var x: seq<RouteVisit> :| Retimed(daytime, x) && x[|x| - 1].leaveMin <= minute;
        RetimedLength(daytime, x);
        RetimedNoEarlier(daytime, x, count);
      }
    }
  }

  lemma {:induction false} RetimedLength(visits: seq<RouteVisit>, w: seq<RouteVisit>)
    requires Retimed(visits, w)
    ensures |w| == |visits| > 0
  {
  }

  // ---- stretched stays -----------------------------------------------------------------------------------

  /** Evening visit `i` can stay for `stay` minutes: inside its window and the day, and in time for
      the next visit. */
  predicate StayFits(day: RoutedDay, i: nat, stay: int)
    requires i < |day.visits|
  {
    var v := day.visits[i];
    && FitsDay(v.attraction, day.visitDate, day.bounds, v.arrivalMin, stay)
    && (i + 1 < |day.visits| ==>
          v.arrivalMin + stay + day.visits[i + 1].bufferedTravelMin <= day.visits[i + 1].arrivalMin)
  }

  /** Every evening visit stays as long as it can up to the suggestion, and no visit of the daytime
      changes. */
  lemma {:induction false} EveningStaysAreLongest(day: RoutedDay, count: nat, i: nat, stay: int)
    requires Tidy(day) && count <= |day.visits| && i < |day.visits|
    ensures
      var r := ExpandedEvening(day, count).visits[i];
      && (i < count ==> r == day.visits[i])
      && (i >= count ==>
            SameStop(day.visits[i], r) && r.arrivalMin == day.visits[i].arrivalMin && StayFits(day, i, r.plannedDurationMin))
      && (i >= count && stay <= day.visits[i].attraction.suggestedDuration && StayFits(day, i, stay) ==>
            stay <= r.plannedDurationMin)
      && day.visits[i].plannedDurationMin <= r.plannedDurationMin
      && r.plannedDurationMin <= Max(day.visits[i].plannedDurationMin, day.visits[i].attraction.suggestedDuration)
  {
    hide Reevaluate, ResolveEffectiveWindow;
    if i >= count {
      ExpandedVisitFits(day, i);
      assert TidyVisit(day.visits[i]);
    }
  }

  // ---- one daytime visit -----------------------------------------------------------------------------------

  /** The only daytime visit can begin at `arrival` and stay for `stay` minutes: inside its window and
      the day, in time for the evening, and before a full dinner if there was room for one. */
  predicate SingleFits(day: RoutedDay, cross: int, dinner: int, arrival: int, stay: int)
    requires day.visits != []
  {
    && FitsDay(day.visits[0].attraction, day.visitDate, day.bounds, arrival, stay)
    && (|day.visits| > 1 ==>
          arrival + stay + cross + (if DinnerGap(day, 1, cross, dinner) then dinner else 0) <= day.visits[1].arrivalMin)
  }

  /** When the visit would begin to be left at 16:00, or as late as the window, the day and dinner
      allow: not before it was routed, nor before an hour of lunch from 11:30 on. */
  function AfternoonStart(day: RoutedDay, cross: int, dinner: int, stay: int): int
    requires |day.visits| > 1 && DefaultWindow(day.visits[0].attraction, day.visitDate).Window?
  {
    var closing := Min(day.bounds.endMin, DefaultWindow(day.visits[0].attraction, day.visitDate).window.closeMin);
    var leave := Min(960, Min(closing, day.visits[1].arrivalMin - cross - dinner));
    Max(leave - stay, Max(day.visits[0].arrivalMin, Max(day.bounds.startMin, 690) + 60))
  }

  /** The visit is moved to cover the afternoon. */
  predicate MovesToAfternoon(day: RoutedDay, cross: int, dinner: int, stay: int)
    requires day.visits != []
  {
    && |day.visits| > 1 && DinnerGap(day, 1, cross, dinner)
    && DefaultWindow(day.visits[0].attraction, day.visitDate).Window?
    && day.visits[0].plannedDurationMin <= day.visits[0].attraction.suggestedDuration
    && Max(day.bounds.startMin, 690) + 60 <= 840
    && SingleFits(day, cross, dinner, AfternoonStart(day, cross, dinner, stay), stay)
  }

  /** A single daytime visit stays as long as it can where it was routed, up to the suggestion; it
      then begins where it was routed, or in the afternoon if that whole stay fits there. */
  lemma {:induction false} SingleIsExact(day: RoutedDay, cross: int, dinner: int, stay: int)
    requires Tidy(day) && day.visits != [] && CrossStored(day, 1, cross) && dinner >= 0
    ensures
      var r, v := ExpandedSingle(day, cross, dinner), day.visits[0];
      && |r.visits| == |day.visits| && r.visits[1..] == day.visits[1..]
      && v.plannedDurationMin <= r.visits[0].plannedDurationMin <= Max(v.plannedDurationMin, v.attraction.suggestedDuration)
      && SingleFits(day, cross, dinner, v.arrivalMin, r.visits[0].plannedDurationMin)
      && (stay <= v.attraction.suggestedDuration && SingleFits(day, cross, dinner, v.arrivalMin, stay) ==>
            stay <= r.visits[0].plannedDurationMin)
      && r.visits[0].arrivalMin ==
           if MovesToAfternoon(day, cross, dinner, r.visits[0].plannedDurationMin) then
             AfternoonStart(day, cross, dinner, r.visits[0].plannedDurationMin)
           else v.arrivalMin
  {
    hide TimesFit, Reschedule, ResolveEffectiveWindow, Ordered, SingleFits, FitsDay, SingleDeadline, LatestFor, AfternoonStart,
         DinnerGap, SpreadSingle;
    var v := day.visits[0];
    FirstVisitFits(day);
    var window := DefaultWindow(v.attraction, day.visitDate).window;
    var (deadline, canSpread) := SingleDeadline(day, window, cross, dinner);
    var duration := Min(v.attraction.suggestedDuration, deadline - v.arrivalMin);
    SingleStays(day, cross, dinner, v.plannedDurationMin);
    SingleStays(day, cross, dinner, stay);
    SingleStays(day, cross, dinner, duration);
    if duration >= v.plannedDurationMin {
      FirstVisitDecides(day, day, v.arrivalMin, duration);
      FirstVisitIsReplaced(day, v.arrivalMin, duration);
      var expanded := if duration > v.plannedDurationMin then ReplaceFirst(day, v.arrivalMin, duration) else day;
      if canSpread { SingleSpreads(day, expanded, cross, dinner, duration); }
    }
  }

  lemma {:induction false} FirstVisitFits(day: RoutedDay)
    requires Tidy(day) && day.visits != []
    ensures
      var v := day.visits[0];
      && FitsDay(v.attraction, day.visitDate, day.bounds, v.arrivalMin, v.plannedDurationMin)
      && DefaultWindow(v.attraction, day.visitDate).Window?
      && v.leaveMin == v.arrivalMin + v.plannedDurationMin && v.plannedDurationMin >= 1
  {
    hide ResolveEffectiveWindow;
    assert TidyVisit(day.visits[0]);
  }

  lemma {:induction false} FirstVisitIsReplaced(day: RoutedDay, arrival: int, duration: int)
    requires day.visits != []
    ensures
      var r := ReplaceFirst(day, arrival, duration);
      && r == day.(visits := r.visits) && |r.visits| == |day.visits| && r.visits[1..] == day.visits[1..]
      && r.visits[0].attraction == day.visits[0].attraction
      && r.visits[0].arrivalMin == arrival && r.visits[0].plannedDurationMin == duration
  {
    hide Reevaluate;
  }

  /** Where it was routed the visit can stay until its deadline. */
  lemma {:induction false} SingleStays(day: RoutedDay, cross: int, dinner: int, stay: int)
    requires Tidy(day) && day.visits != [] && CrossStored(day, 1, cross) && dinner >= 0
    ensures
      var v := day.visits[0];
      var resolution := DefaultWindow(v.attraction, day.visitDate);
      && resolution.Window?
      && (SingleFits(day, cross, dinner, v.arrivalMin, stay) <==>
            v.arrivalMin + stay <= SingleDeadline(day, resolution.window, cross, dinner).0)
      && (SingleFits(day, cross, dinner, v.arrivalMin, stay) ==>
            FitsDay(v.attraction, day.visitDate, day.bounds, v.arrivalMin, stay))
      && v.leaveMin <= SingleDeadline(day, resolution.window, cross, dinner).0
      && (SingleDeadline(day, resolution.window, cross, dinner).1 <==> |day.visits| > 1 && DinnerGap(day, 1, cross, dinner))
  {
    hide ResolveEffectiveWindow, TimesFit;
    FirstVisitFits(day);
    SingleStartsInTime(day, cross);
  }

  /** The later start is taken exactly if the whole stay fits there. */
  lemma {:induction false} SingleSpreads(day: RoutedDay, expanded: RoutedDay, cross: int, dinner: int, duration: int)
    requires Tidy(day) && |day.visits| > 1 && CrossStored(day, 1, cross) && dinner >= 0 && DinnerGap(day, 1, cross, dinner)
    requires day.visits[0].plannedDurationMin <= duration
    requires expanded == day.(visits := expanded.visits) && |expanded.visits| == |day.visits|
    requires expanded.visits[0].attraction == day.visits[0].attraction && expanded.visits[1..] == day.visits[1..]
    requires expanded.visits[0].arrivalMin == day.visits[0].arrivalMin && expanded.visits[0].plannedDurationMin == duration
    ensures DefaultWindow(day.visits[0].attraction, day.visitDate).Window?
    ensures
      var window := DefaultWindow(day.visits[0].attraction, day.visitDate).window;
      var r := SpreadSingle(day, expanded, window, SingleDeadline(day, window, cross, dinner).0, duration);
      var start := AfternoonStart(day, cross, dinner, duration);
      && |r.visits| == |day.visits| && r.visits[1..] == day.visits[1..] && r.visits[0].plannedDurationMin == duration
      && r.visits[0].arrivalMin ==
           if Max(day.bounds.startMin, 690) + 60 <= 840 && SingleFits(day, cross, dinner, start, duration) then start
           else day.visits[0].arrivalMin
  {
    hide ResolveEffectiveWindow, TimesFit, Reschedule;
    FirstVisitFits(day);
    var start := AfternoonStart(day, cross, dinner, duration);
    assert forall i :: 1 <= i < |day.visits| ==> expanded.visits[i] == expanded.visits[1..][i - 1];
    assert forall i :: 1 <= i < |day.visits| ==> day.visits[i] == day.visits[1..][i - 1];
    FirstVisitDecides(day, expanded, start, duration);
    FirstVisitIsReplaced(expanded, start, duration);
  }

  lemma {:induction false} SingleStartsInTime(day: RoutedDay, cross: int)
    requires Tidy(day) && day.visits != [] && CrossStored(day, 1, cross)
    ensures |day.visits| > 1 ==> day.visits[0].leaveMin + cross <= day.visits[1].arrivalMin
  {
    hide TimesFit;
  }

  /** Whether a day fits after its first visit was moved comes down to that visit. */
  lemma {:induction false} FirstVisitDecides(day: RoutedDay, expanded: RoutedDay, arrival: int, duration: int)
    requires TimesFit(day) && day.visits != []
    requires expanded == day.(visits := expanded.visits) && |expanded.visits| == |day.visits|
    requires expanded.visits[0].attraction == day.visits[0].attraction
    requires forall i :: 1 <= i < |day.visits| ==> expanded.visits[i] == day.visits[i]
    ensures TimesFit(ReplaceFirst(expanded, arrival, duration)) <==>
      FitsDay(day.visits[0].attraction, day.visitDate, day.bounds, arrival, duration)
  {
    hide FitsDay;
    FirstVisitIsReplaced(expanded, arrival, duration);
    var r := ReplaceFirst(expanded, arrival, duration);
    forall i | 1 <= i < |day.visits|
      ensures r.visits[i] == day.visits[i]
    {
      assert r.visits[i] == r.visits[1..][i - 1] && expanded.visits[i] == expanded.visits[1..][i - 1];
    }
  }

  // ---- the whole refinement -------------------------------------------------------------------------------------

  /** Whatever happens to the daytime, the evening visits are those with stretched stays. */
  lemma {:induction false} RefinedEvening(day: RoutedDay, count: nat, cross: int, dinner: int)
    requires Tidy(day) && CrossStored(day, count, cross) && dinner >= 0 && count <= |day.visits|
    ensures
      var r := Refined(day, count, cross, dinner);
      |r.visits| == |day.visits| && r.visits[count..] == ExpandedEvening(day, count).visits[count..]
  {
    hide ExpandedEvening, CandidateFor, Deadline, TimesFit, ExpandedSingle, NoneBetter;
    var expanded := ExpandedEvening(day, count);
    ExpandedEveningIsTidy(day, count);
    ExpandedEveningKeepsDaytime(day, count, cross, dinner);
    if count == 1 {
      SingleIsExact(expanded, cross, dinner, 0);
    } else if count >= 2 {
      var deadline, r := Deadline(expanded, count, cross, dinner), Refined(day, count, cross, dinner);
      RefinedIsBestOption(day, count, cross, dinner);
      if m: nat :| m < 4 && OptionDay(expanded, count, deadline, m, r) && NoneBetter(expanded, count, deadline, m, r, 4) {
        OptionKeepsEvening(expanded, count, deadline, m, r);
      }
    }
  }

  lemma {:induction false} OptionKeepsEvening(day: RoutedDay, count: nat, deadline: int, m: nat, r: RoutedDay)
    requires 1 <= count <= |day.visits| && OptionDay(day, count, deadline, m, r)
    ensures |r.visits| == |day.visits| && r.visits[count..] == day.visits[count..]
  {
    hide CandidateFor, TimesFit;
  }

  /** Every visit of the evening of a refined day stays as long as its window, the day and the next
      visit allow, up to the suggestion. */
  lemma {:induction false} RefinedEveningStaysAreLongest(day: RoutedDay, count: nat, cross: int, dinner: int, i: nat, stay: int)
    requires Tidy(day) && CrossStored(day, count, cross) && dinner >= 0 && count <= i < |day.visits|
    ensures
      var r := Refined(day, count, cross, dinner);
      && |r.visits| == |day.visits| && r.visits[i].arrivalMin == day.visits[i].arrivalMin
      && StayFits(day, i, r.visits[i].plannedDurationMin)
      && (stay <= day.visits[i].attraction.suggestedDuration && StayFits(day, i, stay) ==>
            stay <= r.visits[i].plannedDurationMin)
  {
    hide Refined, ExpandedEvening, StayFits, Tidy, SameStop;
    RefinedEvening(day, count, cross, dinner);
    EveningStaysAreLongest(day, count, i, stay);
    var r, expanded := Refined(day, count, cross, dinner), ExpandedEvening(day, count);
    assert r.visits[i] == r.visits[count..][i - count] && expanded.visits[i] == expanded.visits[count..][i - count];
  }

  /** A refined day with a single daytime visit: the longest stay where it was routed, and the
      afternoon if that stay fits there. */
  lemma {:induction false} RefinedSingle(day: RoutedDay, cross: int, dinner: int, stay: int)
    requires Tidy(day) && day.visits != [] && CrossStored(day, 1, cross) && dinner >= 0
    ensures
      var expanded, r, v := ExpandedEvening(day, 1), Refined(day, 1, cross, dinner), day.visits[0];
      && |r.visits| == |day.visits| && expanded.visits[0] == v
      && SingleFits(expanded, cross, dinner, v.arrivalMin, r.visits[0].plannedDurationMin)
      && (stay <= v.attraction.suggestedDuration && SingleFits(expanded, cross, dinner, v.arrivalMin, stay) ==>
            stay <= r.visits[0].plannedDurationMin)
      && r.visits[0].arrivalMin ==
           if MovesToAfternoon(expanded, cross, dinner, r.visits[0].plannedDurationMin) then
             AfternoonStart(expanded, cross, dinner, r.visits[0].plannedDurationMin)
           else v.arrivalMin
  {
    hide ExpandedSingle, SingleFits, MovesToAfternoon, AfternoonStart, ExpandedVisit, TimesFit;
    ExpandedEveningIsTidy(day, 1);
    ExpandedEveningKeepsDaytime(day, 1, cross, dinner);
    SingleIsExact(ExpandedEvening(day, 1), cross, dinner, stay);
  }
}
