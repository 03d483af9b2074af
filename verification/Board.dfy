/** Bookkeeping on the board of allocations: what moves between dates is conserved. */
module BoardFacts {
  import opened Prelude
  import opened Models
  import opened Itinerary

  function AttractionsOn(board: Board, d: Date): seq<Attraction> {
    if d in board then AllocationAttractions(board[d]) else []
  }

  lemma {:induction false} HeldAppend(dates: seq<Date>, d: Date, board: Board)
    ensures Held(dates + [d], board) == Held(dates, board) + AttractionsOn(board, d)
  {
    hide AllocationAttractions;
    assert (dates + [d])[..|dates|] == dates;
  }

  lemma {:induction false} HeldConcat(a: seq<Date>, b: seq<Date>, board: Board)
    ensures Held(a + b, board) == Held(a, board) + Held(b, board)
  {
    if b == [] {
      assert a + b == a;
    } else {
      hide AllocationAttractions;
      var front, last := b[..|b| - 1], b[|b| - 1];
      HeldConcat(a, front, board);
      HeldAppend(a + front, last, board);
      HeldAppend(front, last, board);
      assert a + b == a + front + [last] && b == front + [last];
    }
  }

  lemma {:induction false} HeldElsewhere(dates: seq<Date>, board: Board, d: Date, allocations: seq<DayAllocation>)
    requires d !in dates
    ensures Held(dates, board[d := allocations]) == Held(dates, board)
  {
    if dates != [] {
      assert dates == dates[..|dates| - 1] + [dates[|dates| - 1]];
      HeldElsewhere(dates[..|dates| - 1], board, d, allocations);
    }
  }

  /** The order of the dates does not matter to what they hold. */
  lemma {:induction false} HeldPermutes(a: seq<Date>, b: seq<Date>, board: Board)
    requires multiset(a) == multiset(b)
    ensures multiset(Held(a, board)) == multiset(Held(b, board))
    decreases |a|
  {
    hide Held, AttractionsOn;
    if a == [] {
      assert |multiset(b)| == 0;
      assert b == [];
    } else {
      assert a[0] in multiset(b);
      var k :| 0 <= k < |b| && b[k] == a[0];
      var restA, restB := a[..0] + a[1..], b[..k] + b[k + 1..];
      RemoveAt(a, 0);
      RemoveAt(b, k);
      CancelOne(multiset(restA), multiset(restB), a[0]);
      HeldPermutes(restA, restB, board);
      HeldRemove(a, 0, board);
      HeldRemove(b, k, board);
    }
  }

  lemma {:induction false} HeldRemove(dates: seq<Date>, k: nat, board: Board)
    requires k < |dates|
    ensures multiset(Held(dates, board))
      == multiset(Held(dates[..k] + dates[k + 1..], board)) + multiset(AttractionsOn(board, dates[k]))
  {
    assert dates == (dates[..k] + [dates[k]]) + dates[k + 1..];
    HeldConcat(dates[..k] + [dates[k]], dates[k + 1..], board);
    HeldConcat(dates[..k], [dates[k]], board);
    HeldConcat(dates[..k], dates[k + 1..], board);
    HeldOne(dates[k], board);
  }

  /** Replacing one date's allocations exchanges exactly their attractions. */
  lemma {:induction false} HeldReplace(dates: seq<Date>, board: Board, d: Date, allocations: seq<DayAllocation>)
    requires StrictlyIncreasing(dates) && d in dates && d in board
    ensures multiset(Held(dates, board[d := allocations])) + multiset(AllocationAttractions(board[d]))
      == multiset(Held(dates, board)) + multiset(AllocationAttractions(allocations))
  {
    hide Held, AllocationAttractions;
    var k :| 0 <= k < |dates| && dates[k] == d;
    var rest := dates[..k] + dates[k + 1..];
    HeldRemove(dates, k, board);
    HeldRemove(dates, k, board[d := allocations]);
    HeldElsewhere(rest, board, d, allocations);
  }

  lemma {:induction false} HeldOne(d: Date, board: Board)
    ensures Held([d], board) == AttractionsOn(board, d)
  {
    assert [d][..0] == [];
  }

  lemma {:induction false} HeldContains(dates: seq<Date>, board: Board, d: Date)
    requires d in dates && d in board
    ensures multiset(AllocationAttractions(board[d])) <= multiset(Held(dates, board))
  {
    var front, last := dates[..|dates| - 1], dates[|dates| - 1];
    assert dates == front + [last];
    if last != d { HeldContains(front, board, d); }
  }

  // ---- splitting a day ---------------------------------------------------------------------------

  lemma {:induction false} SplitConserves(source: Date, allocations: seq<DayAllocation>, unplaced: seq<RouteUnplaced>)
    ensures
      multiset(AllocationAttractions(Retained(allocations, unplaced)))
      + multiset(DroppedAttractions(DropsOf(source, allocations, unplaced)))
      == multiset(AllocationAttractions(allocations))
  {
    hide CodeFor;
    if allocations != [] {
      var front, last := allocations[..|allocations| - 1], allocations[|allocations| - 1];
      SplitConserves(source, front, unplaced);
      AppendAttraction(front, last);
      assert allocations == front + [last];
      if CodeFor(unplaced, last.attraction.id).None? {
        AppendAttraction(Retained(front, unplaced), last);
      } else {
        var code := CodeFor(unplaced, last.attraction.id).value;
        AppendDropped(DropsOf(source, front, unplaced), Dropped(source, last, code));
      }
    }
  }

  lemma {:induction false} AppendAttraction(allocations: seq<DayAllocation>, a: DayAllocation)
    ensures AllocationAttractions(allocations + [a]) == AllocationAttractions(allocations) + [a.attraction]
  {
  }

  lemma {:induction false} AppendDropped(dropped: seq<Dropped>, x: Dropped)
    ensures DroppedAttractions(dropped + [x]) == DroppedAttractions(dropped) + [x.allocation.attraction]
  {
  }

  lemma {:induction false} SplitMembers(source: Date, allocations: seq<DayAllocation>, unplaced: seq<RouteUnplaced>)
    ensures forall a :: a in Retained(allocations, unplaced) ==> a in allocations
    ensures forall x :: x in DropsOf(source, allocations, unplaced) ==>
      x.source == source && x.allocation in allocations
  {
    hide CodeFor;
    if allocations != [] {
      assert allocations == allocations[..|allocations| - 1] + [allocations[|allocations| - 1]];
      SplitMembers(source, allocations[..|allocations| - 1], unplaced);
    }
  }

  /** An allocation stays exactly if its attraction is not unplaced, and is otherwise dropped with the
      last code given for it. */
  lemma {:induction false} SplitIsExact(
    source: Date, allocations: seq<DayAllocation>, unplaced: seq<RouteUnplaced>, a: DayAllocation, code: RejectionCode)
    ensures a in Retained(allocations, unplaced) <==>
      a in allocations && forall i :: 0 <= i < |unplaced| ==> unplaced[i].attraction.id != a.attraction.id
    ensures Dropped(source, a, code) in DropsOf(source, allocations, unplaced) <==>
      a in allocations && LastCode(unplaced, a.attraction.id, code)
  {
    hide CodeFor;
    OneLastCode(unplaced, a.attraction.id, code);
    if allocations != [] {
      assert allocations == allocations[..|allocations| - 1] + [allocations[|allocations| - 1]];
      SplitIsExact(source, allocations[..|allocations| - 1], unplaced, a, code);
    }
  }

  lemma {:induction false} OneLastCode(unplaced: seq<RouteUnplaced>, id: int, code: RejectionCode)
    ensures CodeFor(unplaced, id) == Some(code) <==> LastCode(unplaced, id, code)
  {
    hide CodeFor;
    if LastCode(unplaced, id, code) {
      var i :| 0 <= i < |unplaced| && unplaced[i].attraction.id == id && unplaced[i].code == code
        && forall j :: i < j < |unplaced| ==> unplaced[j].attraction.id != id;
      assert CodeFor(unplaced, id).Some?;
      var k :| 0 <= k < |unplaced| && unplaced[k].attraction.id == id && unplaced[k].code == CodeFor(unplaced, id).value
        && forall j :: k < j < |unplaced| ==> unplaced[j].attraction.id != id;
      assert i == k;
    }
  }

  // ---- distinct ids -------------------------------------------------------------------------------

  ghost predicate DistinctIds(attractions: seq<Attraction>) {
    NoDuplicates(Map(IdOf, attractions))
  }

  lemma {:induction false} DistinctIdsPermute(a: seq<Attraction>, b: seq<Attraction>)
    requires multiset(a) == multiset(b) && DistinctIds(a)
    ensures DistinctIds(b)
  {
    MapMultiset(IdOf, a, b);
    NoDuplicatesMultiset(Map(IdOf, a), Map(IdOf, b));
  }

  lemma {:induction false} DistinctIdsPart(part: seq<Attraction>, whole: seq<Attraction>)
    requires multiset(part) <= multiset(whole) && DistinctIds(whole)
    ensures DistinctIds(part)
  {
    var rest := SequenceOf(multiset(whole) - multiset(part));
    DistinctIdsPermute(whole, part + rest);
    var ids := Map(IdOf, part + rest);
    forall i, j | 0 <= i < j < |part|
      ensures Map(IdOf, part)[i] != Map(IdOf, part)[j]
    {
      assert ids[i] != ids[j];
    }
  }

  lemma {:induction false} SequenceOf<T(!new)>(m: multiset<T>) returns (s: seq<T>)
    ensures multiset(s) == m
    decreases |m|
  {
    if m == multiset{} {
      s := [];
    } else {
      var x :| x in m;
      var rest := SequenceOf(m - multiset{x});
      s := rest + [x];
    }
  }
}
