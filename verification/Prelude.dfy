/** Shared vocabulary: optional values, raised errors, exact ceilings, sorting,
    and the few facts about sequences and multisets every stage needs. */
module Prelude {

  datatype Option<+T> = None | Some(value: T)

  /** The conditions on which the modelled code raises. */
  datatype Error =
    | EmptyTrip
    | WeatherOutsideTrip
    | DuplicateAttraction
    | PreferredDateOutsideTrip
    | DurationRatioOutOfRange
    | BufferRatioBelowOne
    | AssignedDateMismatch
    | DurationBelowMinimum
    | NegativeConnectionTime
    | DuplicateDay
    | SettingsInvalid
    | AllocationMissing

  datatype Outcome<+T> = Ok(value: T) | Raised(error: Error)

  function Min(a: int, b: int): int { if a <= b then a else b }

  function Max(a: int, b: int): int { if a >= b then a else b }

  function Abs(a: int): int { if a >= 0 then a else -a }

  /** The least integer that is at least `x`. */
  function Ceil(x: real): (c: int)
    ensures c as real >= x
    ensures (c - 1) as real < x
  {
    -((-x).Floor)
  }

  lemma {:induction false} CeilMonotone(x: real, y: real)
    requires x <= y
    ensures Ceil(x) <= Ceil(y)
  {
    if Ceil(x) > Ceil(y) { assert false; }
  }

  lemma {:induction false} ScaleMonotone(x: real, low: real, high: real)
    requires 0.0 <= x && low <= high
    ensures x * low <= x * high
  {
  }

  /** A ceiling of a scaled count is monotone in the scale. */
  lemma {:induction false} CeilScaledMonotone(n: nat, low: real, high: real)
    requires low <= high
    ensures Ceil(n as real * low) <= Ceil(n as real * high)
  {
    ScaleMonotone(n as real, low, high);
    CeilMonotone(n as real * low, n as real * high);
  }

  lemma {:induction false} CeilScaledPositive(n: nat, scale: real)
    requires scale > 0.0 && n > 0
    ensures Ceil(n as real * scale) >= 1
  {
    ScaleMonotone(scale, 1.0, n as real);
    if Ceil(n as real * scale) < 1 { CeilMonotone(scale, n as real * scale); }
  }

  lemma {:induction false} CeilScaledAtLeast(n: nat, scale: real)
    requires scale >= 1.0
    ensures Ceil(n as real * scale) >= n
  {
    CeilScaledMonotone(n, 1.0, scale);
    assert n as real * 1.0 == n as real;
  }

  predicate NoDuplicates<T(==)>(s: seq<T>) {
    forall i, j :: 0 <= i < j < |s| ==> s[i] != s[j]
  }

  /** The integers from `low` up to but excluding `high`. */
  function Range(low: int, high: int): (r: set<int>)
    ensures forall x :: x in r <==> low <= x < high
    ensures low <= high ==> |r| == high - low
    decreases high - low
  {
    if high <= low then {} else Range(low, high - 1) + {high - 1}
  }

  lemma {:induction false} MemberOf<T(!new)>(s: set<T>) returns (x: T)
    requires s != {}
    ensures x in s
  {
    x :| x in s;
  }

  function Map<A, B>(f: A -> B, s: seq<A>): (r: seq<B>)
    ensures |r| == |s|
    ensures forall i :: 0 <= i < |s| ==> r[i] == f(s[i])
  {
    seq(|s|, i requires 0 <= i < |s| => f(s[i]))
  }

  /** In a sequence without duplicates every element counts once. */
  lemma {:induction false} NoDuplicatesCount<T(!new)>(s: seq<T>, x: T)
    requires NoDuplicates(s)
    ensures multiset(s)[x] == if x in s then 1 else 0
  {
    if s != [] {
      var front := s[..|s| - 1];
      assert s == front + [s[|s| - 1]];
      NoDuplicatesCount(front, x);
    }
  }

  lemma {:induction false} HasMember<T(!new)>(s: seq<T>)
    ensures s != [] ==> exists x :: x in s
  {
    if s != [] {
      var first := s[0];
      assert first in s;
    }
  }

  lemma {:induction false} CountsNothing<T(!new)>(s: seq<T>)
    requires multiset(s) == multiset{}
    ensures s == []
  {
    HasMember(s);
    assert forall x :: x in s ==> x in multiset(s);
  }

  lemma {:induction false} SameElements<T(!new)>(a: seq<T>, b: seq<T>)
    requires NoDuplicates(a) && NoDuplicates(b)
    requires forall x :: x in a <==> x in b
    ensures multiset(a) == multiset(b)
  {
    forall x
      ensures multiset(a)[x] == multiset(b)[x]
    {
      NoDuplicatesCount(a, x);
      NoDuplicatesCount(b, x);
    }
  }

  lemma {:induction false} RemoveAt<T(!new)>(s: seq<T>, k: nat)
    requires k < |s|
    ensures multiset(s) == multiset(s[..k] + s[k + 1..]) + multiset{s[k]}
  {
    assert s == s[..k] + [s[k]] + s[k + 1..];
  }

  lemma {:induction false} MapRemoveAt<A(!new), B(!new)>(f: A -> B, s: seq<A>, k: nat)
    requires k < |s|
    ensures multiset(Map(f, s)) == multiset(Map(f, s[..k] + s[k + 1..])) + multiset{f(s[k])}
  {
    RemoveAt(Map(f, s), k);
    assert Map(f, s)[..k] + Map(f, s)[k + 1..] == Map(f, s[..k] + s[k + 1..]);
  }

  lemma {:induction false} MapConcat<A, B>(f: A -> B, a: seq<A>, b: seq<A>)
    ensures Map(f, a + b) == Map(f, a) + Map(f, b)
  {
  }

  lemma {:induction false} CancelOne<T(!new)>(a: multiset<T>, b: multiset<T>, x: T)
    requires a + multiset{x} == b + multiset{x}
    ensures a == b
  {
    assert a == a + multiset{x} - multiset{x};
    assert b == b + multiset{x} - multiset{x};
  }

  lemma {:induction false} Exchange<T>(after: multiset<T>, taken: multiset<T>, before: multiset<T>, given: multiset<T>, moved: multiset<T>)
    requires after + taken == before + given && given + moved == taken
    ensures after + moved == before
  {
    assert after + moved + given == before + given;
    assert after + moved == (after + moved + given) - given;
    assert before == (before + given) - given;
  }

  /** Mapping respects rearrangement. */
  lemma {:induction false} MapMultiset<A(!new), B(!new)>(f: A -> B, a: seq<A>, b: seq<A>)
    requires multiset(a) == multiset(b)
    ensures multiset(Map(f, a)) == multiset(Map(f, b))
    decreases |a|
  {
    hide Map;
    if a == [] {
      assert |multiset(b)| == 0;
      assert b == [];
    } else {
      assert a[0] in multiset(b);
      var k :| 0 <= k < |b| && b[k] == a[0];
      var restA, restB := a[..0] + a[1..], b[..k] + b[k + 1..];
      RemoveAt(a, 0);
      RemoveAt(b, k);
      MapRemoveAt(f, a, 0);
      MapRemoveAt(f, b, k);
      CancelOne(multiset(restA), multiset(restB), a[0]);
      MapMultiset(f, restA, restB);
    }
  }

  lemma {:induction false} MultisetMembers<T(!new)>(a: seq<T>, b: seq<T>)
    requires multiset(a) == multiset(b)
    ensures forall x :: x in a <==> x in b
  {
    forall x
      ensures x in a <==> x in b
    {
      assert x in a <==> x in multiset(a);
      assert x in b <==> x in multiset(b);
    }
  }

  /** Two rearrangements of each other are duplicate-free together. */
  lemma {:induction false} NoDuplicatesMultiset<T(!new)>(a: seq<T>, b: seq<T>)
    requires multiset(a) == multiset(b) && NoDuplicates(a)
    ensures NoDuplicates(b)
  {
    forall i, j | 0 <= i < j < |b|
      ensures b[i] != b[j]
    {
      NoDuplicatesCount(a, b[i]);
      if b[i] == b[j] { CountsTwice(b, i, j); }
    }
  }

  lemma {:induction false} CountsTwice<T(!new)>(s: seq<T>, i: nat, j: nat)
    requires i < j < |s| && s[i] == s[j]
    ensures multiset(s)[s[i]] >= 2
  {
    assert s == s[..i] + [s[i]] + s[i + 1..j] + [s[j]] + s[j + 1..];
  }

  // ---- sorting ------------------------------------------------------------

  ghost predicate TotalPreorder<T(!new)>(leq: (T, T) -> bool) {
    && (forall x, y :: leq(x, y) || leq(y, x))
    && (forall x, y, z :: leq(x, y) && leq(y, z) ==> leq(x, z))
  }

  ghost predicate SortedBy<T(!new)>(s: seq<T>, leq: (T, T) -> bool) {
    forall i, j :: 0 <= i < j < |s| ==> leq(s[i], s[j])
  }

  function Insert<T(!new)>(x: T, s: seq<T>, leq: (T, T) -> bool): (r: seq<T>)
    ensures multiset(r) == multiset(s) + multiset{x}
  {
    if s == [] then [x]
    else if leq(x, s[0]) then [x] + s
    else
      assert s == [s[0]] + s[1..];
      [s[0]] + Insert(x, s[1..], leq)
  }

  /** The stable sort of `s` under `leq`. */
  function Sort<T(!new)>(s: seq<T>, leq: (T, T) -> bool): (r: seq<T>)
    ensures multiset(r) == multiset(s)
    ensures TotalPreorder(leq) ==> SortedBy(r, leq)
  {
    if s == [] then []
    else
      assert s == [s[0]] + s[1..];
      InsertSorted(s[0], Sort(s[1..], leq), leq);
      Insert(s[0], Sort(s[1..], leq), leq)
  }

  lemma {:induction false} InsertSorted<T(!new)>(x: T, s: seq<T>, leq: (T, T) -> bool)
    ensures TotalPreorder(leq) && SortedBy(s, leq) ==> SortedBy(Insert(x, s, leq), leq)
  {
    if TotalPreorder(leq) && SortedBy(s, leq) && s != [] && !leq(x, s[0]) {
      InsertSorted(x, s[1..], leq);
      var r := Insert(x, s[1..], leq);
      forall j | 0 <= j < |r|
        ensures leq(s[0], r[j])
      {
        assert r[j] in multiset(r);
        if r[j] != x {
          assert r[j] in s[1..];
        }
      }
    }
  }

  ghost predicate StrictlyIncreasing(s: seq<int>) {
    forall i, j :: 0 <= i < j < |s| ==> s[i] < s[j]
  }

  /** `sorted(set(s))`: the distinct members of `s` in ascending order. */
  function SortedSet(s: seq<int>): (r: seq<int>)
    ensures StrictlyIncreasing(r)
    ensures forall x :: x in r <==> x in s
  {
    if s == [] then []
    else
      assert s == [s[0]] + s[1..];
      InsertDistinct(s[0], SortedSet(s[1..]))
  }

  lemma {:induction false} HeadIsLeast(s: seq<int>)
    requires StrictlyIncreasing(s) && s != []
    ensures StrictlyIncreasing(s[1..]) && forall y :: y in s[1..] ==> s[0] < y
  {
  }

  lemma {:induction false} PrependIncreasing(x: int, s: seq<int>)
    requires StrictlyIncreasing(s) && forall y :: y in s ==> x < y
    ensures StrictlyIncreasing([x] + s)
  {
    assert forall i :: 0 <= i < |s| ==> s[i] in s;
  }

  function InsertDistinct(x: int, s: seq<int>): (r: seq<int>)
    requires StrictlyIncreasing(s)
    ensures StrictlyIncreasing(r)
    ensures forall y :: y in r <==> y == x || y in s
  {
    if s == [] then [x]
    else if x == s[0] then s
    else if x < s[0] then [x] + s
    else
      assert s == [s[0]] + s[1..];
      HeadIsLeast(s);
      var rest := InsertDistinct(x, s[1..]);
      assert forall y :: y in rest ==> s[0] < y;
      PrependIncreasing(s[0], rest);
      [s[0]] + rest
  }

  function Sum(s: seq<int>): int {
    if s == [] then 0 else s[0] + Sum(s[1..])
  }

  function Flatten<T>(parts: seq<seq<T>>): seq<T> {
    if parts == [] then [] else Flatten(parts[..|parts| - 1]) + parts[|parts| - 1]
  }

  lemma {:induction false} FlattenAppend<T>(parts: seq<seq<T>>, last: seq<T>)
    ensures Flatten(parts + [last]) == Flatten(parts) + last
  {
    assert (parts + [last])[..|parts|] == parts;
  }

  lemma {:induction false} FlattenMember<T>(parts: seq<seq<T>>, x: T)
    ensures x in Flatten(parts) <==> exists i :: 0 <= i < |parts| && x in parts[i]
  {
    if parts != [] {
      var front := parts[..|parts| - 1];
      FlattenMember(front, x);
      assert forall i :: 0 <= i < |front| ==> front[i] == parts[i];
    }
  }

  lemma {:induction false} SumOfOne(s: seq<int>)
    requires |s| == 1
    ensures Sum(s) == s[0]
  {
    assert s[1..] == [];
  }

  lemma {:induction false} SumConcat(a: seq<int>, b: seq<int>)
    ensures Sum(a + b) == Sum(a) + Sum(b)
  {
    if a == [] {
      assert a + b == b;
    } else {
      assert a + b == [a[0]] + (a[1..] + b);
      SumConcat(a[1..], b);
    }
  }
}
