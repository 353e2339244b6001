/** The list of completed day numbers on the home screen, and the 30-day
    grid that shows it. */
module DayList {

  /** The number of day cubes in the grid. */
  const GridLength: nat := 30

  /** Array.prototype.includes: a scan from the front for an equal element. */
  function Includes(days: seq<int>, day: int): (r: bool)
    ensures r <==> day in days
  {
    if days == [] then false else days[0] == day || Includes(days[1..], day)
  }

  /** Array.prototype.filter with the test d !== day: every element other
      than day, in the order they came. */
  function RemoveAll(days: seq<int>, day: int): (r: seq<int>)
    ensures |r| <= |days|
    ensures day in days ==> |r| < |days|
    ensures forall i :: 0 <= i < |r| ==> r[i] != day && r[i] in days
  {
    if days == [] then []
    else if days[0] == day then RemoveAll(days[1..], day)
    else [days[0]] + RemoveAll(days[1..], day)
  }

  /** The new list toggleDayCompletion computes: drop every occurrence of a
      present day, or append an absent one at the end. */
  function Toggle(days: seq<int>, day: int): (r: seq<int>)
    ensures day in days ==> day !in r && |r| < |days|
    ensures day !in days ==> r == days + [day]
  {
    if Includes(days, day) then RemoveAll(days, day) else days + [day]
  }

  /** a appears in b in order, possibly with other elements between. */
  predicate IsSubsequence(a: seq<int>, b: seq<int>) {
    if a == [] then true
    else if b == [] then false
    else if a[0] == b[0] then IsSubsequence(a[1..], b[1..])
    else IsSubsequence(a, b[1..])
  }

  /** The grid's day numbers, Array.from({ length: 30 }, (_, i) => i + 1). */
  function Days(): (r: seq<int>)
    ensures |r| == GridLength
    ensures r[0] == 1
    ensures forall i :: 0 < i < |r| ==> r[i] == r[i - 1] + 1
  {
    seq(GridLength, i => i + 1)
  }

  /** What RemoveAll keeps: every other element with its multiplicity and
      none of day. */
  lemma {:induction false} RemoveAllContents(days: seq<int>, day: int)
    ensures multiset(RemoveAll(days, day)) == multiset(days)[day := 0]
  {
    if days != [] {
      RemoveAllContents(days[1..], day);
      assert days == [days[0]] + days[1..];
      assert multiset(days) == multiset([days[0]]) + multiset(days[1..]);
    }
  }

  lemma {:induction false} RemoveAllMembers(days: seq<int>, day: int, x: int)
    ensures x in RemoveAll(days, day) <==> x in days && x != day
  {
    RemoveAllContents(days, day);
    assert x in RemoveAll(days, day) <==> x in multiset(RemoveAll(days, day));
    assert x in days <==> x in multiset(days);
  }

  lemma {:induction false} SubsequenceOfTail(a: seq<int>, b: seq<int>)
    requires b != [] && IsSubsequence(a, b[1..])
    ensures IsSubsequence(a, b)
    decreases |b|, 0
  {
    if a != [] && a[0] == b[0] {
      SubsequenceDropHead(a, b[1..]);
    }
  }

  lemma {:induction false} SubsequenceDropHead(a: seq<int>, c: seq<int>)
    requires a != [] && IsSubsequence(a, c)
    ensures IsSubsequence(a[1..], c)
    decreases |c|, 1
  {
    if a[0] != c[0] {
      SubsequenceDropHead(a, c[1..]);
    }
    SubsequenceOfTail(a[1..], c);
  }

  /** The elements RemoveAll keeps stay in their original order. */
  lemma {:induction false} RemoveAllKeepsOrder(days: seq<int>, day: int)
    ensures IsSubsequence(RemoveAll(days, day), days)
  {
    if days != [] {
      RemoveAllKeepsOrder(days[1..], day);
      if days[0] == day {
        if RemoveAll(days[1..], day) != [] {
          SubsequenceOfTail(RemoveAll(days[1..], day), days);
        }
      } else {
        var r := [days[0]] + RemoveAll(days[1..], day);
        assert r[1..] == RemoveAll(days[1..], day);
      }
    }
  }

  /** Removing a day that is absent leaves the list as it was. */
  lemma {:induction false} RemoveAllAbsent(days: seq<int>, day: int)
    requires day !in days
    ensures RemoveAll(days, day) == days
  {
    if days != [] {
      assert day !in days[1..];
      RemoveAllAbsent(days[1..], day);
      assert days == [days[0]] + days[1..];
    }
  }

  lemma {:induction false} RemoveAllAppend(days: seq<int>, day: int)
    ensures RemoveAll(days + [day], day) == RemoveAll(days, day)
  {
    if days == [] {
      assert [] + [day] == [day];
      assert [day][1..] == [];
    } else {
      assert (days + [day])[1..] == days[1..] + [day];
      RemoveAllAppend(days[1..], day);
    }
  }

  /** toggleDayCompletion on a present day: all of its occurrences go, and
      the other days keep their multiplicity and their order. */
  lemma TogglePresent(days: seq<int>, day: int)
    requires day in days
    ensures multiset(Toggle(days, day)) == multiset(days)[day := 0]
    ensures IsSubsequence(Toggle(days, day), days)
  {
    RemoveAllContents(days, day);
    RemoveAllKeepsOrder(days, day);
  }

  /** toggleDayCompletion on an absent day appends it at the end. */
  lemma ToggleAbsent(days: seq<int>, day: int)
    requires day !in days
    ensures Toggle(days, day) == days + [day]
  {
  }

  /** A toggle flips the toggled day's membership and leaves every other
      day's membership alone. */
  lemma ToggleMembership(days: seq<int>, day: int, x: int)
    ensures day in Toggle(days, day) <==> day !in days
    ensures x != day ==> (x in Toggle(days, day) <==> x in days)
  {
    RemoveAllMembers(days, day, day);
    RemoveAllMembers(days, day, x);
  }

  /** Toggling an absent day twice gives back the original list. */
  lemma ToggleTwiceAbsent(days: seq<int>, day: int)
    requires day !in days
    ensures Toggle(Toggle(days, day), day) == days
  {
    assert day in days + [day];
    RemoveAllAppend(days, day);
    RemoveAllAbsent(days, day);
  }

  /** Toggling a present day twice leaves it in the list exactly once, at the
      end, after the other days in their order. */
  lemma ToggleTwicePresent(days: seq<int>, day: int)
    requires day in days
    ensures Toggle(Toggle(days, day), day) == RemoveAll(days, day) + [day]
  {
    RemoveAllMembers(days, day, day);
  }

  /** The grid is the days 1 to 30, in ascending order. */
  lemma DaysAreOneToThirty()
    ensures |Days()| == GridLength
    ensures forall i, j :: 0 <= i < j < |Days()| ==> Days()[i] < Days()[j]
    ensures forall d :: d in Days() <==> 1 <= d <= GridLength
  {
    forall d | 1 <= d <= GridLength ensures d in Days() {
      assert Days()[d - 1] == d;
    }
  }
}
