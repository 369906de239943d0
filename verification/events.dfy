/**
  Events of the bank-teller simulation and the event queue they live in.

  An event carries a clock value and a `serving` field.  As in the
  program, the sign of `serving` tells the two kinds apart: a value
  `>= 0` is the service duration of a customer ARRIVAL, a negative value
  marks a DEPARTURE.  The priority queue is a multiset of events from
  which an earliest event (least `time`) is removed; which of several
  events with the same time comes out first is left open.
 */
module Events {

  /** One scheduled event: `time` is its clock value, `serving` its service
      duration (arrival) or a negative marker (departure). */
  datatype Event = Event(time: int, serving: int) {

    /** An arrival is any event whose `serving` is not negative. */
    predicate IsArrival() {
      serving >= 0
    }
  }

  /** The marker the engine stores in `serving` for a departure. */
  const DepartureMarker: int := -1

  /** The departure event the engine schedules when a customer leaves. */
  function Departure(time: int): (e: Event)
    ensures !e.IsArrival() && e.time == time
  {
    Event(time, DepartureMarker)
  }

  /** `e` may be popped from `q`: it is in the queue and no event in the
      queue is strictly earlier. */
  predicate IsEarliest(e: Event, q: multiset<Event>) {
    e in q && forall x | x in q :: e.time <= x.time
  }

  /** Every non-empty queue has an earliest event, so popping never gets stuck. */
  lemma {:induction false} EarliestExists(q: multiset<Event>)
    requires q != multiset{}
    ensures exists e :: IsEarliest(e, q)
    decreases |q|
  {
    var y :| y in q;
    var rest := q - multiset{y};
    assert q == rest + multiset{y};
    if rest == multiset{} {
      assert forall x | x in q :: x == y;
      assert IsEarliest(y, q);
    } else {
      EarliestExists(rest);
      var e :| IsEarliest(e, rest);
      assert forall x | x in q :: x == y || x in rest;
      if y.time < e.time {
        assert IsEarliest(y, q);
      } else {
        assert IsEarliest(e, q);
      }
    }
  }

  /** The arrivals of a queue: each arrival keeps its multiplicity, every
      departure is dropped. */
  ghost function Arrivals(q: multiset<Event>): (r: multiset<Event>)
    ensures forall x {:trigger r[x]} :: r[x] == if x.IsArrival() then q[x] else 0
    decreases |q|
  {
    if q == multiset{} then multiset{}
    else
      var x :| x in q;
      var rest := Arrivals(q - multiset{x});
      if x.IsArrival() then rest + multiset{x} else rest
  }

  /** The number of pops still needed to empty `q`: one per queued event,
      plus one for the departure every queued arrival will schedule. */
  ghost function Pending(q: multiset<Event>): nat {
    |q| + |Arrivals(q)|
  }

  /** The arrivals of a sequence of events, in their order. */
  function ArrivalsOf(s: seq<Event>): (r: seq<Event>)
    ensures multiset(r) == Arrivals(multiset(s))
    ensures forall x | x in r :: x.IsArrival()
  {
    if |s| == 0 then []
    else
      ArrivalsCons(s);
      (if s[0].IsArrival() then [s[0]] else []) + ArrivalsOf(s[1..])
  }

  /** The arrivals of a sequence's events are those of its first event and
      those of the rest. */
  lemma ArrivalsCons(s: seq<Event>)
    requires |s| > 0
    ensures Arrivals(multiset(s))
      == (if s[0].IsArrival() then multiset{s[0]} else multiset{}) + Arrivals(multiset(s[1..]))
  {
    TailMultiset(s);
  }

  /** `ArrivalsOf` keeps the first event exactly when it is an arrival. */
  lemma ArrivalsOfCons(s: seq<Event>)
    requires |s| > 0
    ensures s[0].IsArrival() ==> ArrivalsOf(s) == [s[0]] + ArrivalsOf(s[1..])
    ensures !s[0].IsArrival() ==> ArrivalsOf(s) == ArrivalsOf(s[1..])
  {
    assert [] + ArrivalsOf(s[1..]) == ArrivalsOf(s[1..]);
  }

  /** Events appear in non-decreasing time order. */
  predicate SortedByTime(s: seq<Event>) {
    forall i, j | 0 <= i < j < |s| :: s[i].time <= s[j].time
  }

  /** In a time-ordered sequence every event is no earlier than the first. */
  lemma FirstIsEarliest(s: seq<Event>, x: Event)
    requires SortedByTime(s) && x in multiset(s)
    ensures s[0].time <= x.time
  {
    var k :| 0 <= k < |s| && s[k] == x;
  }

  /** Dropping the first event of a time-ordered sequence keeps it time-ordered. */
  lemma SortedTail(s: seq<Event>)
    requires |s| > 0 && SortedByTime(s)
    ensures SortedByTime(s[1..])
  {
  }

  /** Keeping only the arrivals of a time-ordered sequence keeps it time-ordered. */
  lemma {:induction false} ArrivalsOfSorted(s: seq<Event>)
    requires SortedByTime(s)
    ensures SortedByTime(ArrivalsOf(s))
    decreases |s|
  {
    if |s| > 0 {
      SortedTail(s);
      ArrivalsOfSorted(s[1..]);
      if s[0].IsArrival() {
        ArrivalHeadSorted(s);
      }
    }
  }

  /** One step of `ArrivalsOfSorted`: an arrival at the head of a
      time-ordered sequence is no later than the arrivals after it. */
  lemma ArrivalHeadSorted(s: seq<Event>)
    requires |s| > 0 && s[0].IsArrival()
    requires SortedByTime(s) && SortedByTime(ArrivalsOf(s[1..]))
    ensures SortedByTime(ArrivalsOf(s))
  {
    var tail := ArrivalsOf(s[1..]);
    forall i | 0 <= i < |tail|
      ensures s[0].time <= tail[i].time
    {
      ArrivalOfTailIsLater(s, tail[i]);
    }
    ConsSorted(s[0], tail);
    assert ArrivalsOf(s) == [s[0]] + tail;
  }

  /** Every arrival after the head of a time-ordered sequence is no earlier than the head. */
  lemma ArrivalOfTailIsLater(s: seq<Event>, x: Event)
    requires |s| > 0 && SortedByTime(s)
    requires x in ArrivalsOf(s[1..])
    ensures s[0].time <= x.time
  {
    assert x in multiset(ArrivalsOf(s[1..]));
    assert x in multiset(s[1..]);
    TailMultiset(s);
    FirstIsEarliest(s, x);
  }

  /** Putting an event before a time-ordered sequence of no earlier events keeps it time-ordered. */
  lemma ConsSorted(e: Event, t: seq<Event>)
    requires SortedByTime(t)
    requires forall i | 0 <= i < |t| :: e.time <= t[i].time
    ensures SortedByTime([e] + t)
  {
    var r := [e] + t;
    forall i, j | 0 <= i < j < |r|
      ensures r[i].time <= r[j].time
    {
      assert r[j] == t[j - 1];
      if i > 0 {
        assert r[i] == t[i - 1];
      }
    }
  }

  /** No two distinct events of `m` share a time. */
  predicate NoTies(m: multiset<Event>) {
    forall x, y | x in m && y in m :: x.time == y.time ==> x == y
  }

  /** Two time-ordered sequences with the same events and no ties start
      with the same event. */
  lemma SameHead(a: seq<Event>, b: seq<Event>)
    requires SortedByTime(a) && SortedByTime(b)
    requires multiset(a) == multiset(b)
    requires NoTies(multiset(a))
    requires |a| > 0
    ensures |b| == |a| && a[0] == b[0]
  {
    assert |b| == |multiset(b)| == |multiset(a)| == |a|;
    FirstIsEarliest(a, b[0]);
    FirstIsEarliest(b, a[0]);
  }

  /** Sequences with the same events and the same first event have tails with the same events. */
  lemma TailsSame(a: seq<Event>, b: seq<Event>)
    requires |a| > 0 && |b| > 0 && a[0] == b[0] && multiset(a) == multiset(b)
    ensures multiset(a[1..]) == multiset(b[1..])
  {
    TailMultiset(a);
    TailMultiset(b);
    assert multiset(a[1..]) == multiset(a) - multiset{a[0]};
    assert multiset(b[1..]) == multiset(b) - multiset{a[0]};
  }

  /** The tail of a sequence without ties has none either. */
  lemma TailNoTies(a: seq<Event>)
    requires |a| > 0 && NoTies(multiset(a))
    ensures NoTies(multiset(a[1..]))
  {
    TailMultiset(a);
    forall x | x in multiset(a[1..])
      ensures x in multiset(a)
    {
    }
  }

  /** Two time-ordered sequences holding the same events are equal when
      no two distinct events among them share a time. */
  lemma {:induction false} SortedWithoutTiesUnique(a: seq<Event>, b: seq<Event>)
    requires SortedByTime(a) && SortedByTime(b)
    requires multiset(a) == multiset(b)
    requires NoTies(multiset(a))
    ensures a == b
    decreases |a|
  {
    if |a| == 0 {
      assert |b| == |multiset(b)| == |multiset(a)| == 0;
    } else {
      SameHead(a, b);
      TailsStillUnique(a, b);
      SortedWithoutTiesUnique(a[1..], b[1..]);
      HeadAndTail(a, b);
    }
  }

  /** The tails of two sequences as in `SortedWithoutTiesUnique` with the
      same first event meet its requirements again. */
  lemma TailsStillUnique(a: seq<Event>, b: seq<Event>)
    requires SortedByTime(a) && SortedByTime(b)
    requires multiset(a) == multiset(b)
    requires NoTies(multiset(a))
    requires |a| > 0 && |b| > 0 && a[0] == b[0]
    ensures SortedByTime(a[1..]) && SortedByTime(b[1..])
    ensures multiset(a[1..]) == multiset(b[1..])
    ensures NoTies(multiset(a[1..]))
  {
    TailsSame(a, b);
    TailNoTies(a);
    SortedTail(a);
    SortedTail(b);
  }

  // Facts about sequences and multisets of any element type, used by the
  // proofs above and in the other modules.

  /** A non-empty sequence is its first element followed by the rest. */
  lemma Uncons<T>(s: seq<T>)
    requires |s| > 0
    ensures s == [s[0]] + s[1..]
  {
  }

  /** A non-empty sequence's multiset is its first element plus the rest's. */
  lemma TailMultiset<T>(s: seq<T>)
    requires |s| > 0
    ensures multiset(s) == multiset{s[0]} + multiset(s[1..])
  {
    Uncons(s);
  }

  /** Sequences with the same first element and the same tail are equal. */
  lemma HeadAndTail<T>(a: seq<T>, b: seq<T>)
    requires |a| > 0 && |b| > 0 && a[0] == b[0] && a[1..] == b[1..]
    ensures a == b
  {
    Uncons(a);
    Uncons(b);
  }

  /** The head and tail of a concatenation with a non-empty front. */
  lemma ConcatFacts<T>(a: seq<T>, b: seq<T>)
    requires |a| > 0
    ensures (a + b)[0] == a[0] && (a + b)[1..] == a[1..] + b
  {
  }

  /** Appending one element keeps the head and appends to the tail. */
  lemma TailOfAppend<T>(s: seq<T>, x: T)
    requires |s| > 0
    ensures (s + [x])[0] == s[0] && (s + [x])[1..] == s[1..] + [x]
  {
  }

  /** A sequence is its prefix of length `k` followed by the rest. */
  lemma SplitConcat<T>(s: seq<T>, k: nat)
    requires k <= |s|
    ensures s == s[..k] + s[k..]
  {
  }

  /** The suffix from `i` starts with `s[i]`, and the prefix grows by it. */
  lemma SplitAt<T>(s: seq<T>, i: nat)
    requires i < |s|
    ensures s[i..][0] == s[i] && s[..i] + [s[i]] == s[..i + 1]
  {
  }

  /** Taking an element out of a multiset and putting it back changes nothing. */
  lemma AddBack<T>(m: multiset<T>, x: T)
    requires x in m
    ensures multiset{x} + (m - multiset{x}) == m
  {
  }

  /** Taking out an element that is not there changes nothing. */
  lemma RemoveAbsent<T>(m: multiset<T>, x: T)
    requires x !in m
    ensures m - multiset{x} == m
  {
  }

  /** The multiset of a sequence with an element in front. */
  lemma ConsMultiset<T>(x: T, s: seq<T>)
    ensures multiset([x] + s) == multiset{x} + multiset(s)
  {
  }

  /** A two-element multiset does not depend on the order it is written in. */
  lemma SwapPair<T>(x: T, y: T)
    ensures multiset{x, y} == multiset{y, x}
  {
  }
}
