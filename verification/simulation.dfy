/**
  The simulation engine: draining the event queue.

  The engine repeatedly removes an earliest event from the queue.  An
  arrival moves the teller's `openTime` (the clock time at which the
  teller is next free) to the later of the arrival time and the old
  `openTime`, adds the customer's wait to `totalWait`, extends `openTime`
  by the service duration and schedules the customer's departure at the
  new `openTime`.  A departure changes nothing.  The engine stops when
  the queue is empty.

  Because equal-time events may be removed in any order, the model
  speaks about every possible pop sequence (`ValidRun`) rather than one
  fixed order.
 */
module Simulation {
  import opened Events

  /** The teller's state: when it is next free, and the wait summed over
      all customers served so far. */
  datatype Teller = Teller(openTime: int, totalWait: int)

  /** The engine's state: the pending events and the teller. */
  datatype State = State(queue: multiset<Event>, teller: Teller)

  /** The teller before the first customer: free at time 0, nothing waited. */
  const Idle: Teller := Teller(0, 0)

  /** The engine's state when it starts on a filled queue. */
  function Start(queue: multiset<Event>): State {
    State(queue, Idle)
  }

  function Max(a: int, b: int): int {
    if a < b then b else a
  }

  /** Serves one arriving customer: service starts as soon as both the
      customer and the teller are there, the customer waits from arrival
      to the start of service, and the teller is busy for the service
      duration. */
  function Serve(t: Teller, a: Event): (r: Teller)
    requires a.IsArrival()
    ensures var start := r.openTime - a.serving;
      && a.time <= start && t.openTime <= start
      && (start == a.time || start == t.openTime)
      && r.totalWait == t.totalWait + (start - a.time)
    ensures t.openTime <= r.openTime && t.totalWait <= r.totalWait
  {
    var start := Max(a.time, t.openTime);
    Teller(start + a.serving, t.totalWait + (start - a.time))
  }

  /** Serves a sequence of arrivals one after the other. */
  function ServeAll(t: Teller, arrivals: seq<Event>): (r: Teller)
    requires forall x | x in arrivals :: x.IsArrival()
    ensures t.openTime <= r.openTime && t.totalWait <= r.totalWait
    decreases |arrivals|
  {
    if |arrivals| == 0 then t else ServeAll(Serve(t, arrivals[0]), arrivals[1..])
  }

  /** Handles the popped event `e`, an earliest event of the queue. */
  function Process(s: State, e: Event): (r: State)
    requires IsEarliest(e, s.queue)
    ensures forall x | x in r.queue :: e.time <= x.time
    ensures e.IsArrival() ==>
      && r.teller == Serve(s.teller, e)
      && r.queue == s.queue - multiset{e} + multiset{Departure(r.teller.openTime)}
      && e.time + e.serving <= r.teller.openTime
    ensures !e.IsArrival() ==> r.teller == s.teller && r.queue == s.queue - multiset{e}
  {
    var rest := s.queue - multiset{e};
    if e.IsArrival() then
      var t := Serve(s.teller, e);
      State(rest + multiset{Departure(t.openTime)}, t)
    else
      State(rest, s.teller)
  }

  /** Handling an event takes it out of the queued arrivals (a departure
      never was one) and brings the queue one step closer to empty. */
  lemma ProcessCounts(s: State, e: Event)
    requires IsEarliest(e, s.queue)
    ensures Arrivals(Process(s, e).queue) == Arrivals(s.queue) - multiset{e}
    ensures Pending(Process(s, e).queue) == Pending(s.queue) - 1
  {
    var rest := s.queue - multiset{e};
    assert s.queue == rest + multiset{e};
    ArrivalsRemove(s.queue, e);
    if e.IsArrival() {
      ArrivalsAddDeparture(rest, Process(s, e).teller.openTime);
      assert e in Arrivals(s.queue);
    } else {
      assert e !in Arrivals(s.queue);
    }
  }

  /** Removing a queued event removes it from the queue's arrivals. */
  lemma ArrivalsRemove(q: multiset<Event>, e: Event)
    requires e in q
    ensures Arrivals(q - multiset{e}) == Arrivals(q) - multiset{e}
  {
    forall x
      ensures Arrivals(q - multiset{e})[x] == (Arrivals(q) - multiset{e})[x]
    {
    }
  }

  /** Scheduling a departure adds no arrival. */
  lemma ArrivalsAddDeparture(q: multiset<Event>, t: int)
    ensures Arrivals(q + multiset{Departure(t)}) == Arrivals(q)
  {
  }

  /** `pops` is a possible order in which the engine removes events,
      starting from `s`: each event is an earliest one when it is removed. */
  predicate ValidRun(s: State, pops: seq<Event>)
    decreases |pops|
  {
    |pops| == 0 || (IsEarliest(pops[0], s.queue) && ValidRun(Process(s, pops[0]), pops[1..]))
  }

  /** The state after removing and handling the events of `pops`. */
  function After(s: State, pops: seq<Event>): State
    requires ValidRun(s, pops)
    decreases |pops|
  {
    if |pops| == 0 then s else After(Process(s, pops[0]), pops[1..])
  }

  /** `pops` is a complete run from `s`: it leaves the queue empty. */
  predicate Drains(s: State, pops: seq<Event>) {
    ValidRun(s, pops) && After(s, pops).queue == multiset{}
  }

  /** A run can be extended by any earliest event of the queue it leaves. */
  lemma {:induction false} RunExtend(s: State, pops: seq<Event>, e: Event)
    requires ValidRun(s, pops)
    requires IsEarliest(e, After(s, pops).queue)
    ensures ValidRun(s, pops + [e])
    ensures After(s, pops + [e]) == Process(After(s, pops), e)
    decreases |pops|
  {
    if |pops| == 0 {
      assert pops + [e] == [e];
    } else {
      RunExtend(Process(s, pops[0]), pops[1..], e);
      TailOfAppend(pops, e);
    }
  }

  /** A run of `a` then `b` is a run of `a` followed by a run of `b` from
      where `a` left off. */
  lemma {:induction false} RunAppend(s: State, a: seq<Event>, b: seq<Event>)
    requires ValidRun(s, a + b)
    ensures ValidRun(s, a) && ValidRun(After(s, a), b)
    ensures After(s, a + b) == After(After(s, a), b)
    decreases |a|
  {
    if |a| == 0 {
      assert a + b == b;
    } else {
      ConcatFacts(a, b);
      RunAppend(Process(s, a[0]), a[1..], b);
    }
  }

  /** A run splits at any point into a run and the run that continues it. */
  lemma RunSplit(s: State, pops: seq<Event>, k: nat)
    requires ValidRun(s, pops) && k <= |pops|
    ensures ValidRun(s, pops[..k])
    ensures ValidRun(After(s, pops[..k]), pops[k..])
    ensures After(s, pops) == After(After(s, pops[..k]), pops[k..])
  {
    SplitConcat(pops, k);
    RunAppend(s, pops[..k], pops[k..]);
  }

  /** If no queued event is earlier than `t`, no event of a run is earlier than `t`. */
  lemma {:induction false} RunBoundedBelow(s: State, pops: seq<Event>, t: int)
    requires ValidRun(s, pops)
    requires forall x | x in s.queue :: t <= x.time
    ensures forall i | 0 <= i < |pops| :: t <= pops[i].time
    decreases |pops|
  {
    if |pops| > 0 {
      RunBoundedBelow(Process(s, pops[0]), pops[1..], t);
      BoundedCons(pops, t);
    }
  }

  /** A bound that holds for the first event and for the rest holds for all. */
  lemma BoundedCons(pops: seq<Event>, t: int)
    requires |pops| > 0 && t <= pops[0].time
    requires forall i | 0 <= i < |pops[1..]| :: t <= pops[1..][i].time
    ensures forall i | 0 <= i < |pops| :: t <= pops[i].time
  {
    forall i | 0 < i < |pops|
      ensures t <= pops[i].time
    {
      assert pops[i] == pops[1..][i - 1];
    }
  }

  /** Events are removed in non-decreasing time order. */
  lemma {:induction false} RunSorted(s: State, pops: seq<Event>)
    requires ValidRun(s, pops)
    ensures SortedByTime(pops)
    decreases |pops|
  {
    if |pops| > 0 {
      var e := pops[0];
      RunSorted(Process(s, e), pops[1..]);
      RunBoundedBelow(Process(s, e), pops[1..], e.time);
      ConsSorted(e, pops[1..]);
      Uncons(pops);
    }
  }

  /** The teller's state after a run is the serving of the run's arrivals,
      in the order they were removed: departures contribute nothing. */
  lemma {:induction false} RunServesArrivalsInOrder(s: State, pops: seq<Event>)
    requires ValidRun(s, pops)
    ensures After(s, pops).teller == ServeAll(s.teller, ArrivalsOf(pops))
    decreases |pops|
  {
    if |pops| > 0 {
      var e := pops[0];
      var s' := Process(s, e);
      RunServesArrivalsInOrder(s', pops[1..]);
      assert After(s, pops) == After(s', pops[1..]);
      ArrivalsOfCons(pops);
      if e.IsArrival() {
        ServeAllCons(s.teller, e, ArrivalsOf(pops[1..]));
      }
    }
  }

  /** Serving a customer first, then the rest, is serving them all. */
  lemma ServeAllCons(t: Teller, x: Event, rest: seq<Event>)
    requires x.IsArrival() && forall y | y in rest :: y.IsArrival()
    ensures ServeAll(t, [x] + rest) == ServeAll(Serve(t, x), rest)
  {
    ConcatFacts([x], rest);
  }

  /** A run never moves the teller's free time or the total wait backwards. */
  lemma RunMonotone(s: State, pops: seq<Event>)
    requires ValidRun(s, pops)
    ensures s.teller.openTime <= After(s, pops).teller.openTime
    ensures s.teller.totalWait <= After(s, pops).teller.totalWait
  {
    RunServesArrivalsInOrder(s, pops);
  }

  /** A complete run removes every queued event plus one departure per
      queued arrival. */
  lemma {:induction false} RunLength(s: State, pops: seq<Event>)
    requires Drains(s, pops)
    ensures |pops| == Pending(s.queue)
    decreases |pops|
  {
    if |pops| == 0 {
      assert s.queue == multiset{};
      assert Arrivals(s.queue) == multiset{};
    } else {
      ProcessCounts(s, pops[0]);
      RunLength(Process(s, pops[0]), pops[1..]);
    }
  }

  /** The arrivals a complete run removes are exactly the queued arrivals. */
  lemma {:induction false} RunArrivals(s: State, pops: seq<Event>)
    requires Drains(s, pops)
    ensures multiset(ArrivalsOf(pops)) == Arrivals(s.queue)
    decreases |pops|
  {
    if |pops| == 0 {
      assert s.queue == multiset{};
      assert Arrivals(s.queue) == multiset{};
    } else {
      var e := pops[0];
      var s' := Process(s, e);
      ProcessCounts(s, e);
      RunArrivals(s', pops[1..]);
      ArrivalsOfCons(pops);
      var m := Arrivals(s.queue);
      if e.IsArrival() {
        assert e in m;
        ConsMultiset(e, ArrivalsOf(pops[1..]));
        AddBack(m, e);
      } else {
        assert e !in m;
        RemoveAbsent(m, e);
      }
    }
  }

  /** In a complete run, every event queued at the start is removed at some point. */
  lemma {:induction false} QueuedAreRemoved(s: State, pops: seq<Event>)
    requires Drains(s, pops)
    ensures s.queue <= multiset(pops)
    decreases |pops|
  {
    if |pops| > 0 {
      var e := pops[0];
      QueuedAreRemoved(Process(s, e), pops[1..]);
      TailMultiset(pops);
      assert s.queue - multiset{e} <= Process(s, e).queue;
    }
  }

  /** In a complete run, the departure scheduled for each arrival is removed
      later in the run, at the time the teller finishes that customer. */
  lemma DepartureFollowsArrival(s: State, pops: seq<Event>, i: nat)
    requires Drains(s, pops)
    requires i < |pops| && pops[i].IsArrival()
    ensures ValidRun(s, pops[..i + 1])
    ensures exists j | i < j < |pops| ::
      && pops[j] == Departure(After(s, pops[..i + 1]).teller.openTime)
      && pops[i].time + pops[i].serving <= pops[j].time
  {
    RunSplit(s, pops, i + 1);
    var m := After(s, pops[..i + 1]);
    var later := pops[i + 1..];
    assert Drains(m, later);
    var d := Departure(m.teller.openTime);
    ScheduledDeparture(s, pops, i);
    QueuedAreRemoved(m, later);
    assert d in multiset(later);
    var k :| 0 <= k < |later| && later[k] == d;
    assert pops[i + 1 + k] == d;
  }

  /** After removing an arrival, the queue holds its departure, scheduled
      no earlier than the arrival time plus the service duration. */
  lemma ScheduledDeparture(s: State, pops: seq<Event>, i: nat)
    requires ValidRun(s, pops)
    requires i < |pops| && pops[i].IsArrival()
    ensures ValidRun(s, pops[..i + 1])
    ensures var m := After(s, pops[..i + 1]);
      && Departure(m.teller.openTime) in m.queue
      && pops[i].time + pops[i].serving <= m.teller.openTime
  {
    RunSplit(s, pops, i);
    var before := After(s, pops[..i]);
    SplitAt(pops, i);
    assert IsEarliest(pops[i], before.queue);
    RunExtend(s, pops[..i], pops[i]);
  }

  /** Without tied arrival times the outcome does not depend on how the
      queue breaks the remaining ties: any two complete runs end in the
      same state. */
  lemma NoTiesDeterministic(s: State, p1: seq<Event>, p2: seq<Event>)
    requires Drains(s, p1) && Drains(s, p2)
    requires NoTies(Arrivals(s.queue))
    ensures After(s, p1) == After(s, p2)
  {
    RunServesArrivalsInOrder(s, p1);
    RunServesArrivalsInOrder(s, p2);
    RunArrivals(s, p1);
    RunArrivals(s, p2);
    RunSorted(s, p1);
    RunSorted(s, p2);
    ArrivalsOfSorted(p1);
    ArrivalsOfSorted(p2);
    SortedWithoutTiesUnique(ArrivalsOf(p1), ArrivalsOf(p2));
  }

  /** With tied arrival times the outcome does depend on the tie order:
      two customers who both arrive at time 0, needing 5 and 1 units of
      service, wait 5 in total when the longer one is served first and 1
      when the shorter one is. */
  lemma TiedArrivalsChangeTheWait(q: multiset<Event>, longFirst: seq<Event>, shortFirst: seq<Event>)
    requires q == multiset{Event(0, 5), Event(0, 1)}
    requires longFirst == [Event(0, 5), Event(0, 1), Departure(5), Departure(6)]
    requires shortFirst == [Event(0, 1), Event(0, 5), Departure(1), Departure(6)]
    ensures Drains(Start(q), longFirst) && After(Start(q), longFirst).teller.totalWait == 5
    ensures Drains(Start(q), shortFirst) && After(Start(q), shortFirst).teller.totalWait == 1
  {
    LongServiceFirst(q, longFirst);
    SwapPair(Event(0, 5), Event(0, 1));
    ShortServiceFirst(q, shortFirst);
  }

  /** The run of `TiedArrivalsChangeTheWait` that serves the longer job first. */
  lemma LongServiceFirst(q: multiset<Event>, pops: seq<Event>)
    requires q == multiset{Event(0, 5), Event(0, 1)}
    requires pops == [Event(0, 5), Event(0, 1), Departure(5), Departure(6)]
    ensures Drains(Start(q), pops) && After(Start(q), pops).teller == Teller(6, 5)
  {
    ServeLongFirst();
    TwoOverlappingCustomers(q, Event(0, 5), Event(0, 1), Teller(5, 0), Teller(6, 5), pops);
  }

  /** The run of `TiedArrivalsChangeTheWait` that serves the shorter job first. */
  lemma ShortServiceFirst(q: multiset<Event>, pops: seq<Event>)
    requires q == multiset{Event(0, 1), Event(0, 5)}
    requires pops == [Event(0, 1), Event(0, 5), Departure(1), Departure(6)]
    ensures Drains(Start(q), pops) && After(Start(q), pops).teller == Teller(6, 1)
  {
    ServeShortFirst();
    TwoOverlappingCustomers(q, Event(0, 1), Event(0, 5), Teller(1, 0), Teller(6, 1), pops);
  }

  /** The tellers of the two runs of `TiedArrivalsChangeTheWait`. */
  lemma ServeLongFirst()
    ensures Serve(Idle, Event(0, 5)) == Teller(5, 0)
    ensures Serve(Teller(5, 0), Event(0, 1)) == Teller(6, 5)
  {
  }

  /** See `ServeLongFirst`. */
  lemma ServeShortFirst()
    ensures Serve(Idle, Event(0, 1)) == Teller(1, 0)
    ensures Serve(Teller(1, 0), Event(0, 5)) == Teller(6, 1)
  {
  }

  /** Serving the earlier of two queued events, an arrival. */
  lemma ArrivalStep(x: Event, y: Event, t: Teller)
    requires x.IsArrival() && x.time <= y.time
    ensures IsEarliest(x, multiset{x, y})
    ensures Process(State(multiset{x, y}, t), x) == State(multiset{y, Departure(Serve(t, x).openTime)}, Serve(t, x))
  {
    PairStep(x, y, Departure(Serve(t, x).openTime));
  }

  /** Handling the earlier of two queued events, a departure. */
  lemma DepartureStep(x: Event, y: Event, t: Teller)
    requires !x.IsArrival() && x.time <= y.time
    ensures IsEarliest(x, multiset{x, y})
    ensures Process(State(multiset{x, y}, t), x) == State(multiset{y}, t)
  {
    PairStep(x, y, y);
  }

  /** Handling the last queued event, a departure. */
  lemma LastDeparture(x: Event, t: Teller)
    requires !x.IsArrival()
    ensures IsEarliest(x, multiset{x})
    ensures Process(State(multiset{x}, t), x) == State(multiset{}, t)
  {
    LastStep(x);
  }

  /** Two customers, the second arriving no earlier than the first and
      before the first leaves, served in the order `a`, `b`: the complete
      run and the teller it leaves behind. */
  lemma TwoOverlappingCustomers(q: multiset<Event>, a: Event, b: Event, t1: Teller, t2: Teller, pops: seq<Event>)
    requires a.IsArrival() && b.IsArrival()
    requires q == multiset{a, b}
    requires t1 == Serve(Idle, a) && t2 == Serve(t1, b)
    requires a.time <= b.time <= t1.openTime
    requires pops == [a, b, Departure(t1.openTime), Departure(t2.openTime)]
    ensures Drains(Start(q), pops) && After(Start(q), pops).teller == t2
  {
    var d1, d2 := Departure(t1.openTime), Departure(t2.openTime);
    var s0 := State(multiset{a, b}, Idle);
    var s1 := State(multiset{b, d1}, t1);
    var s2 := State(multiset{d1, d2}, t2);
    var s3 := State(multiset{d2}, t2);
    var s4 := State(multiset{}, t2);
    ArrivalStep(a, b, Idle);
    ArrivalStep(b, d1, t1);
    SwapPair(d1, d2);
    DepartureStep(d1, d2, t2);
    LastDeparture(d2, t2);
    FourSteps(s0, a, s1, b, s2, d1, s3, d2, s4);
  }

  /** Chains four single steps into one run. */
  lemma FourSteps(s0: State, e0: Event, s1: State, e1: Event, s2: State, e2: Event, s3: State, e3: Event, s4: State)
    requires IsEarliest(e0, s0.queue) && Process(s0, e0) == s1
    requires IsEarliest(e1, s1.queue) && Process(s1, e1) == s2
    requires IsEarliest(e2, s2.queue) && Process(s2, e2) == s3
    requires IsEarliest(e3, s3.queue) && Process(s3, e3) == s4
    ensures ValidRun(s0, [e0, e1, e2, e3]) && After(s0, [e0, e1, e2, e3]) == s4
  {
    RunCons(s3, e3, []);
    RunCons(s2, e2, [e3]);
    RunCons(s1, e1, [e2, e3]);
    RunCons(s0, e0, [e1, e2, e3]);
  }

  /** Removing the earlier of two queued events, possibly scheduling `d`. */
  lemma PairStep(x: Event, y: Event, d: Event)
    requires x.time <= y.time
    ensures IsEarliest(x, multiset{x, y})
    ensures multiset{x, y} - multiset{x} == multiset{y}
    ensures multiset{y} + multiset{d} == multiset{y, d}
  {
  }

  /** Removing the only queued event. */
  lemma LastStep(x: Event)
    ensures IsEarliest(x, multiset{x})
    ensures multiset{x} - multiset{x} == multiset{}
  {
  }

  /** A run that starts by removing an earliest event `e`. */
  lemma RunCons(s: State, e: Event, rest: seq<Event>)
    requires IsEarliest(e, s.queue) && ValidRun(Process(s, e), rest)
    ensures ValidRun(s, [e] + rest) && After(s, [e] + rest) == After(Process(s, e), rest)
  {
    ConcatFacts([e], rest);
  }

  /** Runs the engine until the queue is empty.  `log` is the order in
      which events were removed; each is an earliest event at its turn,
      with ties broken arbitrarily. */
  method Simulate(queue: multiset<Event>) returns (log: seq<Event>, teller: Teller)
    ensures Drains(Start(queue), log)
    ensures teller == After(Start(queue), log).teller
    ensures |log| == Pending(queue)
    ensures SortedByTime(log)
    ensures multiset(ArrivalsOf(log)) == Arrivals(queue)
    ensures teller == ServeAll(Idle, ArrivalsOf(log))
  {
    var s := Start(queue);
    log := [];
    while s.queue != multiset{}
      invariant ValidRun(Start(queue), log) && After(Start(queue), log) == s
      invariant |log| + Pending(s.queue) == Pending(queue)
      decreases Pending(s.queue)
    {
      EarliestExists(s.queue);
      var e :| IsEarliest(e, s.queue);
      RunExtend(Start(queue), log, e);
      ProcessCounts(s, e);
      s := Process(s, e);
      log := log + [e];
    }
    teller := s.teller;
    RunSorted(Start(queue), log);
    RunArrivals(Start(queue), log);
    RunServesArrivalsInOrder(Start(queue), log);
  }
}
