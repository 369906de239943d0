/**
  The whole program on already-parsed input: load the customer records,
  then run the engine until the queue is empty.  An out-of-order record
  stops the program with exit status 3 before anything is simulated.
 */
module Bank {
  import opened Events
  import opened EventSource
  import opened Simulation

  /** How a run of the program ends: rejected at the first out-of-order
      record (1-based `index`, its `time`, the `prev` time it broke), or
      completed with the customer count, the order in which events were
      handled and the final teller statistics. */
  datatype Outcome =
    | Rejected(index: nat, time: int, prev: int)
    | Completed(customers: nat, log: seq<Event>, teller: Teller)

  /** The exit status the outcome stands for. */
  const OrderViolationStatus: int := 3

  function ExitStatus(o: Outcome): (code: int)
    ensures code == 0 <==> o.Completed?
    ensures code == OrderViolationStatus <==> o.Rejected?
  {
    if o.Rejected? then OrderViolationStatus else 0
  }

  /** Loads `records` and, when they are in order, simulates them. */
  method Run(records: seq<Record>) returns (o: Outcome)
    ensures o.Rejected? <==> exists k | 0 <= k < |records| :: OutOfOrder(records, k)
    ensures o.Rejected? ==>
      && 1 <= o.index <= |records|
      && OutOfOrder(records, o.index - 1)
      && (forall j | 0 <= j < o.index - 1 :: !OutOfOrder(records, j))
      && o.time == records[o.index - 1].arrival
      && o.prev == PreviousTime(records, o.index - 1)
    ensures o.Completed? ==>
      && o.customers == |records|
      && Drains(Start(multiset(AsEvents(records))), o.log)
      && SortedByTime(o.log)
      && (forall i | 0 <= i < |o.log| :: 0 <= o.log[i].time)
      && o.teller == ServeAll(Idle, ArrivalsOf(o.log))
      && 0 <= o.teller.totalWait
    ensures o.Completed? && (forall k | 0 <= k < |records| :: records[k].service >= 0) ==>
      && |o.log| == 2 * o.customers
      && |ArrivalsOf(o.log)| == o.customers
  {
    var loaded := Fill(records);
    if loaded.OrderViolation? {
      return Rejected(loaded.index, loaded.time, loaded.prev);
    }
    var log, teller := Simulate(loaded.queue);
    o := Completed(loaded.count, log, teller);
    CompletedRun(records, log);
  }

  /** What a complete run over accepted records guarantees: every event is
      handled at a time no earlier than 0, and with no negative service
      duration there is exactly one departure per customer. */
  lemma CompletedRun(records: seq<Record>, log: seq<Event>)
    requires Fill(records).Loaded?
    requires Drains(Start(Fill(records).queue), log)
    ensures forall i | 0 <= i < |log| :: 0 <= log[i].time
    ensures (forall k | 0 <= k < |records| :: records[k].service >= 0) ==>
      && |log| == 2 * |records|
      && |ArrivalsOf(log)| == |records|
  {
    CompletedNotEarly(records, log);
    if forall k | 0 <= k < |records| :: records[k].service >= 0 {
      CompletedCounts(records, log);
    }
  }

  /** No event of a complete run over accepted records is before time 0. */
  lemma CompletedNotEarly(records: seq<Record>, log: seq<Event>)
    requires Fill(records).Loaded?
    requires ValidRun(Start(Fill(records).queue), log)
    ensures forall i | 0 <= i < |log| :: 0 <= log[i].time
  {
    AcceptedIsOrdered(records);
    QueuedNotNegative(records);
    RunBoundedBelow(Start(Fill(records).queue), log, 0);
  }

  /** Without negative service durations a complete run handles one arrival
      and one departure per customer. */
  lemma CompletedCounts(records: seq<Record>, log: seq<Event>)
    requires Fill(records).Loaded?
    requires forall k | 0 <= k < |records| :: records[k].service >= 0
    requires Drains(Start(Fill(records).queue), log)
    ensures |log| == 2 * |records|
    ensures |ArrivalsOf(log)| == |records|
  {
    var q := Fill(records).queue;
    LoadedArrivals(records);
    RunLength(Start(q), log);
    RunArrivals(Start(q), log);
    assert |q| == |AsEvents(records)| == |records|;
    assert |ArrivalsOf(log)| == |multiset(ArrivalsOf(log))| == |Arrivals(q)|;
  }

  /** Every event queued from accepted records is at a time no earlier than 0. */
  lemma QueuedNotNegative(records: seq<Record>)
    requires Fill(records).Loaded?
    requires forall i, j | 0 <= i <= j < |records| :: 0 <= records[i].arrival <= records[j].arrival
    ensures forall x | x in Fill(records).queue :: 0 <= x.time
  {
    var es := AsEvents(records);
    forall x | x in Fill(records).queue
      ensures 0 <= x.time
    {
      assert x in multiset(es);
      var k :| 0 <= k < |es| && es[k] == x;
    }
  }

  /** A customer who finds the teller free waits nothing: one customer
      arriving at 0 for 5 units leaves at 5 with a total wait of 0, and the
      queue allows no other run. */
  lemma SingleCustomer(records: seq<Record>, log: seq<Event>)
    requires records == [Record(0, 5)]
    requires Drains(Start(Fill(records).queue), log)
    ensures Fill(records).count == 1
    ensures log == [Event(0, 5), Departure(5)]
    ensures After(Start(Fill(records).queue), log).teller == Teller(5, 0)
  {
    OneRecordQueue(records);
    SingleServe();
    OneCustomerRun(Fill(records).queue, Event(0, 5), log);
  }

  /** The queue of `SingleCustomer`. */
  lemma OneRecordQueue(records: seq<Record>)
    requires records == [Record(0, 5)]
    ensures Fill(records).Loaded? && Fill(records).count == 1
    ensures Fill(records).queue == multiset{Event(0, 5)}
  {
    assert !OutOfOrder(records, 0);
    assert AsEvents(records) == [Event(0, 5)];
  }

  /** The teller of `SingleCustomer`. */
  lemma SingleServe()
    ensures Serve(Idle, Event(0, 5)) == Teller(5, 0)
  {
  }

  /** The only complete run from a queue holding one arrival `a`: serve
      it, then let it leave. */
  lemma OneCustomerRun(q: multiset<Event>, a: Event, log: seq<Event>)
    requires a.IsArrival() && q == multiset{a}
    requires Drains(Start(q), log)
    ensures log == [a, Departure(Serve(Idle, a).openTime)]
    ensures After(Start(q), log).teller == Serve(Idle, a)
  {
    var t := Serve(Idle, a);
    var d := Departure(t.openTime);
    OneArrivalPending(q, a);
    RunLength(Start(q), log);
    assert log[0] in multiset{a};
    var s1 := Process(Start(q), a);
    LastStep(a);
    assert s1.queue == multiset{d};
    assert log[0] == a && ValidRun(s1, log[1..]);
    assert IsEarliest(log[1..][0], s1.queue);
    assert log == [a, d];
    var s2 := Process(s1, d);
    LastStep(d);
    assert After(Start(q), log) == After(s1, [d]) == After(s2, []);
  }

  /** One queued arrival leaves two events to handle. */
  lemma OneArrivalPending(q: multiset<Event>, a: Event)
    requires a.IsArrival() && q == multiset{a}
    ensures Pending(q) == 2
  {
    assert Arrivals(q)[a] == 1;
    assert Arrivals(q) == q;
  }

  /** A customer who arrives while the teller is busy waits for the teller:
      customers at 0 (service 5) and at 2 (service 3) wait 3 in total, and
      every run the queue allows ends the same way. */
  lemma SecondCustomerWaits(records: seq<Record>, log: seq<Event>)
    requires records == [Record(0, 5), Record(2, 3)]
    requires Drains(Start(Fill(records).queue), log)
    ensures Fill(records).count == 2
    ensures After(Start(Fill(records).queue), log).teller == Teller(8, 3)
  {
    TwoRecordQueue(records);
    QueueingOutcome(Fill(records).queue, log);
  }

  /** Every complete run of `SecondCustomerWaits` ends like `QueueingRun`. */
  lemma QueueingOutcome(q: multiset<Event>, log: seq<Event>)
    requires q == multiset{Event(0, 5), Event(2, 3)}
    requires Drains(Start(q), log)
    ensures After(Start(q), log).teller == Teller(8, 3)
  {
    var run := [Event(0, 5), Event(2, 3), Departure(5), Departure(8)];
    QueueingRun(q, run);
    TwoDistinctTimes(q);
    NoTiesDeterministic(Start(q), log, run);
  }

  /** The queue of `SecondCustomerWaits`. */
  lemma TwoRecordQueue(records: seq<Record>)
    requires records == [Record(0, 5), Record(2, 3)]
    ensures Fill(records).Loaded? && Fill(records).count == 2
    ensures Fill(records).queue == multiset{Event(0, 5), Event(2, 3)}
  {
    assert !OutOfOrder(records, 0) && !OutOfOrder(records, 1);
    assert AsEvents(records) == [Event(0, 5), Event(2, 3)];
  }

  /** One complete run of `SecondCustomerWaits`. */
  lemma QueueingRun(q: multiset<Event>, pops: seq<Event>)
    requires q == multiset{Event(0, 5), Event(2, 3)}
    requires pops == [Event(0, 5), Event(2, 3), Departure(5), Departure(8)]
    ensures Drains(Start(q), pops) && After(Start(q), pops).teller == Teller(8, 3)
  {
    QueueingTellers();
    TwoOverlappingCustomers(q, Event(0, 5), Event(2, 3), Teller(5, 0), Teller(8, 3), pops);
  }

  /** The tellers of `QueueingRun`. */
  lemma QueueingTellers()
    ensures Serve(Idle, Event(0, 5)) == Teller(5, 0)
    ensures Serve(Teller(5, 0), Event(2, 3)) == Teller(8, 3)
  {
  }

  /** The arrivals of `SecondCustomerWaits` have distinct times. */
  lemma TwoDistinctTimes(q: multiset<Event>)
    requires q == multiset{Event(0, 5), Event(2, 3)}
    ensures NoTies(Arrivals(q))
  {
    forall x | x in Arrivals(q)
      ensures x == Event(0, 5) || x == Event(2, 3)
    {
      assert Arrivals(q)[x] == q[x];
    }
  }

  /** A record earlier than the one before it is rejected: the second
      record (3 after 5) is reported with both times. */
  lemma EarlierSecondRecordRejected(records: seq<Record>)
    requires records == [Record(5, 1), Record(3, 1)]
    ensures Fill(records) == OrderViolation(2, 3, 5)
  {
    assert !OutOfOrder(records, 0) && OutOfOrder(records, 1);
  }

  /** A negative first arrival is out of order against the clock's start 0. */
  lemma NegativeFirstArrivalRejected(records: seq<Record>, t: int, s: int)
    requires |records| > 0 && records[0] == Record(t, s) && t < 0
    ensures Fill(records) == OrderViolation(1, t, 0)
  {
    assert OutOfOrder(records, 0);
  }
}
