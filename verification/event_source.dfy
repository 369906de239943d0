/**
  The event source: loading the customer records into the event queue.

  The input is the already-parsed sequence of `(arrival time, service
  duration)` records, in stream order.  Records must come in
  non-decreasing arrival order, where the time "before" the first record
  is the clock's start value 0.  The first record that breaks the order
  rejects the whole input; otherwise every record becomes one arrival
  event and the number of records becomes the customer count.
 */
module EventSource {
  import opened Events

  /** One input record: a customer's arrival time and service duration. */
  datatype Record = Record(arrival: int, service: int)

  /** What loading produces: the filled queue and the customer count, or
      the first out-of-order record (1-based `index`, its `time` and the
      time of the record before it). */
  datatype FillResult =
    | Loaded(queue: multiset<Event>, count: nat)
    | OrderViolation(index: nat, time: int, prev: int)

  /** The arrival event a record stands for. */
  function AsEvent(r: Record): (e: Event)
    ensures e.time == r.arrival && e.serving == r.service
  {
    Event(r.arrival, r.service)
  }

  /** The events a sequence of records stands for, one per record. */
  function AsEvents(records: seq<Record>): (es: seq<Event>)
    ensures |es| == |records|
    ensures forall i | 0 <= i < |records| :: es[i] == AsEvent(records[i])
  {
    seq(|records|, i requires 0 <= i < |records| => AsEvent(records[i]))
  }

  /** The time record `k` is compared with: the previous record's arrival,
      or the clock's start value 0 for the first record. */
  function PreviousTime(records: seq<Record>, k: nat): int
    requires k < |records|
  {
    if k == 0 then 0 else records[k - 1].arrival
  }

  /** Record `k` arrives strictly before the time it is compared with. */
  predicate OutOfOrder(records: seq<Record>, k: nat)
    requires k < |records|
  {
    records[k].arrival < PreviousTime(records, k)
  }

  /** Loading from record `k` on, with the events of the first `k` records
      already in `loaded` and none of them out of order. */
  function FillFrom(records: seq<Record>, k: nat, loaded: multiset<Event>): (r: FillResult)
    requires k <= |records|
    requires loaded == multiset(AsEvents(records[..k]))
    requires forall j | 0 <= j < k :: !OutOfOrder(records, j)
    ensures r.Loaded? <==> forall j | k <= j < |records| :: !OutOfOrder(records, j)
    ensures r.Loaded? ==> r.count == |records| && r.queue == multiset(AsEvents(records))
    ensures r.OrderViolation? ==>
      && k < r.index <= |records|
      && OutOfOrder(records, r.index - 1)
      && (forall j | 0 <= j < r.index - 1 :: !OutOfOrder(records, j))
      && r.time == records[r.index - 1].arrival
      && r.prev == PreviousTime(records, r.index - 1)
    decreases |records| - k
  {
    if k == |records| then
      assert records[..k] == records;
      Loaded(loaded, k)
    else if records[k].arrival < PreviousTime(records, k) then
      assert OutOfOrder(records, k);
      OrderViolation(k + 1, records[k].arrival, PreviousTime(records, k))
    else
      assert AsEvents(records[..k + 1]) == AsEvents(records[..k]) + [AsEvent(records[k])];
      FillFrom(records, k + 1, loaded + multiset{AsEvent(records[k])})
  }

  /** Loads all records: rejects the input at its first out-of-order
      record, and otherwise queues exactly one arrival per record. */
  function Fill(records: seq<Record>): (r: FillResult)
    ensures r.OrderViolation? <==> exists k | 0 <= k < |records| :: OutOfOrder(records, k)
    ensures r.Loaded? ==> r.count == |records| && r.queue == multiset(AsEvents(records))
    ensures r.OrderViolation? ==>
      && 1 <= r.index <= |records|
      && OutOfOrder(records, r.index - 1)
      && (forall j | 0 <= j < r.index - 1 :: !OutOfOrder(records, j))
      && r.time == records[r.index - 1].arrival
      && r.prev == PreviousTime(records, r.index - 1)
  {
    assert records[..0] == [];
    FillFrom(records, 0, multiset{})
  }

  /** Accepted input is ordered: the arrival times are non-negative and
      non-decreasing in stream order. */
  lemma {:induction false} AcceptedIsOrdered(records: seq<Record>)
    requires Fill(records).Loaded?
    ensures forall i, j | 0 <= i <= j < |records| :: 0 <= records[i].arrival <= records[j].arrival
  {
    forall i, j | 0 <= i <= j < |records|
      ensures 0 <= records[i].arrival <= records[j].arrival
    {
      AcceptedPrefixOrdered(records, i, j);
    }
  }

  /** The chain step behind `AcceptedIsOrdered`, by induction on `j`. */
  lemma {:induction false} AcceptedPrefixOrdered(records: seq<Record>, i: nat, j: nat)
    requires i <= j < |records|
    requires forall k | 0 <= k < |records| :: !OutOfOrder(records, k)
    ensures 0 <= records[i].arrival <= records[j].arrival
    decreases j
  {
    assert !OutOfOrder(records, j);
    if j > 0 {
      if i < j {
        AcceptedPrefixOrdered(records, i, j - 1);
      } else {
        AcceptedPrefixOrdered(records, j - 1, j - 1);
      }
    }
  }

  /** A loaded queue holds arrivals only exactly when no record has a
      negative service duration; such a record is queued as a departure. */
  lemma LoadedArrivals(records: seq<Record>)
    requires Fill(records).Loaded?
    ensures Arrivals(Fill(records).queue) == Fill(records).queue
      <==> forall k | 0 <= k < |records| :: records[k].service >= 0
  {
    var q := Fill(records).queue;
    var es := AsEvents(records);
    if forall k | 0 <= k < |records| :: records[k].service >= 0 {
      forall x | x in q
        ensures x.IsArrival()
      {
        assert x in multiset(es);
        var k :| 0 <= k < |es| && es[k] == x;
      }
      assert forall x :: Arrivals(q)[x] == q[x];
    } else {
      var k :| 0 <= k < |records| && records[k].service < 0;
      assert es[k] in multiset(es);
      assert Arrivals(q)[es[k]] == 0;
    }
  }
}
