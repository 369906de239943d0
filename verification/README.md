# Bank teller simulation — a Dafny model

The program simulates one bank teller with a discrete-event engine. It
reads customer records, each an arrival time and a service duration, and
loads them into a priority queue of events. It then removes events from
the queue, earliest time first. An arrival is served as soon as both the
customer and the teller are there; serving it schedules the customer's
departure at the time the teller becomes free again. A departure changes
nothing. At the end the program reports the number of customers and the
average wait.

The model follows `Bank_Sim.cc`:

- `events.dfy` (module `Events`): the `Event` record and its `serving`
  encoding, where `serving >= 0` is an arrival and the marker `-1` is a
  departure. It also holds the event queue and what an "earliest" event
  is.
- `event_source.dfy` (module `EventSource`): `EventList::fill`. This is
  the order check against the previous record, and against the clock's
  start value 0 for the first one (`Bank_Sim.cc:109-120`):
  `EventSource.PreviousTime` is the time a record is compared with and
  `EventSource.OutOfOrder` is the failing comparison. It also covers the
  rejection at the first out-of-order record and the loading of the queue.
- `simulation.dfy` (module `Simulation`): `EventList::simulate`. This is
  the teller state (`open_time`, `total_wait`), the handling of one
  removed event, and runs of the engine. It includes the `Simulate` method
  with its loop.
- `bank.dfy` (module `Bank`): the program from parsed records to exit
  status or final statistics, and worked scenarios.

The priority queue is a multiset. The inverted `operator<`
(`Bank_Sim.cc:64-68`) makes the standard max-heap return an event of least
`time` from `top()` (`Bank_Sim.cc:141`). It compares times only, and the
order among events with equal times is left to the heap's internals, so a
removal takes any event of least time: `Events.IsEarliest` says which
events may be removed next. A run is a sequence of removals. `ValidRun` says that each removal took an earliest
event of the queue at its turn, and `After` is the state the run leaves
behind. Every property is proved for all tie orders. Two lemmas show when
the tie order matters:

- `NoTiesDeterministic`: when no two distinct arrivals share a time,
  every complete run ends in the same state, so the final statistics
  are the same whatever order the heap gives ties. The removal order
  itself can still differ when an arrival and a departure share a time:
  for arrivals (0, 5) and (5, 1), the second arrival and the first
  departure are both at time 5 and may come out in either order.
- `TiedArrivalsChangeTheWait`: with two arrivals at the same time, the
  total wait depends on which one the heap returns first.

A record with a negative service duration is accepted and counted as a
customer. Because the engine tells arrivals from departures by the sign
of `serving`, such a record is then handled as a departure: it is never
served and schedules nothing. The model keeps this behaviour.
`EventSource.LoadedArrivals` states when the loaded queue holds arrivals
only, and the counting properties of `Bank.Run` are stated under that
condition.

## Model

| member | source | states |
|---|---|---|
| Events.Departure | Bank_Sim.cc:148 | a departure event carries the given time and a negative `serving` marker, so the engine never takes it for an arrival |
| Events.EarliestExists | Bank_Sim.cc:140-142 | a non-empty queue always has an event of least time, so removing the top never gets stuck |
| Events.ArrivalsOf | Bank_Sim.cc:144 | the arrivals picked out of a sequence of events are, as a multiset, exactly the arrival events it holds, and all of them are arrivals |
| Events.ArrivalsOfSorted | Bank_Sim.cc:140-149 | picking the arrivals out of a time-ordered sequence keeps it time-ordered |
| Events.SortedWithoutTiesUnique | Bank_Sim.cc:64-68 | two time-ordered sequences with the same events are equal when no two distinct events share a time, since the order compares times only |
| EventSource.AsEvents | Bank_Sim.cc:118-119 | each record becomes one event with the record's arrival time and service duration |
| EventSource.FillFrom | Bank_Sim.cc:115-128 | loading from record k on, with earlier records already checked and queued, succeeds iff no later record is out of order. On success every record is queued and counted. On failure it names the first offending record |
| EventSource.Fill | Bank_Sim.cc:107-129 | rejects the input iff some record arrives before the previous record, or before 0 for the first. The report holds the 1-based index of the first such record, its time and the previous time. Otherwise the count is the number of records and the queue holds exactly their events |
| EventSource.AcceptedIsOrdered | Bank_Sim.cc:109-120 | accepted input has non-negative, non-decreasing arrival times in stream order |
| EventSource.LoadedArrivals | Bank_Sim.cc:119 | the loaded queue consists of arrivals only iff no record has a negative service duration |
| Simulation.Serve | Bank_Sim.cc:145-148 | service starts at the later of the arrival time and the teller's free time. The wait grows by the start time minus the arrival time. The teller is then free after the service duration. Neither the free time nor the total wait goes down |
| Simulation.ServeAll | Bank_Sim.cc:140-149 | serving a sequence of customers never moves the teller's free time or the total wait backwards |
| Simulation.Process | Bank_Sim.cc:141-157 | handling an arrival serves it and replaces it in the queue by its departure at the new free time. The departure is no earlier than arrival plus service. Handling a departure only removes it. Nothing left in the queue is earlier than the handled event |
| Simulation.ProcessCounts | Bank_Sim.cc:141-149 | handling an event removes it from the queued arrivals and lowers the number of events still to handle by exactly one |
| Simulation.RunExtend | Bank_Sim.cc:140-142 | a run can always continue with any earliest event of the queue it leaves, and the new state is that event handled |
| Simulation.RunAppend | Bank_Sim.cc:140-158 | a run of two parts is a run of the first part followed by a run of the second from where the first stopped |
| Simulation.RunSplit | Bank_Sim.cc:140-158 | any run splits at any point into a run and the run that continues it, ending in the same state |
| Simulation.RunBoundedBelow | Bank_Sim.cc:140-142 | if no queued event is earlier than t, no event a run removes is earlier than t, because handling schedules only later events |
| Simulation.RunSorted | Bank_Sim.cc:64-68 | events are removed in non-decreasing time order, as the inverted comparison makes the heap a min-heap on time |
| Simulation.RunServesArrivalsInOrder | Bank_Sim.cc:140-157 | the teller after a run is exactly the serving of the run's arrivals in removal order; departures contribute nothing |
| Simulation.RunMonotone | Bank_Sim.cc:145-147 | a run never moves the teller's free time or the total wait backwards |
| Simulation.RunLength | Bank_Sim.cc:140-158 | a complete run removes each queued event once, plus one departure for each queued arrival |
| Simulation.RunArrivals | Bank_Sim.cc:140-158 | the arrivals a complete run removes are exactly the arrivals queued at its start |
| Simulation.QueuedAreRemoved | Bank_Sim.cc:140-142 | a complete run removes every event queued at its start |
| Simulation.ScheduledDeparture | Bank_Sim.cc:148-149 | right after an arrival is handled, its departure is queued at the teller's new free time, no earlier than arrival plus service |
| Simulation.DepartureFollowsArrival | Bank_Sim.cc:145-149 | in a complete run, each arrival's departure is removed strictly later in the run, at a time no earlier than arrival plus service |
| Simulation.NoTiesDeterministic | Bank_Sim.cc:64-68 | when no two queued arrivals share a time, all complete runs from a state end in the same state, whatever order the heap gives ties |
| Simulation.TiedArrivalsChangeTheWait | Bank_Sim.cc:64-68 | two customers arriving together at 0 with service 5 and 1 wait 5 in total if the longer is served first and 1 otherwise; both runs are allowed |
| Simulation.TwoOverlappingCustomers | Bank_Sim.cc:140-157 | for two customers where the second arrives no earlier than the first and no later than the first leaves, the run serves both, then lets both leave. It ends with the second customer served after the first |
| Simulation.Simulate | Bank_Sim.cc:135-158 | the engine loop stops with an empty queue after exactly one step per queued event plus one per queued arrival. Its removals are a valid run in non-decreasing time order that removes exactly the queued arrivals. The final teller is the serving of those arrivals in removal order |
| Bank.ExitStatus | Bank_Sim.cc:99-100 | the exit status is 3 exactly for rejected input and 0 for a completed simulation |
| Bank.Run | Bank_Sim.cc:75-97 | loading then simulating rejects input iff a record is out of order, reporting the first one. Otherwise it counts every record and completes a valid run in time order, never before 0, with a non-negative total wait. With no negative service there are two removals per customer, one of them an arrival |
| Bank.CompletedRun | Bank_Sim.cc:140-158 | a complete run over accepted records never handles an event before time 0. With no negative service it handles one arrival and one departure per customer |
| Bank.QueuedNotNegative | Bank_Sim.cc:117-127 | every event loaded from accepted records is at a time no earlier than 0 |
| Bank.SingleCustomer | Bank_Sim.cc:135-158 | one customer arriving at 0 for 5 units is served at once and leaves at 5 with a total wait of 0; no other run is possible |
| Bank.SecondCustomerWaits | Bank_Sim.cc:145-147 | customers at 0 (service 5) and 2 (service 3) wait 3 in total and the teller is free at 8, in every complete run |
| Bank.EarlierSecondRecordRejected | Bank_Sim.cc:120-125 | records at 5 then 3 are rejected at customer #2 with time 3 and previous time 5 |
| Bank.NegativeFirstArrivalRejected | Bank_Sim.cc:111-120 | a first record with a negative arrival time is rejected as customer #1 against previous time 0 |

## Left out

- The command line and file handling of `main` (`Bank_Sim.cc:73-101`) are not modelled. This covers the argument count, the unreadable file (exit status 1) and the usage message (exit status 2). They are I/O. `Bank.ExitStatus` covers only the statuses that follow from the records.
- Parsing the input stream (`Bank_Sim.cc:115`) is not modelled. The model starts from the sequence of records that parsing yields. A stream that stops parsing early ends the input there.
- The text written to standard output and standard error is not modelled, nor its `setw` formatting (`Bank_Sim.cc:121-124`, `150-163`). The model returns the same information as data: the removal order, the teller's final state and the rejection report.
- The average wait (`Bank_Sim.cc:162-163`) is not modelled. It is a double-precision division of the total wait by the customer count, and it divides by zero for empty input. The model stops at the integer total and the count.
- Integers are unbounded. The source's 32-bit `int` can overflow in `total_wait`, in `open_time` and in the customer count on extreme input. That is not modelled.
- The heap's internal tie-breaking is not modelled. Any event of least time may be removed next, so every property holds for every tie order. When no two distinct arrivals share a time, every tie order ends in the same final state and statistics (`Simulation.NoTiesDeterministic`); the printed event lines can still come out in a different order when an arrival and a departure share a time. When distinct arrivals do share a time, the total wait can depend on the tie order (`Simulation.TiedArrivalsChangeTheWait`). For any one standard library the C++ program itself is deterministic; the model covers every library's choice.
- Simulation.Simulate: the method picks the earliest event non-deterministically rather than by the heap's rule. Its contract therefore describes every order the heap could produce rather than the single one a given library produces.
