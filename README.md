# gnet kqueue poller — a Dafny model

This project models the BSD/macOS back end of gnet's reactor, `netpoll/kqueue.go`. A `Poller` owns one
kqueue descriptor and an asynchronous job queue. Descriptors are registered for read and/or write
readiness by submitting kevent change records. `Trigger` queues a job and fires a user event on the
reserved identifier 0, the wake sentinel. `Polling` waits in kevent(2) and reports each fetched record
to a callback. A record on identifier 0 raises a wake flag and gets no callback. A record with
`EV_EOF` or `EV_ERROR` set is reported with gnet's `EVFilterSock` filter in place of its own. After
the records, a raised flag drains the job queue through the same callback as `callback(0, 0, job)`.
The first callback error ends `Polling` with that error. A wait that filled the event list makes the
list grow.

Files and modules:

- `unix.dfy`, module `Unix`: the parts of `golang.org/x/sys/unix` the poller uses. This covers the
  64-bit and 16-bit integer widths, the `Kevent_t` record (ident, filter, flags, fflags), and the filter,
  flag and note constants (darwin values). It also has Go's `int(ident)` and `uint64(fd)` conversions,
  written out as two's-complement wrap-around, and `error | nil` as `Option<Error>`.
- `registration.dfy`, module `Registration`: the change lists built by `OpenPoller`, `Trigger`, `AddRead`,
  `AddWrite`, `AddReadWrite`, `ModRead`, `ModReadWrite` and `Delete`, written as pure functions of `fd`.
  `Apply` folds a change list into an abstract kernel interest map
  (identifier → set of filters): `EV_ADD` inserts the filter and `EV_DELETE` removes it. The read/write
  state machine that callers are expected to follow is stated against that map.
- `event_loop.dfy`, module `EventLoop`: one iteration of the `for` loop of `Polling`. `Iteration` is the
  reference definition: the batch's planned calls (descriptor callbacks in record order, then job
  callbacks if woken) run until the first error. The method `PollIteration` follows the source: the
  early `continue` on a wait error, the index loop `DispatchRecords` with the `wakenUp` flag and the
  early return, the drain `DrainJobs`, and the growth test. It is proved equal to `Iteration`.
- `netpoll.dfy`, module `Netpoll`: the `Poller` class (kqueue descriptor and job queue), `OpenPoller` and
  `Poller.Trigger`.

Kernel and callback interaction is abstracted as follows:

- The handler is an oracle `(nat, Call) -> Option<Error>`. It gives the reply to a call, knowing how many
  calls the iteration has already made.
- What kevent(2) returned is an input: the event-list contents, the count `n` and the error.
- The replies of kqueue(2) and kevent(2) in `OpenPoller` and `Trigger` are parameters. The change
  lists they submit are results.
- `el.increase()` is a parameter `increase: nat -> nat`. The growth lemma only assumes that it grows
  the size strictly.

## Model

| member | source | states |
|---|---|---|
| `Unix.AsInt` | netpoll/kqueue.go:71 | `int(Ident)` is 0 exactly when the identifier is 0, and it is the two's-complement reading of the 64 bits |
| `Unix.Ident` | netpoll/kqueue.go:100 | `uint64(fd)` round-trips: reading the identifier back as an `int` gives `fd`; zero maps to zero and only zero does |
| `Unix.IdentOfAsInt` | netpoll/kqueue.go:71 | for every identifier, converting to `int` and back returns that identifier |
| `Unix.IdentInjective` | netpoll/kqueue.go:99-100 | distinct descriptors never share a kernel identifier |
| `Registration.SentinelChanges` | netpoll/kqueue.go:31-35 | the literal change list: EV_ADD and EV_CLEAR of EVFILT_USER on identifier 0 (definition only) |
| `Registration.TriggerChanges` | netpoll/kqueue.go:51-55 | the literal change list: NOTE_TRIGGER on identifier 0's EVFILT_USER, no flags (definition only) |
| `Registration.AddRead` | netpoll/kqueue.go:99-100 | the literal change list: EV_ADD of EVFILT_READ on `uint64(fd)` (definition only) |
| `Registration.AddWrite` | netpoll/kqueue.go:108-109 | the literal change list: EV_ADD of EVFILT_WRITE on `uint64(fd)` (definition only) |
| `Registration.AddReadWrite` | netpoll/kqueue.go:117-120 | the literal change list: EV_ADD of EVFILT_READ, then of EVFILT_WRITE, on `uint64(fd)` (definition only) |
| `Registration.ModRead` | netpoll/kqueue.go:128-129 | the literal change list: EV_DELETE of EVFILT_WRITE on `uint64(fd)` (definition only) |
| `Registration.ModReadWrite` | netpoll/kqueue.go:137-138 | the literal change list: EV_ADD of EVFILT_WRITE on `uint64(fd)` (definition only) |
| `Registration.Delete` | netpoll/kqueue.go:145-147 | the empty change list (definition only) |
| `Registration.Changes` | netpoll/kqueue.go:97-147 | every change a registration call submits names that descriptor's own identifier `uint64(fd)` |
| `Registration.OpEffect` | netpoll/kqueue.go:97-147 | the exact effect of each registration call on its own descriptor's interest: AddRead adds READ, AddWrite adds WRITE, AddReadWrite adds both, ModRead removes WRITE only, ModReadWrite adds WRITE, Delete changes nothing. No other identifier is touched |
| `Registration.StateOf` | netpoll/kqueue.go:97-142 | the four registration states are read off the interest set: read interest iff ReadOnly or ReadWrite, write interest iff WriteOnly or ReadWrite |
| `Registration.StepFollowsModel` | netpoll/kqueue.go:97-142 | each transition the state machine allows (Unregistered→ReadOnly/WriteOnly/ReadWrite by the Add calls, ReadWrite→ReadOnly by ModRead, ReadOnly→ReadWrite by ModReadWrite) moves the kernel interest to the predicted state |
| `Registration.RunFollowsModel` | netpoll/kqueue.go:97-142 | for every sequence of calls on one descriptor that the state machine allows, the kernel's read/write interest ends in the state the model predicts |
| `Registration.OpsFrame` | netpoll/kqueue.go:97-147 | any sequence of registration calls on one descriptor leaves every other identifier's interest unchanged |
| `Registration.SentinelSurvivesRegistration` | netpoll/kqueue.go:97-147 | registration calls on a non-zero descriptor never alter the wake sentinel's registration on identifier 0 |
| `Registration.ModReadAfterAddReadWrite` | netpoll/kqueue.go:116-133 | ModRead after AddReadWrite leaves the descriptor with read interest only, from any starting state |
| `Registration.SentinelArmed` | netpoll/kqueue.go:31-35 | OpenPoller's change adds EVFILT_USER to identifier 0's interest and touches no other identifier |
| `Registration.TriggerOnlyFires` | netpoll/kqueue.go:51-55 | Trigger submits one change: NOTE_TRIGGER on identifier 0's user filter. It has neither EV_ADD nor EV_DELETE, so no registration changes |
| `EventLoop.Classify` | netpoll/kqueue.go:71-76 | a record is the wake sentinel iff its identifier is 0. Otherwise it is reported for the non-zero descriptor whose identifier it carries, with EVFilterSock when EV_EOF or EV_ERROR is set and with its own filter when neither is |
| `EventLoop.ClosedIsNeverReadiness` | netpoll/kqueue.go:73-75 | a closed or failed descriptor is never reported with the read, write or user filter, nor with filter 0 |
| `EventLoop.DescriptorCallOrigin` | netpoll/kqueue.go:70-78 | every descriptor callback has no job and a non-zero fd, and classifies a fetched record whose identifier is non-zero |
| `EventLoop.DescriptorCallsConcat` | netpoll/kqueue.go:70-82 | descriptor callbacks follow record order: the callbacks of a concatenated batch are the concatenation of the callbacks of its parts |
| `EventLoop.DescriptorCalls` | netpoll/kqueue.go:70-82 | the descriptor callbacks of a batch, one per non-wake record in record order (definition; its properties are `DescriptorCallOrigin` and `DescriptorCallsConcat`) |
| `EventLoop.JobCalls` | netpoll/kqueue.go:85-87 | there is one job callback per queued job, in queue order, each `(0, 0, job)` |
| `EventLoop.Execute` | netpoll/kqueue.go:76-89 | issues calls in order and stops at the first error, which becomes the run's error (definition; its properties are the four `Execute*` lemmas below) |
| `EventLoop.ExecuteIsPrefix` | netpoll/kqueue.go:76-78 | the calls actually issued are a prefix of the calls planned, and all of them when no call failed |
| `EventLoop.ExecuteErrorIsLastReply` | netpoll/kqueue.go:76-78 | a run ends in error only when its last call failed, and the error is that call's reply |
| `EventLoop.ExecuteOkBeforeLast` | netpoll/kqueue.go:76-78 | every call before the last got nil, and so did the last one when the run did not fail |
| `EventLoop.ExecuteStopsAtFirstError` | netpoll/kqueue.go:76-89 | a run stops at the first error: the three facts above together |
| `EventLoop.ExecuteConcat` | netpoll/kqueue.go:70-90 | running two call lists in sequence: the second runs only when the first completed without error, numbered after it |
| `EventLoop.Iteration` | netpoll/kqueue.go:63-94 | reference definition of one iteration: skip on a non-EINTR wait error, else run the planned calls to the first error, return it, or continue with the flag down and grow on a full batch (definition; `PollIteration` is proved equal to it) |
| `EventLoop.ReportedFilter` | netpoll/kqueue.go:72-75 | `evFilter` is EVFilterSock when EV_EOF or EV_ERROR is set on the record, and the record's own filter otherwise |
| `EventLoop.DispatchRecords` | netpoll/kqueue.go:69-82 | the index loop over records `0..n-1` issues exactly the run of the batch's descriptor callbacks up to the first error. When it completes, the wake flag is the incoming flag or'ed with "a wake record was seen" |
| `EventLoop.DrainJobs` | netpoll/kqueue.go:85-89 | the drain issues exactly the run of the job callbacks up to the first error, numbered after the calls already made |
| `EventLoop.PollIteration` | netpoll/kqueue.go:63-94 | the iteration as the source runs it has exactly the trace, the Continue/Return step and the event-list size that `Iteration` defines |
| `EventLoop.WaitErrorDiscarded` | netpoll/kqueue.go:64-68 | a wait error other than EINTR gives no callback, no drain and no growth, and the flag is unchanged |
| `EventLoop.CallsComeFromRecordsOrJobs` | netpoll/kqueue.go:70-90 | every callback is either a descriptor event (non-zero fd, no job) from a fetched record with non-zero identifier, or `(0, 0, job)` for a queued job. A wake record never yields a descriptor callback |
| `EventLoop.TraceFollowsRecordOrder` | netpoll/kqueue.go:70-90 | the callbacks of an iteration are a prefix of the descriptor callbacks in record order followed by the job callbacks in queue order |
| `EventLoop.FirstErrorEndsPolling` | netpoll/kqueue.go:76-93 | when the iteration returns an error, it is the reply of the last callback made, every earlier callback got nil, and the event list keeps its size |
| `EventLoop.DescriptorErrorSkipsJobs` | netpoll/kqueue.go:76-78 | when a descriptor callback fails, no job has run |
| `EventLoop.ContinueMeansAllNil` | netpoll/kqueue.go:70-94 | an iteration that goes on to the next wait got nil from every callback |
| `EventLoop.JobsRunOnlyAfterWake` | netpoll/kqueue.go:79-90 | no job runs unless a wake record was fetched (or the flag came in raised), and a job runs only after every descriptor callback of the batch succeeded |
| `EventLoop.DrainRunsEveryJob` | netpoll/kqueue.go:83-90 | a woken iteration that completes runs every queued job once, in order, after all descriptor callbacks, and leaves `wakenUp` false |
| `EventLoop.ContinueRunsWholePlan` | netpoll/kqueue.go:70-94 | an iteration that goes on to the next wait issued every planned call: all descriptor callbacks of the batch, then the jobs if woken |
| `EventLoop.GrowthOnFullBatch` | netpoll/kqueue.go:91-93 | the size never shrinks, and it grows iff the wait did not fail, no callback failed and `n` equals the size |
| `EventLoop.ReadinessMatchesInterest` | netpoll/kqueue.go:70-78 | if the kernel reports only registered filters, every read or write readiness callback names a filter registered for that descriptor |
| `EventLoop.NoWriteReadinessAfterModRead` | netpoll/kqueue.go:127-133 | when AddReadWrite then ModRead both precede the wait and the kernel reports only filters registered after them, no callback attributes write readiness to the descriptor |
| `EventLoop.ReadReadyScenario` | netpoll/kqueue.go:71-76 | descriptor 7 reported read-ready reaches the callback as `(7, EVFILT_READ, nil)` |
| `EventLoop.EofScenario` | netpoll/kqueue.go:73-75 | EV_EOF on descriptor 3 reaches the callback as `(3, EVFilterSock, nil)` |
| `EventLoop.TwoJobsOneWake` | netpoll/kqueue.go:79-90 | when every callback returns nil, two jobs queued before one wake both run in that wake, once each, in queue order |
| `Netpoll.Poller.Trigger` | netpoll/kqueue.go:49-57 | the queue gains the job at its end whatever the wake call replies; the change submitted is the trigger change, and the wake call's error is returned unchanged |
| `Netpoll.OpenPoller` | netpoll/kqueue.go:24-41 | a kqueue(2) failure returns no poller and that error. Otherwise the sentinel change is submitted, and a registration failure returns no poller and that error. On success it returns a fresh poller holding the kqueue descriptor and an empty queue |
| `Netpoll.TriggeredJobRunsLast` | netpoll/kqueue.go:79-90 | when `job` is the last job queued at the drain of a woken iteration that completes, it is the last callback |
| `Netpoll.Poller.constructor` | netpoll/kqueue.go:25-39 | a new poller holds the given kqueue descriptor and an empty job queue |

Facts about the code that the model keeps as written:

- `Delete` (netpoll/kqueue.go:145-147) submits nothing and returns nil. kqueue drops a descriptor's
  filters when the descriptor is closed, so `Expected` has no Delete transition.
- `ModRead` (netpoll/kqueue.go:128-129) deletes only the write filter. From WriteOnly it therefore
  leaves no interest at all; `Expected` allows ModRead only from ReadWrite.
- `ModReadWrite` (netpoll/kqueue.go:137-138) only adds the write filter and never establishes read
  interest. From Unregistered it gives WriteOnly; `Expected` allows it only from ReadOnly.
- `OpenPoller` does not close `kfd` when the sentinel registration fails (netpoll/kqueue.go:36-38).
- After an `EINTR` wait the code does not retry at once (netpoll/kqueue.go:64-70). It falls through
  and processes the returned count. On a real interrupt that count is -1, so the index loop and the
  growth test do nothing. The model keeps that path: `n` is an `int`, and only errors other than
  EINTR skip the iteration.

## Left out

- Close: a direct `unix.Close` of the kqueue descriptor with nothing to model.
- The kernel itself: kqueue(2), kevent(2) and the blocking wait are replaced by their inputs and replies.
  `Apply` is an abstraction of how a change list updates the kernel's registrations. It does not model
  ENOENT on deleting a missing filter, partial application of a change list that fails midway, or a
  record with both EV_ADD and EV_DELETE (no change list here sets both; `ApplyOne` lets EV_ADD win).
- The error results of AddRead, AddWrite, AddReadWrite, ModRead and ModReadWrite: each returns what
  kevent(2) returned, unchanged. Only the change lists they submit are modelled.
- `log.Println` on a wait error: logging only.
- The infinite `for` loop of `Polling`: one iteration is modelled. The flag it carries is an input and
  an output (`Continue(wakenUp)`).
- The internals of `internal.AsyncJobQueue`, which are not part of this model. The jobs queued at the
  drain are an input, and `ForEach` is a walk over them in FIFO order that stops at the first error.
  How the drained batch is emptied is not modelled.
- `newEventList`, `initEvents`, `el.increase` and the event list's storage are not part of this model.
  The size is a natural number, and growth is the parameter `increase`.
- `EVFilterSock`'s definition is not part of this model. The value -13 is a placeholder, and the
  proofs only use that it differs from the read, write and user filters and from 0.
- Concurrency between Trigger, the registration calls and Polling, and the thread-safety of the queue.
- Platform differences: the filter and flag constants are darwin's. Other BSDs number some filters
  differently. Only equality and distinctness of the constants matter to the proofs.
- The `Data` and `Udata` fields of `Kevent_t`: the poller never sets or reads them.
- Side effects of the callback other than its reply, such as registering descriptors or pushing jobs.
