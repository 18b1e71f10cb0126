/** One pass of the body of `Poller.Polling` in netpoll/kqueue.go: after
    kevent(2) has filled the event list, classify every fetched record, call the
    handler for each descriptor record in order, drain the job queue when the
    wake sentinel was among them, and decide whether the event list grows.

    The reference definition is `Iteration`: the calls the batch plans, run in
    order until the handler first returns an error. `PollIteration` is the
    imperative loop of the source, proved equal to it. */
module EventLoop {
  import opened Unix
  import Registration

  /** gnet's filter for "closed or in error", reported instead of the record's
      own filter. Only its difference from the read, write and user filters and
      from 0 matters below. */
  const EVFilterSock: int16 := -13

  /** A deferred unit of work pushed by Trigger; opaque to the poller. */
  datatype Job = Job(id: nat)

  /** One invocation `callback(fd, filter, job)`; `job` is None for a descriptor event. */
  datatype Call = Call(fd: int64, filter: int16, job: Option<Job>)

  /** The handler as an oracle: its reply to a call, given how many calls this
      iteration has already made. None is Go's nil. */
  type Handler = (nat, Call) -> Option<Error>

  // ---------------------------------------------------------------------
  // Classifying one record
  // ---------------------------------------------------------------------

  datatype Event = Wake | Ready(fd: int64, filter: int16)

  predicate Closed(r: Kevent)
  {
    (r.flags & EV_EOF) != 0 || (r.flags & EV_ERROR) != 0
  }

  /** Identifier 0 is the wake sentinel; any other record is a readiness report
      whose filter is EVFilterSock when EV_EOF or EV_ERROR is set. */
  function Classify(r: Kevent): (e: Event)
    ensures e.Wake? == (r.ident == 0)
    ensures e.Ready? ==> e.fd != 0 && Ident(e.fd) == r.ident
    ensures e.Ready? && Closed(r) ==> e.filter == EVFilterSock
    ensures e.Ready? && !Closed(r) ==> e.filter == r.filter
  {
    IdentOfAsInt(r.ident);
    var fd := AsInt(r.ident);
    if fd != 0 then Ready(fd, if Closed(r) then EVFilterSock else r.filter) else Wake
  }

  /** A closed or failed descriptor is never reported as read- or write-ready. */
  lemma ClosedIsNeverReadiness(r: Kevent)
    requires r.ident != 0 && Closed(r)
    ensures Classify(r).filter != EVFILT_READ && Classify(r).filter != EVFILT_WRITE
    ensures Classify(r).filter != EVFILT_USER && Classify(r).filter != 0
  {
  }

  function CallsOf(r: Kevent): (cs: seq<Call>)
  {
    match Classify(r)
    case Wake => []
    case Ready(fd, filter) => [Call(fd, filter, None)]
  }

  // ---------------------------------------------------------------------
  // The calls a batch plans
  // ---------------------------------------------------------------------

  /** The descriptor callbacks of a batch, in record order; wake records add none. */
  function DescriptorCalls(rs: seq<Kevent>): (cs: seq<Call>)
    decreases |rs|
  {
    if rs == [] then [] else DescriptorCalls(rs[..|rs| - 1]) + CallsOf(rs[|rs| - 1])
  }

  /** Each descriptor callback carries no job and a non-zero descriptor, and
      classifies one record of the batch that is not a wake record. */
  lemma {:induction false} DescriptorCallOrigin(rs: seq<Kevent>, c: Call)
    requires c in DescriptorCalls(rs)
    ensures c.job == None && c.fd != 0
    ensures exists i :: 0 <= i < |rs| && rs[i].ident != 0 && Classify(rs[i]) == Ready(c.fd, c.filter)
    decreases |rs|
  {
    var init, last := rs[..|rs| - 1], rs[|rs| - 1];
    if c in DescriptorCalls(init) {
      DescriptorCallOrigin(init, c);
      var i :| 0 <= i < |init| && init[i].ident != 0 && Classify(init[i]) == Ready(c.fd, c.filter);
      assert rs[i] == init[i];
    } else {
      assert c in CallsOf(last);
      assert rs[|rs| - 1] == last;
    }
  }

  /** Splitting a batch splits its descriptor callbacks the same way: callbacks
      follow the order of the records. */
  lemma {:induction false} DescriptorCallsConcat(a: seq<Kevent>, b: seq<Kevent>)
    ensures DescriptorCalls(a + b) == DescriptorCalls(a) + DescriptorCalls(b)
    decreases |b|
  {
    if b == [] {
      assert a + b == a;
    } else {
      var ab := a + b;
      assert ab[..|ab| - 1] == a + b[..|b| - 1];
      assert ab[|ab| - 1] == b[|b| - 1];
      DescriptorCallsConcat(a, b[..|b| - 1]);
    }
  }

  /** The job callbacks `callback(0, 0, job)`, one per queued job, in queue order. */
  function JobCalls(jobs: seq<Job>): (cs: seq<Call>)
    ensures |cs| == |jobs|
    ensures forall k :: 0 <= k < |jobs| ==> cs[k] == Call(0, 0, Some(jobs[k]))
    decreases |jobs|
  {
    if jobs == [] then [] else JobCalls(jobs[..|jobs| - 1]) + [Call(0, 0, Some(jobs[|jobs| - 1]))]
  }

  /** The batch holds at least one wake record. */
  predicate Woken(rs: seq<Kevent>)
  {
    exists i :: 0 <= i < |rs| && rs[i].ident == 0
  }

  /** Everything a batch asks the handler to do if no call fails: the
      descriptor callbacks, then the queued jobs when the flag was raised. */
  function Planned(batch: seq<Kevent>, wakenUp: bool, jobs: seq<Job>): (cs: seq<Call>)
  {
    DescriptorCalls(batch) + (if wakenUp || Woken(batch) then JobCalls(jobs) else [])
  }

  // ---------------------------------------------------------------------
  // Running calls until the first error
  // ---------------------------------------------------------------------

  datatype Run = Run(trace: seq<Call>, err: Option<Error>)

  /** Issues `calls` in order, the first one as call number `k`, and stops at
      the first error, which becomes the run's error. */
  function Execute(calls: seq<Call>, h: Handler, k: nat): (r: Run)
    decreases |calls|
  {
    if calls == [] then Run([], None)
    else
      var reply := h(k, calls[0]);
      if reply.Some? then Run([calls[0]], reply)
      else
        var rest := Execute(calls[1..], h, k + 1);
        Run([calls[0]] + rest.trace, rest.err)
  }

  /** The trace of a run is a prefix of its calls, and all of them when the
      run has no error. */
  lemma {:induction false} ExecuteIsPrefix(calls: seq<Call>, h: Handler, k: nat)
    ensures Execute(calls, h, k).trace <= calls
    ensures Execute(calls, h, k).err.None? ==> Execute(calls, h, k).trace == calls
    decreases |calls|
  {
    if calls != [] && h(k, calls[0]).None? {
      ExecuteIsPrefix(calls[1..], h, k + 1);
      assert calls == [calls[0]] + calls[1..];
    }
  }

  /** A run ends with an error only when its last call failed, and the
      error is that call's reply. */
  lemma {:induction false} ExecuteErrorIsLastReply(calls: seq<Call>, h: Handler, k: nat)
    ensures var r := Execute(calls, h, k);
      r.err.Some? ==> r.trace != [] && h(k + |r.trace| - 1, r.trace[|r.trace| - 1]) == r.err
    decreases |calls|
  {
    if calls != [] && h(k, calls[0]).None? {
      ExecuteErrorIsLastReply(calls[1..], h, k + 1);
    }
  }

  /** Every call of a run before its last one got nil, and the last one too
      when the run has no error. */
  lemma {:induction false} ExecuteOkBeforeLast(calls: seq<Call>, h: Handler, k: nat, j: nat)
    requires var r := Execute(calls, h, k); j < |r.trace| - (if r.err.Some? then 1 else 0)
    ensures h(k + j, Execute(calls, h, k).trace[j]).None?
    decreases |calls|
  {
    if j > 0 {
      var rest := Execute(calls[1..], h, k + 1);
      ExecuteOkBeforeLast(calls[1..], h, k + 1, j - 1);
      assert Execute(calls, h, k).trace[j] == rest.trace[j - 1];
    }
  }

  /** The three facts above together: a run stops at the first error. */
  lemma ExecuteStopsAtFirstError(calls: seq<Call>, h: Handler, k: nat)
    ensures var r := Execute(calls, h, k);
      && r.trace <= calls
      && (r.err.None? ==> r.trace == calls)
      && (r.err.Some? ==> r.trace != [] && h(k + |r.trace| - 1, r.trace[|r.trace| - 1]) == r.err)
      && (forall j :: 0 <= j < |r.trace| - (if r.err.Some? then 1 else 0) ==> h(k + j, r.trace[j]).None?)
  {
    ExecuteIsPrefix(calls, h, k);
    ExecuteErrorIsLastReply(calls, h, k);
    var r := Execute(calls, h, k);
    forall j | 0 <= j < |r.trace| - (if r.err.Some? then 1 else 0)
      ensures h(k + j, r.trace[j]).None?
    {
      ExecuteOkBeforeLast(calls, h, k, j);
    }
  }

  /** Calls that all succeed are passed through and the run continues after them. */
  lemma {:induction false} ExecutePassesOk(p: seq<Call>, rest: seq<Call>, h: Handler, k: nat)
    requires forall j :: 0 <= j < |p| ==> h(k + j, p[j]).None?
    ensures Execute(p + rest, h, k)
         == Run(p + Execute(rest, h, k + |p|).trace, Execute(rest, h, k + |p|).err)
    decreases |p|
  {
    if p == [] {
      assert p + rest == rest;
    } else {
      var q := p + rest;
      assert q[0] == p[0] && q[1..] == p[1..] + rest;
      assert h(k + 0, p[0]).None?;
      var inner := Execute(q[1..], h, k + 1);
      assert Execute(q, h, k) == Run([p[0]] + inner.trace, inner.err);
      forall j | 0 <= j < |p[1..]|
        ensures h(k + 1 + j, p[1..][j]).None?
      {
        assert p[1..][j] == p[j + 1];
        assert h(k + (j + 1), p[j + 1]).None?;
      }
      ExecutePassesOk(p[1..], rest, h, k + 1);
      var tail := Execute(rest, h, k + |p|);
      assert inner == Run(p[1..] + tail.trace, tail.err);
      assert [p[0]] + (p[1..] + tail.trace) == p + tail.trace;
    }
  }

  /** After calls that all succeed, a failing call ends the run with its error. */
  lemma StopsAtFailure(p: seq<Call>, c: Call, rest: seq<Call>, h: Handler, k: nat)
    requires forall j :: 0 <= j < |p| ==> h(k + j, p[j]).None?
    requires h(k + |p|, c).Some?
    ensures Execute(p + [c] + rest, h, k) == Run(p + [c], h(k + |p|, c))
  {
    assert p + [c] + rest == p + ([c] + rest);
    ExecutePassesOk(p, [c] + rest, h, k);
    assert ([c] + rest)[0] == c;
  }

  lemma AllSucceed(p: seq<Call>, h: Handler, k: nat)
    requires forall j :: 0 <= j < |p| ==> h(k + j, p[j]).None?
    ensures Execute(p, h, k) == Run(p, None)
  {
    assert p + [] == p;
    ExecutePassesOk(p, [], h, k);
  }

  /** Running two lists of calls one after the other: the second runs only
      if the first completed, numbered after it. */
  lemma {:induction false} ExecuteConcat(a: seq<Call>, b: seq<Call>, h: Handler, k: nat)
    ensures var ra, rb := Execute(a, h, k), Execute(b, h, k + |a|);
      Execute(a + b, h, k) == if ra.err.Some? then ra else Run(a + rb.trace, rb.err)
    decreases |a|
  {
    if a == [] {
      assert a + b == b;
    } else {
      var q := a + b;
      assert q[0] == a[0] && q[1..] == a[1..] + b;
      if h(k, a[0]).None? {
        ExecuteConcat(a[1..], b, h, k + 1);
        ExecuteIsPrefix(a[1..], h, k + 1);
        var inner := Execute(a[1..], h, k + 1);
        var rb := Execute(b, h, k + |a|);
        assert Execute(q, h, k) == Run([a[0]] + Execute(a[1..] + b, h, k + 1).trace, Execute(a[1..] + b, h, k + 1).err);
        if inner.err.None? {
          assert Execute(a[1..] + b, h, k + 1) == Run(a[1..] + rb.trace, rb.err);
          assert [a[0]] + (a[1..] + rb.trace) == a + rb.trace;
        }
      }
    }
  }

  // ---------------------------------------------------------------------
  // One iteration of the loop
  // ---------------------------------------------------------------------

  /** What kevent(2) returned: the record count and the error, if any. */
  datatype WaitResult = WaitResult(n: int, err: Option<Error>)

  /** Any wait error except EINTR discards the iteration. */
  predicate WaitFailed(wait: WaitResult)
  {
    wait.err.Some? && wait.err.value != EINTR
  }

  /** How many records the index loop `for i := 0; i < n; i++` visits. */
  function Fetched(n: int): (count: nat)
  {
    if n < 0 then 0 else n
  }

  /** Continue carries the `wakenUp` flag into the next iteration; Return ends Polling. */
  datatype Step = Continue(wakenUp: bool) | Return(err: Error)

  datatype Outcome = Outcome(trace: seq<Call>, step: Step, size: nat)

  /** Reference definition of one iteration, given the event list contents
      `events`, its size, what the wait returned, the flag carried in, the
      jobs queued when the drain happens, the handler, and the growth rule
      that `el.increase()` applies. */
  function Iteration(events: seq<Kevent>, size: nat, wait: WaitResult, wakenUp: bool,
                     jobs: seq<Job>, h: Handler, increase: nat -> nat): (o: Outcome)
    requires wait.n <= |events|
  {
    if WaitFailed(wait) then Outcome([], Continue(wakenUp), size)
    else
      var run := Execute(Planned(events[..Fetched(wait.n)], wakenUp, jobs), h, 0);
      match run.err
      case Some(e) => Outcome(run.trace, Return(e), size)
      case None => Outcome(run.trace, Continue(false), if wait.n == size then increase(size) else size)
  }

  /** One more record extends the descriptor callbacks by that record's, and
      raises the wake flag exactly when it is a wake record. */
  lemma RecordStep(rs: seq<Kevent>, i: nat)
    requires i < |rs|
    ensures DescriptorCalls(rs[..i + 1]) == DescriptorCalls(rs[..i]) + CallsOf(rs[i])
    ensures Woken(rs[..i + 1]) == (Woken(rs[..i]) || rs[i].ident == 0)
  {
    assert rs[..i + 1][..i] == rs[..i];
    assert rs[..i + 1][i] == rs[i];
    if Woken(rs[..i]) {
      var k :| 0 <= k < i && rs[..i][k].ident == 0;
      assert rs[..i + 1][k] == rs[..i][k];
    }
    if Woken(rs[..i + 1]) && rs[i].ident != 0 {
      var k :| 0 <= k < i + 1 && rs[..i + 1][k].ident == 0;
      assert rs[..i][k] == rs[..i + 1][k];
    }
  }

  /** The callbacks of one record, spelled as the index loop computes them. */
  lemma RecordCalls(r: Kevent)
    ensures AsInt(r.ident) == 0 ==> CallsOf(r) == []
    ensures AsInt(r.ident) != 0 ==>
      CallsOf(r) == [Call(AsInt(r.ident), if Closed(r) then EVFilterSock else r.filter, None)]
  {
  }

  /** The index loop's bookkeeping after record `i`: the trace gains that
      record's callbacks and the flag is raised by a wake record. */
  lemma DispatchStep(batch: seq<Kevent>, i: nat, w0: bool, trace: seq<Call>, w: bool,
                     trace': seq<Call>, w': bool)
    requires i < |batch|
    requires trace == DescriptorCalls(batch[..i]) && w == (w0 || Woken(batch[..i]))
    requires trace' == trace + CallsOf(batch[i]) && w' == (w || batch[i].ident == 0)
    ensures trace' == DescriptorCalls(batch[..i + 1]) && w' == (w0 || Woken(batch[..i + 1]))
  {
    RecordStep(batch, i);
  }

  /** A call that got nil extends a trace of calls that all got nil. */
  lemma OkExtend(trace: seq<Call>, call: Call, h: Handler)
    requires forall j :: 0 <= j < |trace| ==> h(j, trace[j]).None?
    requires h(|trace|, call).None?
    ensures forall j :: 0 <= j < |trace + [call]| ==> h(j, (trace + [call])[j]).None?
  {
  }

  /** A failing descriptor callback for record `i` ends the run of the batch's callbacks there. */
  lemma DescriptorFailureEndsRun(batch: seq<Kevent>, i: nat, h: Handler, call: Call)
    requires i < |batch|
    requires forall j :: 0 <= j < |DescriptorCalls(batch[..i])| ==> h(j, DescriptorCalls(batch[..i])[j]).None?
    requires CallsOf(batch[i]) == [call]
    requires h(|DescriptorCalls(batch[..i])|, call).Some?
    ensures Execute(DescriptorCalls(batch), h, 0)
         == Run(DescriptorCalls(batch[..i]) + [call], h(|DescriptorCalls(batch[..i])|, call))
  {
    var before := DescriptorCalls(batch[..i]);
    RecordStep(batch, i);
    assert batch == batch[..i + 1] + batch[i + 1..];
    DescriptorCallsConcat(batch[..i + 1], batch[i + 1..]);
    assert DescriptorCalls(batch) == before + [call] + DescriptorCalls(batch[i + 1..]);
    StopsAtFailure(before, call, DescriptorCalls(batch[i + 1..]), h, 0);
  }

  /** `evFilter` for a descriptor record: its own filter, replaced by
      EVFilterSock when EV_EOF or EV_ERROR is set. */
  method ReportedFilter(r: Kevent) returns (filter: int16)
    ensures Closed(r) ==> filter == EVFilterSock
    ensures !Closed(r) ==> filter == r.filter
  {
    filter := r.filter;
    if (r.flags & EV_EOF) != 0 || (r.flags & EV_ERROR) != 0 {
      filter := EVFilterSock;
    }
  }

  /** The index loop over the fetched records: a callback per descriptor
      record, in order, returning at the first error; a wake record only
      raises the flag. */
  method DispatchRecords(events: seq<Kevent>, n: int, wakenUp0: bool, handler: Handler)
    returns (trace: seq<Call>, err: Option<Error>, wakenUp: bool)
    requires n <= |events|
    ensures Run(trace, err) == Execute(DescriptorCalls(events[..Fetched(n)]), handler, 0)
    ensures err.None? ==> wakenUp == (wakenUp0 || Woken(events[..Fetched(n)]))
  {
    ghost var batch := events[..Fetched(n)];
    wakenUp := wakenUp0;
    trace := [];
    var i := 0;
    while i < n
      invariant 0 <= i <= |batch|
      invariant trace == DescriptorCalls(batch[..i])
      invariant forall j :: 0 <= j < |trace| ==> handler(j, trace[j]).None?
      invariant wakenUp == (wakenUp0 || Woken(batch[..i]))
    {
      assert events[i] == batch[i];
      RecordCalls(batch[i]);
      ghost var before, wokeBefore := trace, wakenUp;
      var fd := AsInt(events[i].ident);
      if fd != 0 {
        var filter := ReportedFilter(events[i]);
        var call := Call(fd, filter, None);
        var reply := handler(|trace|, call);
        if reply.Some? {
          DescriptorFailureEndsRun(batch, i, handler, call);
          return trace + [call], reply, wakenUp;
        }
        OkExtend(trace, call, handler);
        trace := trace + [call];
      } else {
        wakenUp := true;
      }
      DispatchStep(batch, i, wakenUp0, before, wokeBefore, trace, wakenUp);
      i := i + 1;
    }
    assert batch[..i] == batch;
    AllSucceed(trace, handler, 0);
    err := None;
  }

  /** `asyncJobQueue.ForEach(func(job) error { return callback(0, 0, job) })`:
      one job callback per queued job, in queue order, stopping at the first
      error; `k` is the number of callbacks already made in this iteration. */
  method DrainJobs(jobs: seq<Job>, handler: Handler, k: nat) returns (trace: seq<Call>, err: Option<Error>)
    ensures Run(trace, err) == Execute(JobCalls(jobs), handler, k)
  {
    trace := [];
    var j := 0;
    while j < |jobs|
      invariant 0 <= j <= |jobs|
      invariant trace == JobCalls(jobs[..j])
      invariant forall t :: 0 <= t < |trace| ==> handler(k + t, trace[t]).None?
    {
      var call := Call(0, 0, Some(jobs[j]));
      var reply := handler(k + |trace|, call);
      if reply.Some? {
        assert JobCalls(jobs) == trace + [call] + JobCalls(jobs[j + 1..]);
        StopsAtFailure(trace, call, JobCalls(jobs[j + 1..]), handler, k);
        return trace + [call], reply;
      }
      assert jobs[..j + 1][..j] == jobs[..j];
      trace := trace + [call];
      j := j + 1;
    }
    assert jobs[..j] == jobs;
    AllSucceed(trace, handler, k);
    err := None;
  }

  /** The body of the `for` loop of Polling, as the source runs it. */
  method PollIteration(events: seq<Kevent>, size: nat, wait: WaitResult, wakenUp0: bool,
                       jobs: seq<Job>, handler: Handler, increase: nat -> nat)
    returns (trace: seq<Call>, step: Step, newSize: nat)
    requires wait.n <= |events|
    ensures Outcome(trace, step, newSize) == Iteration(events, size, wait, wakenUp0, jobs, handler, increase)
  {
    var wakenUp := wakenUp0;
    if wait.err.Some? && wait.err.value != EINTR {
      return [], Continue(wakenUp), size;
    }
    ghost var batch := events[..Fetched(wait.n)];
    ghost var d := DescriptorCalls(batch);
    var err;
    trace, err, wakenUp := DispatchRecords(events, wait.n, wakenUp, handler);
    ghost var js := if wakenUp0 || Woken(batch) then JobCalls(jobs) else [];
    ExecuteConcat(d, js, handler, 0);
    if err.Some? {
      return trace, Return(err.value), size;
    }
    ExecuteIsPrefix(d, handler, 0);
    if wakenUp {
      wakenUp := false;
      var jobTrace, jobErr := DrainJobs(jobs, handler, |trace|);
      trace := trace + jobTrace;
      if jobErr.Some? {
        return trace, Return(jobErr.value), size;
      }
    } else {
      assert Execute(js, handler, |d|) == Run([], None);
      assert trace + [] == trace;
    }
    newSize := if wait.n == size then increase(size) else size;
    step := Continue(wakenUp);
  }

  // ---------------------------------------------------------------------
  // Properties of an iteration
  // ---------------------------------------------------------------------

  /** A wait error other than EINTR: no callback, no drain, no growth, and the flag is left as it was. */
  lemma WaitErrorDiscarded(events: seq<Kevent>, size: nat, wait: WaitResult, w: bool,
                           jobs: seq<Job>, h: Handler, increase: nat -> nat)
    requires wait.n <= |events|
    requires WaitFailed(wait)
    ensures Iteration(events, size, wait, w, jobs, h, increase) == Outcome([], Continue(w), size)
  {
  }

  /** The planned calls: each descriptor callback (no job, non-zero fd), then
      possibly the job callbacks, and nothing else. */
  lemma PlanShape(batch: seq<Kevent>, w: bool, jobs: seq<Job>)
    ensures var plan, d := Planned(batch, w, jobs), DescriptorCalls(batch);
      && d <= plan
      && plan <= d + JobCalls(jobs)
      && (forall k :: 0 <= k < |d| ==> plan[k].job == None && plan[k].fd != 0)
      && (forall k :: |d| <= k < |plan| ==> plan[k] == Call(0, 0, Some(jobs[k - |d|])))
      && (!w && !Woken(batch) ==> plan == d)
  {
    var d := DescriptorCalls(batch);
    forall k | 0 <= k < |d|
      ensures d[k].job == None && d[k].fd != 0
    {
      DescriptorCallOrigin(batch, d[k]);
    }
  }

  /** Every callback is either a descriptor event (non-zero fd, no job) that
      classifies one fetched record with a non-zero identifier, or a job call
      `callback(0, 0, job)` for a queued job. In particular a wake record never
      produces a descriptor callback. */
  lemma CallsComeFromRecordsOrJobs(events: seq<Kevent>, size: nat, wait: WaitResult, w: bool,
                                   jobs: seq<Job>, h: Handler, increase: nat -> nat)
    requires wait.n <= |events|
    ensures forall c :: c in Iteration(events, size, wait, w, jobs, h, increase).trace ==>
      (c.job == None && c.fd != 0 &&
        exists i :: 0 <= i < Fetched(wait.n) && events[i].ident != 0 && Classify(events[i]) == Ready(c.fd, c.filter))
      || (c.fd == 0 && c.filter == 0 && c.job.Some? && c.job.value in jobs)
  {
    if !WaitFailed(wait) {
      var batch := events[..Fetched(wait.n)];
      var o := Iteration(events, size, wait, w, jobs, h, increase);
      var plan := Planned(batch, w, jobs);
      var d := DescriptorCalls(batch);
      ExecuteStopsAtFirstError(plan, h, 0);
      PlanShape(batch, w, jobs);
      forall c | c in o.trace
        ensures (c.job == None && c.fd != 0 &&
          exists i :: 0 <= i < Fetched(wait.n) && events[i].ident != 0 && Classify(events[i]) == Ready(c.fd, c.filter))
          || (c.fd == 0 && c.filter == 0 && c.job.Some? && c.job.value in jobs)
      {
        var k :| 0 <= k < |o.trace| && o.trace[k] == c;
        assert plan[k] == c;
        if k < |d| {
          assert d[k] == c;
          DescriptorCallOrigin(batch, c);
          var i :| 0 <= i < |batch| && batch[i].ident != 0 && Classify(batch[i]) == Ready(c.fd, c.filter);
          assert events[i] == batch[i];
        } else {
          assert jobs[k - |d|] in jobs;
        }
      }
    }
  }

  /** What running the planned calls of a batch can issue: a prefix of the
      descriptor callbacks followed by the job callbacks; no job when the run
      failed on a descriptor callback or no wake was seen; and a job only
      after every descriptor callback. */
  lemma RunOfPlan(batch: seq<Kevent>, w: bool, jobs: seq<Job>, h: Handler)
    ensures var r, d := Execute(Planned(batch, w, jobs), h, 0), DescriptorCalls(batch);
      && r.trace <= d + JobCalls(jobs)
      && (r.trace != [] && r.trace[|r.trace| - 1].job == None ==> forall c :: c in r.trace ==> c.job == None)
      && (!w && !Woken(batch) ==> forall c :: c in r.trace ==> c.job == None)
      && (forall j :: 0 <= j < |r.trace| && r.trace[j].job.Some? ==> d <= r.trace && |d| <= j)
  {
    var plan, d := Planned(batch, w, jobs), DescriptorCalls(batch);
    var t := Execute(plan, h, 0).trace;
    ExecuteIsPrefix(plan, h, 0);
    PlanShape(batch, w, jobs);
    PrefixOfPlan(batch, w, jobs, t);
  }

  /** The same facts for any prefix of the planned calls. */
  lemma PrefixOfPlan(batch: seq<Kevent>, w: bool, jobs: seq<Job>, t: seq<Call>)
    requires t <= Planned(batch, w, jobs)
    ensures var d := DescriptorCalls(batch);
      && t <= d + JobCalls(jobs)
      && (t != [] && t[|t| - 1].job == None ==> forall c :: c in t ==> c.job == None)
      && (!w && !Woken(batch) ==> forall c :: c in t ==> c.job == None)
      && (forall j :: 0 <= j < |t| && t[j].job.Some? ==> d <= t && |d| <= j)
  {
    var plan, d := Planned(batch, w, jobs), DescriptorCalls(batch);
    PlanShape(batch, w, jobs);
    if (t != [] && t[|t| - 1].job == None) || (!w && !Woken(batch)) {
      assert t == [] || t[|t| - 1] == plan[|t| - 1];
      assert |t| <= |d|;
      forall c | c in t
        ensures c.job == None
      {
        var k :| 0 <= k < |t| && t[k] == c;
        assert plan[k] == c;
      }
    }
    forall j | 0 <= j < |t| && t[j].job.Some?
      ensures d <= t && |d| <= j
    {
      assert plan[j] == t[j];
      assert t[..|d|] == plan[..|d|];
    }
  }

  /** The callbacks of an iteration are a prefix of its descriptor callbacks
      followed by its job callbacks: records in index order, then jobs. */
  lemma TraceFollowsRecordOrder(events: seq<Kevent>, size: nat, wait: WaitResult, w: bool,
                                jobs: seq<Job>, h: Handler, increase: nat -> nat)
    requires wait.n <= |events|
    ensures Iteration(events, size, wait, w, jobs, h, increase).trace
         <= DescriptorCalls(events[..Fetched(wait.n)]) + JobCalls(jobs)
  {
    if !WaitFailed(wait) {
      RunOfPlan(events[..Fetched(wait.n)], w, jobs, h);
    }
  }

  /** The first callback error ends Polling with exactly that error: the trace
      stops at the failing call, every earlier call got nil, and the event list
      keeps its size. */
  lemma FirstErrorEndsPolling(events: seq<Kevent>, size: nat, wait: WaitResult, w: bool,
                              jobs: seq<Job>, h: Handler, increase: nat -> nat)
    requires wait.n <= |events|
    ensures var o := Iteration(events, size, wait, w, jobs, h, increase);
      o.step.Return? ==>
        o.size == size && o.trace != [] &&
        h(|o.trace| - 1, o.trace[|o.trace| - 1]) == Some(o.step.err) &&
        forall j :: 0 <= j < |o.trace| - 1 ==> h(j, o.trace[j]).None?
  {
    if !WaitFailed(wait) {
      ExecuteStopsAtFirstError(Planned(events[..Fetched(wait.n)], w, jobs), h, 0);
    }
  }

  /** When a descriptor callback fails, no job has been drained. */
  lemma DescriptorErrorSkipsJobs(events: seq<Kevent>, size: nat, wait: WaitResult, w: bool,
                                 jobs: seq<Job>, h: Handler, increase: nat -> nat)
    requires wait.n <= |events|
    ensures var o := Iteration(events, size, wait, w, jobs, h, increase);
      o.step.Return? && o.trace != [] && o.trace[|o.trace| - 1].job == None ==>
        forall c :: c in o.trace ==> c.job == None
  {
    if !WaitFailed(wait) {
      RunOfPlan(events[..Fetched(wait.n)], w, jobs, h);
    }
  }

  /** An iteration that goes on to the next wait got nil from every callback. */
  lemma ContinueMeansAllNil(events: seq<Kevent>, size: nat, wait: WaitResult, w: bool,
                            jobs: seq<Job>, h: Handler, increase: nat -> nat)
    requires wait.n <= |events|
    ensures var o := Iteration(events, size, wait, w, jobs, h, increase);
      o.step.Continue? ==> forall j :: 0 <= j < |o.trace| ==> h(j, o.trace[j]).None?
  {
    if !WaitFailed(wait) {
      ExecuteStopsAtFirstError(Planned(events[..Fetched(wait.n)], w, jobs), h, 0);
    }
  }

  /** Jobs run only when a wake record was fetched (or the flag was carried
      in), and only once every descriptor callback of the batch succeeded. */
  lemma JobsRunOnlyAfterWake(events: seq<Kevent>, size: nat, wait: WaitResult, w: bool,
                             jobs: seq<Job>, h: Handler, increase: nat -> nat)
    requires wait.n <= |events|
    ensures var o, batch := Iteration(events, size, wait, w, jobs, h, increase), events[..Fetched(wait.n)];
      !w && !Woken(batch) ==> forall c :: c in o.trace ==> c.job == None
    ensures var o, batch := Iteration(events, size, wait, w, jobs, h, increase), events[..Fetched(wait.n)];
      forall j :: 0 <= j < |o.trace| && o.trace[j].job.Some? ==>
        DescriptorCalls(batch) <= o.trace && |DescriptorCalls(batch)| <= j
  {
    if !WaitFailed(wait) {
      RunOfPlan(events[..Fetched(wait.n)], w, jobs, h);
    }
  }

  /** After a completed drain every queued job has run once, in queue order,
      after all descriptor callbacks, and the flag is down. */
  lemma DrainRunsEveryJob(events: seq<Kevent>, size: nat, wait: WaitResult, w: bool,
                          jobs: seq<Job>, h: Handler, increase: nat -> nat)
    requires wait.n <= |events|
    ensures var o, batch := Iteration(events, size, wait, w, jobs, h, increase), events[..Fetched(wait.n)];
      !WaitFailed(wait) && (w || Woken(batch)) && o.step.Continue? ==>
        o.trace == DescriptorCalls(batch) + JobCalls(jobs)
    ensures var o := Iteration(events, size, wait, w, jobs, h, increase);
      !WaitFailed(wait) && o.step.Continue? ==> !o.step.wakenUp
  {
    if !WaitFailed(wait) {
      ExecuteIsPrefix(Planned(events[..Fetched(wait.n)], w, jobs), h, 0);
    }
  }

  /** An iteration that goes on to the next wait issued every planned call:
      all descriptor callbacks of the batch, then the jobs if it was woken. */
  lemma ContinueRunsWholePlan(events: seq<Kevent>, size: nat, wait: WaitResult, w: bool,
                              jobs: seq<Job>, h: Handler, increase: nat -> nat)
    requires wait.n <= |events|
    ensures var o := Iteration(events, size, wait, w, jobs, h, increase);
      !WaitFailed(wait) && o.step.Continue? ==> o.trace == Planned(events[..Fetched(wait.n)], w, jobs)
  {
    if !WaitFailed(wait) {
      ExecuteIsPrefix(Planned(events[..Fetched(wait.n)], w, jobs), h, 0);
    }
  }

  /** The event list grows exactly when a completed iteration fetched as many
      records as it holds, and its size never shrinks. */
  lemma GrowthOnFullBatch(events: seq<Kevent>, size: nat, wait: WaitResult, w: bool,
                          jobs: seq<Job>, h: Handler, increase: nat -> nat)
    requires wait.n <= |events|
    requires forall s: nat :: increase(s) > s
    ensures var o := Iteration(events, size, wait, w, jobs, h, increase);
      o.size >= size &&
      (o.size > size <==> !WaitFailed(wait) && o.step.Continue? && wait.n == size)
  {
  }

  // ---------------------------------------------------------------------
  // Readiness and the registered interest
  // ---------------------------------------------------------------------

  /** When the kernel reports only filters that are registered for a record's
      identifier, every read or write readiness callback names a filter that is
      registered for that descriptor. */
  lemma ReadinessMatchesInterest(I: Registration.Interest, events: seq<Kevent>, size: nat,
                                 wait: WaitResult, w: bool, jobs: seq<Job>, h: Handler,
                                 increase: nat -> nat)
    requires wait.n <= |events|
    requires forall i :: 0 <= i < Fetched(wait.n) ==> events[i].filter in Registration.Filters(I, events[i].ident)
    ensures forall c :: c in Iteration(events, size, wait, w, jobs, h, increase).trace ==>
      (c.job == None && c.filter != EVFilterSock ==> c.filter in Registration.Filters(I, Ident(c.fd)))
  {
    CallsComeFromRecordsOrJobs(events, size, wait, w, jobs, h, increase);
  }

  /** After AddReadWrite and then ModRead on a descriptor, no callback
      attributes write readiness to it. */
  lemma NoWriteReadinessAfterModRead(I0: Registration.Interest, fd: int64, events: seq<Kevent>,
                                     size: nat, wait: WaitResult, w: bool, jobs: seq<Job>,
                                     h: Handler, increase: nat -> nat)
    requires wait.n <= |events|
    requires var I := Registration.Apply(Registration.Apply(I0, Registration.AddReadWrite(fd)), Registration.ModRead(fd));
      forall i :: 0 <= i < Fetched(wait.n) ==> events[i].filter in Registration.Filters(I, events[i].ident)
    ensures Call(fd, EVFILT_WRITE, None) !in Iteration(events, size, wait, w, jobs, h, increase).trace
  {
    var I1 := Registration.Apply(I0, Registration.AddReadWrite(fd));
    var I := Registration.Apply(I1, Registration.ModRead(fd));
    Registration.OpEffect(I1, Registration.ModReadOp, fd);
    ReadinessMatchesInterest(I, events, size, wait, w, jobs, h, increase);
  }

  // ---------------------------------------------------------------------
  // Scenarios
  // ---------------------------------------------------------------------

  /** Descriptor 7 reported read-ready reaches the handler as (7, EVFILT_READ, nil). */
  lemma ReadReadyScenario(h: Handler, increase: nat -> nat)
    ensures Iteration([Kevent(Ident(7), EVFILT_READ, 0, 0)], 1, WaitResult(1, None), false, [], h, increase).trace
         == [Call(7, EVFILT_READ, None)]
  {
    var batch := [Kevent(Ident(7), EVFILT_READ, 0, 0)];
    var call := Call(7, EVFILT_READ, None);
    assert batch[..1] == batch && batch[..0] == [];
    assert Classify(batch[0]) == Ready(7, EVFILT_READ);
    assert DescriptorCalls(batch) == [call];
    assert Planned(batch, false, []) == [call];
    assert Execute([call], h, 0).trace == [call];
  }

  /** EV_EOF on descriptor 3 reaches the handler as EVFilterSock, never as read-ready. */
  lemma EofScenario(h: Handler, increase: nat -> nat)
    ensures Iteration([Kevent(Ident(3), EVFILT_READ, EV_EOF, 0)], 4, WaitResult(1, None), false, [], h, increase).trace
         == [Call(3, EVFilterSock, None)]
  {
    var batch := [Kevent(Ident(3), EVFILT_READ, EV_EOF, 0)];
    var call := Call(3, EVFilterSock, None);
    assert batch[..1] == batch && batch[..0] == [];
    assert Classify(batch[0]) == Ready(3, EVFilterSock);
    assert DescriptorCalls(batch) == [call];
    assert Planned(batch, false, []) == [call];
    assert Execute([call], h, 0).trace == [call];
  }

  /** Two jobs queued before one wake both run, once each, in queue order. */
  lemma TwoJobsOneWake(a: Job, b: Job, increase: nat -> nat)
    ensures Iteration([Kevent(0, EVFILT_USER, 0, 0)], 8, WaitResult(1, None), false, [a, b],
                      (k: nat, c: Call) => None, increase).trace
         == [Call(0, 0, Some(a)), Call(0, 0, Some(b))]
  {
    var batch := [Kevent(0, EVFILT_USER, 0, 0)];
    var h: Handler := (k: nat, c: Call) => None;
    assert batch[..1] == batch;
    assert DescriptorCalls(batch) == DescriptorCalls([]) + CallsOf(batch[0]);
    assert Woken(batch) by { assert batch[0].ident == 0; }
    var plan := Planned(batch, false, [a, b]);
    assert plan == [Call(0, 0, Some(a)), Call(0, 0, Some(b))];
    AllSucceed(plan, h, 0);
  }
}
