/** The Poller of netpoll/kqueue.go: the kqueue descriptor and the job queue,
    how OpenPoller builds one and how Trigger hands it a job. The kernel calls
    are abstracted to their replies, passed in as parameters, and to the change
    lists submitted, returned as results. */
module Netpoll {
  import opened Unix
  import Registration
  import opened EventLoop

  class Poller {
    /** The kqueue descriptor. */
    var kq: int
    /** The asynchronous job queue, oldest job first; Polling's drain walks it in this order. */
    var queue: seq<Job>

    constructor (kq: int)
      ensures this.kq == kq && queue == []
    {
      this.kq := kq;
      queue := [];
    }

    /** Pushes `job`, then raises the wake sentinel. The job is queued
        before the kevent(2) call, so it stays queued when raising the wake
        fails, and that failure is what Trigger returns. */
    method Trigger(job: Job, wakeReply: Option<Error>) returns (submitted: seq<Kevent>, err: Option<Error>)
      modifies this
      ensures kq == old(kq)
      ensures queue == old(queue) + [job]
      ensures submitted == Registration.TriggerChanges()
      ensures err == wakeReply
    {
      queue := queue + [job];
      submitted := Registration.TriggerChanges();
      err := wakeReply;
    }
  }

  /** kqueue(2), then the sentinel registration. `kqueueReply` is what
      kqueue(2) returned and `registerReply` what kevent(2) returned for the
      sentinel change. On either failure there is no poller and the error is
      returned; a descriptor obtained before a failed registration is not
      closed. */
  method OpenPoller(kqueueReply: Result<int>, registerReply: Option<Error>)
    returns (p: Poller?, submitted: seq<Kevent>, err: Option<Error>)
    ensures kqueueReply.Err? ==> p == null && submitted == [] && err == Some(kqueueReply.error)
    ensures kqueueReply.Ok? ==> submitted == Registration.SentinelChanges()
    ensures kqueueReply.Ok? && registerReply.Some? ==> p == null && err == registerReply
    ensures kqueueReply.Ok? && registerReply.None? ==>
      p != null && fresh(p) && p.kq == kqueueReply.value && p.queue == [] && err == None
  {
    if kqueueReply.Err? {
      return null, [], Some(kqueueReply.error);
    }
    submitted := Registration.SentinelChanges();
    if registerReply.Some? {
      return null, submitted, registerReply;
    }
    p := new Poller(kqueueReply.value);
    err := None;
  }

  /** When `job` is the last job queued at the drain of a woken iteration
      that completes, it is the last callback. */
  lemma TriggeredJobRunsLast(events: seq<Kevent>, size: nat, wait: WaitResult,
                             queued: seq<Job>, job: Job, h: Handler, increase: nat -> nat)
    requires wait.n <= |events|
    requires !WaitFailed(wait) && Woken(events[..Fetched(wait.n)])
    requires Iteration(events, size, wait, false, queued + [job], h, increase).step.Continue?
    ensures var t := Iteration(events, size, wait, false, queued + [job], h, increase).trace;
      t != [] && t[|t| - 1] == Call(0, 0, Some(job))
  {
    DrainRunsEveryJob(events, size, wait, false, queued + [job], h, increase);
  }
}
