/** The places where one asynchronous party waits for another: the queue of call links, the opening of a
    model stream with its pacing notices, and the permit semaphore. JavaScript runs each step below to
    completion; what may happen in between is any interleaving of them. */
module HandOffs {
  import opened Wrappers

  /** Where a consuming generator stands: at its start or at a yield, waiting for the consumer to ask
      again; parked on a promise; its promise resolved but not yet resumed; or finished. */
  datatype Consumer = Idle | Parked | Woken | Finished

  function WakeUp(consumer: Consumer): Consumer {
    if consumer.Parked? then Woken else consumer
  }

  /** The queue as a log of what was emitted and a cursor into it. */
  datatype LinkLog<T> = LinkLog(emitted: seq<T>, delivered: nat, done: bool, settledAt: nat, consumer: Consumer)

  datatype QueueAction<T> = EmitLink(link: T) | SettleTools | Resume

  function LinkLogStep<T>(log: LinkLog<T>, action: QueueAction<T>): LinkLog<T> {
    match action
    case EmitLink(link) => log.(emitted := log.emitted + [link], consumer := WakeUp(log.consumer))
    case SettleTools =>
      if log.done then log
      else log.(done := true, settledAt := |log.emitted|, consumer := WakeUp(log.consumer))
    case Resume =>
      if !log.consumer.Idle? && !log.consumer.Woken? then log
      else if log.delivered < |log.emitted| then log.(delivered := log.delivered + 1, consumer := Idle)
      else log.(consumer := if log.done then Finished else Parked)
  }

  function LinkLogAfter<T>(actions: seq<QueueAction<T>>, n: nat): LinkLog<T>
    requires n <= |actions|
  {
    if n == 0 then LinkLog([], 0, false, 0, Idle) else LinkLogStep(LinkLogAfter(actions, n - 1), actions[n - 1])
  }

  /** Whatever the interleaving: the consumer is parked only over an empty queue and unsettled tools, it ends
      only when the tools have settled and every link emitted before that has come out, and never before. */
  lemma {:induction false} NoWakeUpLost<T>(actions: seq<QueueAction<T>>, n: nat)
    requires n <= |actions|
    ensures var log := LinkLogAfter(actions, n);
            && log.delivered <= |log.emitted| && (log.done ==> log.settledAt <= |log.emitted|)
            && (log.consumer.Parked? ==> log.delivered == |log.emitted| && !log.done)
            && (log.consumer.Finished? ==> log.done && log.settledAt <= log.delivered)
  {
    if n > 0 {
      NoWakeUpLost(actions, n - 1);
    }
  }

  /** The links emitted in the first `n` actions. */
  function LinksIn<T>(actions: seq<QueueAction<T>>, n: nat): seq<T>
    requires n <= |actions|
  {
    if n == 0 then []
    else LinksIn(actions, n - 1) + if actions[n - 1].EmitLink? then [actions[n - 1].link] else []
  }

  ghost predicate ToolsSettleAt<T>(actions: seq<QueueAction<T>>, k: nat) {
    k < |actions| && actions[k].SettleTools? && forall j :: 0 <= j < k ==> !actions[j].SettleTools?
  }

  /** The log holds every link emitted, in order, and knows whether the tools have settled and how many links came
      before. */
  lemma {:induction false} LinkLogHoldsAll<T>(actions: seq<QueueAction<T>>, n: nat)
    requires n <= |actions|
    ensures var log := LinkLogAfter(actions, n);
            && log.emitted == LinksIn(actions, n)
            && (log.done <==> exists k :: 0 <= k < n && actions[k].SettleTools?)
            && forall k: nat :: k < n && ToolsSettleAt(actions, k) ==> log.settledAt == |LinksIn(actions, k)|
  {
    if n > 0 {
      LinkLogHoldsAll(actions, n - 1);
      assert LinksIn(actions, n - 1) + [] == LinksIn(actions, n - 1);
    }
  }

  function ResumeTimes<T>(log: LinkLog<T>, k: nat): LinkLog<T> {
    if k == 0 then log else LinkLogStep(ResumeTimes(log, k - 1), Resume)
  }

  /** A consumer that keeps asking is handed one link at a time until there is none, and then the end if the tools
      have settled, or it waits. */
  lemma {:induction false} AskingDrains<T>(log: LinkLog<T>, k: nat)
    requires (log.consumer.Idle? || log.consumer.Woken?) && log.delivered + k <= |log.emitted|
    ensures k > 0 ==> ResumeTimes(log, k) == log.(delivered := log.delivered + k, consumer := Idle)
    ensures log.delivered + k == |log.emitted| ==>
              ResumeTimes(log, k + 1) == log.(delivered := |log.emitted|, consumer := if log.done then Finished else Parked)
  {
    if k > 0 {
      AskingDrains(log, k - 1);
    }
  }

  /** Links emitted while the tools of a turn run, drained by the agent loop. */
  class LinkQueue<T(==)> {
    var queue: seq<T>
    var wakeUp: bool
    var done: bool
    var consumer: Consumer
    ghost var emitted: seq<T>
    ghost var delivered: seq<T>
    /** How many links had been emitted when the tools settled. */
    ghost var settledAt: nat

    ghost predicate Valid()
      reads this
    {
      && emitted == delivered + queue
      && (consumer.Parked? <==> wakeUp)
      && (consumer.Parked? ==> queue == [] && !done)
      && (done ==> settledAt <= |emitted|)
      && (consumer.Finished? ==> done && settledAt <= |delivered|)
    }

    ghost function Log(): LinkLog<T>
      reads this
    {
      LinkLog(emitted, |delivered|, done, settledAt, consumer)
    }

    constructor ()
      ensures Valid() && emitted == delivered == [] && !done && settledAt == 0 && consumer == Idle
    {
      queue, wakeUp, done, consumer := [], false, false, Idle;
      emitted, delivered, settledAt := [], [], 0;
    }

    method Wake()
      modifies this`wakeUp, this`consumer
      ensures !wakeUp && consumer == if old(wakeUp) then Woken else old(consumer)
    {
      if wakeUp {
        consumer := Woken;
      }
      wakeUp := false;
    }

    method Emit(link: T)
      requires Valid()
      modifies this
      ensures Valid() && emitted == old(emitted) + [link] && delivered == old(delivered)
      ensures done == old(done) && settledAt == old(settledAt)
      ensures consumer == if old(consumer).Parked? then Woken else old(consumer)
    {
      queue := queue + [link];
      emitted := emitted + [link];
      Wake();
    }

    /** Settles once, when every tool of the turn has. */
    method Settle()
      requires Valid() && !done
      modifies this
      ensures Valid() && done && emitted == old(emitted) && delivered == old(delivered)
      ensures settledAt == |emitted|
      ensures consumer == if old(consumer).Parked? then Woken else old(consumer)
    {
      done := true;
      settledAt := |emitted|;
      Wake();
    }

    /** The generator runs to its next suspension: the consumer asked for an item, or the promise it was
        parked on was resolved. */
    method Step() returns (item: Option<T>)
      requires Valid() && (consumer.Idle? || consumer.Woken?)
      modifies this
      ensures Valid() && emitted == old(emitted) && done == old(done) && settledAt == old(settledAt)
      ensures item.Some? <==> |old(delivered)| < |emitted|
      ensures item.Some? ==> delivered == old(delivered) + [item.value] && consumer == Idle
      ensures item.None? ==> delivered == old(delivered) && consumer == if done then Finished else Parked
    {
      if queue != [] {
        item := Some(queue[0]);
        queue := queue[1..];
        delivered := delivered + [item.value];
        consumer := Idle;
        return;
      }
      item := None;
      if done {
        consumer := Finished;
        return;
      }
      wakeUp := true;
      consumer := Parked;
    }

    /** Once the tools have settled, a consumer that keeps asking gets everything that is left, in order,
        and then the end. */
    method DrainAfterSettle() returns (items: seq<T>)
      requires Valid() && done && !consumer.Finished?
      modifies this
      ensures Valid() && consumer.Finished?
      ensures emitted == old(emitted) == old(delivered) + items
    {
      items := [];
      while true
        invariant Valid() && done && !consumer.Finished?
        invariant emitted == old(emitted) && delivered == old(delivered) + items
        decreases |emitted| - |delivered|
      {
        var item := Step();
        if item.None? {
          return;
        }
        items := items + [item.value];
      }
    }
  }

  /** The opening as a log of notices, a cursor into it, and where the splice being handed over ends. */
  datatype OpeningLog<T> = OpeningLog(emitted: seq<T>, delivered: nat, spliced: nat, done: bool, failed: bool, last: bool,
                                      settledAt: nat, consumer: Consumer)

  datatype OpeningAction<T> = Notice(notice: T) | SettleCall(fails: bool) | ResumeOpening

  function Deliver<T>(log: OpeningLog<T>): OpeningLog<T> {
    if log.delivered < log.spliced then log.(delivered := log.delivered + 1, consumer := Idle)
    else log.(consumer := Finished)
  }

  function Resumed<T>(log: OpeningLog<T>): OpeningLog<T> {
    if log.delivered < log.spliced || log.last then Deliver(log)
    else if !log.done && log.spliced == |log.emitted| then log.(consumer := Parked)
    else Deliver(log.(spliced := |log.emitted|, last := log.done))
  }

  function OpeningLogStep<T>(log: OpeningLog<T>, action: OpeningAction<T>): OpeningLog<T> {
    match action
    case Notice(notice) => log.(emitted := log.emitted + [notice], consumer := WakeUp(log.consumer))
    case SettleCall(fails) =>
      if log.done then log
      else log.(done := true, failed := fails, settledAt := |log.emitted|, consumer := WakeUp(log.consumer))
    case ResumeOpening => if log.consumer.Idle? || log.consumer.Woken? then Resumed(log) else log
  }

  function OpeningLogAfter<T>(actions: seq<OpeningAction<T>>, n: nat): OpeningLog<T>
    requires n <= |actions|
  {
    if n == 0 then OpeningLog([], 0, 0, false, false, false, 0, Idle)
    else OpeningLogStep(OpeningLogAfter(actions, n - 1), actions[n - 1])
  }

  ghost predicate OpeningSound<T>(log: OpeningLog<T>) {
    && log.delivered <= log.spliced <= |log.emitted| && (log.done ==> log.settledAt <= |log.emitted|)
    && (log.consumer.Parked? || log.consumer.Woken? ==> log.delivered == log.spliced && !log.last)
    && (log.consumer.Parked? ==> log.spliced == |log.emitted| && !log.done)
    && (log.last ==> log.done && log.settledAt <= log.spliced)
    && (log.consumer.Finished? ==> log.last && log.delivered == log.spliced)
  }

  /** Whatever the interleaving: a parked turn has been handed every notice and the call has not settled; an
      ended one has been handed every notice that came before the call settled. */
  lemma {:induction false} NoNoticeLost<T>(actions: seq<OpeningAction<T>>, n: nat)
    requires n <= |actions|
    ensures OpeningSound(OpeningLogAfter(actions, n))
  {
    if n > 0 {
      NoNoticeLost(actions, n - 1);
    }
  }

  /** The notices that came in the first `n` actions. */
  function NoticesIn<T>(actions: seq<OpeningAction<T>>, n: nat): seq<T>
    requires n <= |actions|
  {
    if n == 0 then []
    else NoticesIn(actions, n - 1) + if actions[n - 1].Notice? then [actions[n - 1].notice] else []
  }

  ghost predicate CallSettlesAt<T>(actions: seq<OpeningAction<T>>, k: nat) {
    k < |actions| && actions[k].SettleCall? && forall j :: 0 <= j < k ==> !actions[j].SettleCall?
  }

  lemma {:induction false} OpeningLogHoldsAll<T>(actions: seq<OpeningAction<T>>, n: nat)
    requires n <= |actions|
    ensures OpeningLogAfter(actions, n).emitted == NoticesIn(actions, n)
    ensures OpeningLogAfter(actions, n).done <==> exists k :: 0 <= k < n && actions[k].SettleCall?
  {
    if n > 0 {
      OpeningLogHoldsAll(actions, n - 1);
      assert NoticesIn(actions, n - 1) + [] == NoticesIn(actions, n - 1);
    }
  }

  /** The log knows whether the call has settled, and as its first settlement did: with a stream or with an error. */
  lemma {:induction false} FirstSettlementCounts<T>(actions: seq<OpeningAction<T>>, n: nat, k: nat)
    requires k < n <= |actions| && CallSettlesAt(actions, k)
    ensures var log := OpeningLogAfter(actions, n);
            log.done && log.settledAt == |NoticesIn(actions, k)| && log.failed == actions[k].fails
  {
    var last := n - 1;
    OpeningLogHoldsAll(actions, last);
    if k < last {
      FirstSettlementCounts(actions, last, k);
      SettlementStays(OpeningLogAfter(actions, last), actions[last]);
    }
  }

  lemma SettlementStays<T>(log: OpeningLog<T>, action: OpeningAction<T>)
    requires log.done
    ensures var next := OpeningLogStep(log, action);
            next.done && next.settledAt == log.settledAt && next.failed == log.failed
  {
  }

  function ResumeOpeningTimes<T>(log: OpeningLog<T>, k: nat): OpeningLog<T>
    decreases k
  {
    if k == 0 then log else ResumeOpeningTimes(OpeningLogStep(log, ResumeOpening), k - 1)
  }

  /** What a turn that keeps asking is handed in the end: everything, or what its last splice held. */
  function Reachable<T>(log: OpeningLog<T>): nat {
    if log.last then log.spliced else |log.emitted|
  }

  /** A turn that keeps asking is handed one notice at a time until there is none, and then it ends if the call has
      settled, or it waits. */
  lemma {:induction false} AskingOpens<T>(log: OpeningLog<T>)
    requires OpeningSound(log) && (log.consumer.Idle? || log.consumer.Woken?)
    ensures log.delivered <= Reachable(log)
    ensures var end := ResumeOpeningTimes(log, Reachable(log) - log.delivered + 1);
            && end.delivered == Reachable(log) && end.emitted == log.emitted && end.failed == log.failed
            && end.consumer == if log.done then Finished else Parked
    decreases Reachable(log) - log.delivered
  {
    if log.delivered < Reachable(log) {
      OneNoticeMore(log);
      AskingOpens(OpeningLogStep(log, ResumeOpening));
    }
  }

  lemma OneNoticeMore<T>(log: OpeningLog<T>)
    requires OpeningSound(log) && (log.consumer.Idle? || log.consumer.Woken?) && log.delivered < Reachable(log)
    ensures var next := OpeningLogStep(log, ResumeOpening);
            && OpeningSound(next) && next.consumer.Idle? && next.delivered == log.delivered + 1
            && Reachable(next) == Reachable(log) && next.emitted == log.emitted && next.done == log.done
            && next.failed == log.failed
  {
  }

  /** The opening of a model stream: pacing notices are handed over while the call is still queued. */
  class StreamOpening<T(==)> {
    var pending: seq<T>
    /** A resolver is registered. It may already have been called: only the consumer clears it. */
    var wake: bool
    var done: bool
    var failed: bool
    var consumer: Consumer
    /** Notices spliced out of `pending` and being yielded one by one. */
    var batch: seq<T>
    /** The loop is over: what is being yielded is the last splice. */
    var last: bool
    ghost var emitted: seq<T>
    ghost var delivered: seq<T>
    ghost var settledAt: nat

    ghost predicate Valid()
      reads this
    {
      && emitted == delivered + batch + pending
      && (consumer.Parked? ==> wake && pending == [] && batch == [] && !done)
      && (consumer.Woken? ==> batch == [])
      && (consumer.Parked? || consumer.Woken? ==> !last)
      && (done ==> settledAt <= |emitted|)
      && (last ==> done && settledAt <= |delivered| + |batch|)
      && (consumer.Finished? ==> last && batch == [])
    }

    ghost function Log(): OpeningLog<T>
      reads this
    {
      OpeningLog(emitted, |delivered|, |delivered| + |batch|, done, failed, last, settledAt, consumer)
    }

    constructor ()
      ensures Valid() && delivered == [] && Log() == OpeningLog([], 0, 0, false, false, false, 0, Idle)
    {
      pending, wake, done, failed, consumer, batch, last := [], false, false, false, Idle, [], false;
      emitted, delivered, settledAt := [], [], 0;
    }

    method Wake()
      modifies this`consumer
      ensures consumer == if wake && old(consumer).Parked? then Woken else old(consumer)
    {
      if wake && consumer.Parked? {
        consumer := Woken;
      }
    }

    method OnPaced(notice: T)
      requires Valid()
      modifies this
      ensures Valid() && delivered == old(delivered) && Log() == OpeningLogStep(old(Log()), Notice(notice))
    {
      pending := pending + [notice];
      emitted := emitted + [notice];
      Wake();
    }

    /** The gateway's promise settles, with a stream or with an error. */
    method Settle(fails: bool)
      requires Valid() && !done
      modifies this
      ensures Valid() && delivered == old(delivered) && Log() == OpeningLogStep(old(Log()), SettleCall(fails))
    {
      done, failed := true, fails;
      settledAt := |emitted|;
      Wake();
    }

    method YieldFromBatch() returns (item: T)
      requires Valid() && batch != [] && consumer.Idle?
      modifies this
      ensures Valid() && consumer == Idle && delivered == old(delivered) + [item]
      ensures emitted == old(emitted) && done == old(done) && last == old(last)
      ensures settledAt == old(settledAt) && failed == old(failed) && |batch| == |old(batch)| - 1
    {
      item := batch[0];
      batch := batch[1..];
      delivered := delivered + [item];
    }

    /** What is pending becomes the batch to yield; the last one, if the call has settled. */
    method Splice()
      requires Valid() && batch == [] && !last && consumer.Idle?
      modifies this`batch, this`pending, this`last
      ensures Valid() && pending == [] && batch == old(pending)
      ensures Log() == old(Log()).(spliced := |emitted|, last := done)
    {
      batch, pending := pending, [];
      last := done;
      assert emitted == delivered + batch;
    }

    /** Run to the next suspension. The loop finds the call settled, or splices what is pending, or
        parks; the check made inside the promise means it never parks on a hand-over it missed. The end
        is a stream or the call's own error. */
    method Step() returns (item: Option<T>)
      requires Valid() && (consumer.Idle? || consumer.Woken?)
      modifies this
      ensures Valid() && Log() == Resumed(old(Log()))
      ensures delivered == old(delivered) + if item.Some? then [item.value] else []
    {
      if consumer.Woken? {
        wake := false;
        consumer := Idle;
      }
      if batch == [] && last {
        consumer := Finished;
        return None;
      }
      if batch == [] && !done && pending == [] {
        // Registering and re-checking are one step, so there is nothing to find here.
        wake := true;
        consumer := Parked;
        return None;
      }
      if batch == [] {
        Splice();
      }
      if batch == [] {
        consumer := Finished;
        return None;
      }
      var next := YieldFromBatch();
      return Some(next);
    }
  }

  ghost predicate Increasing(tasks: seq<nat>) {
    forall i, j :: 0 <= i < j < |tasks| ==> tasks[i] < tasks[j]
  }

  lemma OneMore(tasks: seq<nat>, task: nat)
    requires Increasing(tasks) && forall t :: t in tasks ==> t < task
    ensures Increasing(tasks + [task])
  {
    var all := tasks + [task];
    forall i, j | 0 <= i < j < |all|
      ensures all[i] < all[j]
    {
      assert all[i] == tasks[i] && tasks[i] in tasks;
    }
  }

  /** How a body ends, and with it the call that ran it. */
  datatype Outcome<R> = Returned(value: R) | Threw(error: string)

  /** The calls to `run` so far, by where each stands: waiting, resolved and about to start, in flight, or
      settled. `late` are those that had to wait and have started, in the order they did. */
  datatype Calls<R> = Calls(arrivals: nat, waiters: seq<nat>, woken: seq<nat>, running: set<nat>,
                            outcomes: map<nat, Outcome<R>>, late: seq<nat>)

  datatype SemaphoreAction<R> = Run | Begin | End(task: nat, outcome: Outcome<R>)

  function CallsStep<R>(max: nat, c: Calls<R>, action: SemaphoreAction<R>): Calls<R> {
    match action
    case Run =>
      if |c.running| + |c.woken| < max then c.(arrivals := c.arrivals + 1, running := c.running + {c.arrivals})
      else c.(arrivals := c.arrivals + 1, waiters := c.waiters + [c.arrivals])
    case Begin =>
      if c.woken == [] then c
      else c.(woken := c.woken[1..], running := c.running + {c.woken[0]}, late := c.late + [c.woken[0]])
    case End(task, outcome) =>
      if task !in c.running then c
      else
        var left := c.(running := c.running - {task}, outcomes := c.outcomes[task := outcome]);
        if c.waiters == [] then left else left.(waiters := c.waiters[1..], woken := c.woken + [c.waiters[0]])
  }

  function CallsAfter<R>(max: nat, actions: seq<SemaphoreAction<R>>, n: nat): Calls<R>
    requires n <= |actions|
  {
    if n == 0 then Calls(0, [], [], {}, map[], []) else CallsStep(max, CallsAfter(max, actions, n - 1), actions[n - 1])
  }

  /** At most `max` calls hold a permit, nobody waits while one is free, those that waited start in order of
      arrival, and every call stands in exactly one place. */
  ghost predicate CallsSound<R>(max: nat, c: Calls<R>) {
    && |c.running| + |c.woken| <= max
    && (c.waiters != [] ==> |c.running| + |c.woken| == max)
    && Increasing(c.late + c.woken + c.waiters)
    && (forall t :: t in c.late + c.woken + c.waiters ==> t < c.arrivals)
    && (forall t: nat :: t < c.arrivals <==> Placed(c, t))
    && (forall t :: t in c.running || t in c.outcomes ==> t !in c.woken && t !in c.waiters)
    && c.running !! c.outcomes.Keys
  }

  ghost predicate Placed<R>(c: Calls<R>, t: nat) {
    t in c.waiters || t in c.woken || t in c.running || t in c.outcomes
  }

  /** Bounded concurrency: a finishing body hands its permit straight to the next waiter. */
  class Semaphore<R> {
    const max: nat
    var active: int
    var waiters: seq<nat>
    /** Waiters whose promise was resolved and whose body has not started yet, in order of resolution. */
    var woken: seq<nat>
    /** Bodies in flight. */
    var running: set<nat>
    /** Calls to `run` so far; each is numbered in order of arrival. */
    var arrivals: nat
    /** What the calls that are over settled with. */
    var outcomes: map<nat, Outcome<R>>
    /** The calls that found no free permit and whose body has started. */
    ghost var late: seq<nat>

    ghost function Account(): Calls<R>
      reads this
    {
      Calls(arrivals, waiters, woken, running, outcomes, late)
    }

    ghost predicate Valid()
      reads this
    {
      active == |running| + |woken| && CallsSound(max, Account())
    }

    constructor (max: nat)
      ensures Valid() && this.max == max && Account() == CallsAfter(max, [], 0)
    {
      this.max := max;
      active, waiters, woken, running, arrivals, outcomes := 0, [], [], {}, 0, map[];
      late := [];
    }

    /** A call to `run`: take a free permit and start the body at once, or wait. */
    method Enter() returns (task: nat)
      requires Valid()
      modifies this
      ensures Valid() && task == old(arrivals) && Account() == CallsStep(max, old(Account()), Run)
    {
      EnterKeepsSound(max, Account());
      assert !Placed(Account(), arrivals);
      task := arrivals;
      arrivals := arrivals + 1;
      if active >= max {
        waiters := waiters + [task];
      } else {
        active := active + 1;
        running := running + {task};
      }
    }

    /** The continuation of the waiter resolved first runs: its body starts. */
    method Start() returns (task: nat)
      requires Valid() && woken != []
      modifies this`woken, this`running, this`late
      ensures Valid() && task == old(woken)[0] && Account() == CallsStep(max, old(Account()), Begin)
    {
      BeginKeepsSound(max, Account());
      task := woken[0];
      woken := woken[1..];
      running := running + {task};
      late := late + [task];
    }

    /** A body ends. Either way its permit goes to the first waiter, or back, and the call settles as its
        body did: with the value, or by rethrowing. */
    method Finish(task: nat, outcome: Outcome<R>)
      requires Valid() && task in running
      modifies this`active, this`waiters, this`woken, this`running, this`outcomes
      ensures Valid() && Account() == CallsStep(max, old(Account()), End(task, outcome))
    {
      EndKeepsSound(max, Account(), task, outcome);
      HandOver(task);
      outcomes := outcomes[task := outcome];
    }

    /** The `finally` block. */
    method HandOver(task: nat)
      requires task in running
      modifies this`active, this`waiters, this`woken, this`running
      ensures running == old(running) - {task}
      ensures old(waiters) == [] ==> waiters == [] && woken == old(woken) && active == old(active) - 1
      ensures old(waiters) != [] ==>
                waiters == old(waiters)[1..] && woken == old(woken) + [old(waiters)[0]] && active == old(active)
    {
      running := running - {task};
      if waiters != [] {
        woken := woken + [waiters[0]];
        waiters := waiters[1..];
      } else {
        active := active - 1;
      }
    }
  }

  lemma EnterKeepsSound<R>(max: nat, c: Calls<R>)
    requires CallsSound(max, c)
    ensures CallsSound(max, CallsStep(max, c, Run))
  {
    var c' := CallsStep(max, c, Run);
    var waited := c.late + c.woken + c.waiters;
    assert !Placed(c, c.arrivals);
    if |c.running| + |c.woken| >= max {
      OneMore(waited, c.arrivals);
      assert c.late + c.woken + (c.waiters + [c.arrivals]) == waited + [c.arrivals];
    }
    forall t: nat | true
      ensures t < c'.arrivals <==> Placed(c', t)
    {
      assert t < c.arrivals <==> Placed(c, t);
    }
  }

  /** The head of the woken waiters stands nowhere else. */
  lemma OncePerWaiter(started: seq<nat>, woken: seq<nat>, waiters: seq<nat>)
    requires Increasing(started + woken + waiters) && woken != []
    ensures woken[0] !in woken[1..] && woken[0] !in waiters
  {
    var all := started + woken + waiters;
    assert all[|started|] == woken[0];
    forall i | 1 <= i < |woken|
      ensures woken[i] != woken[0]
    {
      assert all[|started| + i] == woken[i];
    }
    forall i | 0 <= i < |waiters|
      ensures waiters[i] != woken[0]
    {
      assert all[|started| + |woken| + i] == waiters[i];
    }
  }

  lemma BeginKeepsSound<R>(max: nat, c: Calls<R>)
    requires CallsSound(max, c)
    ensures CallsSound(max, CallsStep(max, c, Begin))
  {
    if c.woken != [] {
      var c' := CallsStep(max, c, Begin);
      OncePerWaiter(c.late, c.woken, c.waiters);
      assert c'.late + c'.woken == c.late + c.woken;
      forall t: nat | true
        ensures t < c'.arrivals <==> Placed(c', t)
      {
        assert t < c.arrivals <==> Placed(c, t);
        assert t in c.woken <==> t == c.woken[0] || t in c.woken[1..];
      }
    }
  }

  lemma EndKeepsSound<R>(max: nat, c: Calls<R>, task: nat, outcome: Outcome<R>)
    requires CallsSound(max, c)
    ensures CallsSound(max, CallsStep(max, c, End(task, outcome)))
  {
    if task in c.running {
      var c' := CallsStep(max, c, End(task, outcome));
      assert c'.woken + c'.waiters == c.woken + c.waiters;
      assert c.late + c.woken + c.waiters == c.late + (c.woken + c.waiters);
      assert c'.late + c'.woken + c'.waiters == c'.late + (c'.woken + c'.waiters);
      forall t: nat | true
        ensures t < c'.arrivals <==> Placed(c', t)
      {
        assert t < c.arrivals <==> Placed(c, t);
        assert t in c.woken + c.waiters <==> t in c'.woken + c'.waiters;
      }
    }
  }

  /** Whatever the interleaving of calls, wake-ups and ends, with bodies that return or throw. */
  lemma {:induction false} CallsStaySound<R>(max: nat, actions: seq<SemaphoreAction<R>>, n: nat)
    requires n <= |actions|
    ensures CallsSound(max, CallsAfter(max, actions, n))
  {
    if n > 0 {
      var c := CallsAfter(max, actions, n - 1);
      CallsStaySound(max, actions, n - 1);
      match actions[n - 1] {
        case Run => EnterKeepsSound(max, c);
        case Begin => BeginKeepsSound(max, c);
        case End(task, outcome) => EndKeepsSound(max, c, task, outcome);
      }
    }
  }

  /** How many calls arrived in the first `n` actions. */
  function RunsIn<R>(actions: seq<SemaphoreAction<R>>, n: nat): nat
    requires n <= |actions|
  {
    if n == 0 then 0 else RunsIn(actions, n - 1) + if actions[n - 1].Run? then 1 else 0
  }

  lemma {:induction false} EveryRunArrives<R>(max: nat, actions: seq<SemaphoreAction<R>>, n: nat)
    requires n <= |actions|
    ensures CallsAfter(max, actions, n).arrivals == RunsIn(actions, n)
  {
    if n > 0 {
      EveryRunArrives(max, actions, n - 1);
    }
  }

  /** What each action brings about: a call that finds a free permit runs at once and one that finds none waits; a
      waiter whose promise was resolved runs; a body that ends settles its call as it ended, and its permit goes to
      the waiter that has waited longest. */
  lemma EachActionTakesEffect<R>(max: nat, actions: seq<SemaphoreAction<R>>, n: nat)
    requires n < |actions|
    ensures var was, now := CallsAfter(max, actions, n), CallsAfter(max, actions, n + 1);
            match actions[n]
            case Run => if |was.running| + |was.woken| < max then was.arrivals in now.running else was.arrivals in now.waiters
            case Begin => was.woken != [] ==> was.woken[0] in now.running && was.woken[0] in now.late
            case End(task, outcome) =>
              task in was.running ==>
                && task !in now.running && task in now.outcomes && now.outcomes[task] == outcome
                && (was.waiters != [] ==> was.waiters[0] in now.woken)
  {
    var was := CallsAfter(max, actions, n);
    if actions[n].Run? {
      assert (was.waiters + [was.arrivals])[|was.waiters|] == was.arrivals;
    } else if actions[n].Begin? {
      assert was.woken != [] ==> (was.late + [was.woken[0]])[|was.late|] == was.woken[0];
    } else {
      assert was.waiters != [] ==> (was.woken + [was.waiters[0]])[|was.woken|] == was.waiters[0];
    }
  }

  lemma OutcomeStaysOnce<R>(max: nat, c: Calls<R>, action: SemaphoreAction<R>, task: nat)
    requires CallsSound(max, c) && task in c.outcomes
    ensures task in CallsStep(max, c, action).outcomes && CallsStep(max, c, action).outcomes[task] == c.outcomes[task]
  {
  }

  /** A call settles once: what it settled with stays. */
  lemma {:induction false} OutcomesStay<R>(max: nat, actions: seq<SemaphoreAction<R>>, m: nat, n: nat, task: nat)
    requires m <= n <= |actions| && task in CallsAfter(max, actions, m).outcomes
    ensures task in CallsAfter(max, actions, n).outcomes
    ensures CallsAfter(max, actions, n).outcomes[task] == CallsAfter(max, actions, m).outcomes[task]
  {
    if m < n {
      OutcomesStay(max, actions, m, n - 1, task);
      CallsStaySound(max, actions, n - 1);
      OutcomeStaysOnce(max, CallsAfter(max, actions, n - 1), actions[n - 1], task);
    }
  }

  /** The calls that had to wait start in order of arrival: one that has started arrived before every one
      that has not, and those stand in that order too. */
  lemma WaitersStartInOrder<R>(max: nat, actions: seq<SemaphoreAction<R>>, n: nat)
    requires n <= |actions|
    ensures var c := CallsAfter(max, actions, n);
            && Increasing(c.late) && Increasing(c.woken + c.waiters)
            && forall s, t :: s in c.late && t in c.woken + c.waiters ==> s < t
  {
    CallsStaySound(max, actions, n);
    var c := CallsAfter(max, actions, n);
    assert c.late + c.woken + c.waiters == c.late + (c.woken + c.waiters);
    InTwo(c.late, c.woken + c.waiters);
  }

  lemma InTwo(a: seq<nat>, b: seq<nat>)
    requires Increasing(a + b)
    ensures Increasing(a) && Increasing(b) && forall s, t :: s in a && t in b ==> s < t
  {
    var all := a + b;
    forall i, j | 0 <= i < j < |a|
      ensures a[i] < a[j]
    {
      assert all[i] < all[j];
    }
    forall i, j | 0 <= i < j < |b|
      ensures b[i] < b[j]
    {
      assert all[|a| + i] < all[|a| + j];
    }
    forall s, t | s in a && t in b
      ensures s < t
    {
      var i :| 0 <= i < |a| && a[i] == s;
      var j :| 0 <= j < |b| && b[j] == t;
      assert all[i] < all[|a| + j];
    }
  }

  /** No permit and no call is lost: when nobody runs and nobody is about to, nobody waits, and every call
      that ever arrived has settled, whether its body returned or threw. */
  lemma NoPermitLost<R>(max: nat, actions: seq<SemaphoreAction<R>>, n: nat)
    requires n <= |actions| && max > 0
    ensures var c := CallsAfter(max, actions, n);
            c.running == {} && c.woken == [] ==> c.waiters == [] && forall t: nat :: t < c.arrivals <==> t in c.outcomes
  {
    CallsStaySound(max, actions, n);
    var c := CallsAfter(max, actions, n);
    if c.running == {} && c.woken == [] {
      forall t: nat | true
        ensures t < c.arrivals <==> t in c.outcomes
      {
        assert t < c.arrivals <==> Placed(c, t);
      }
    }
  }

  /** Any interleaving of calls, wake-ups and ends follows the account of the calls. */
  method ExerciseSemaphore<R>(max: nat, actions: seq<SemaphoreAction<R>>) returns (s: Semaphore<R>)
    ensures s.Valid() && s.max == max && s.Account() == CallsAfter(max, actions, |actions|)
    ensures s.active == |s.running| + |s.woken| <= max
  {
    s := new Semaphore(max);
    for i := 0 to |actions|
      invariant s.Valid() && fresh(s) && s.max == max && s.Account() == CallsAfter(max, actions, i)
    {
      match actions[i] {
        case Run =>
          var _ := s.Enter();
        case Begin =>
          if s.woken != [] {
            var _ := s.Start();
          }
        case End(task, outcome) =>
          if task in s.running {
            s.Finish(task, outcome);
          }
      }
    }
  }

  /** Any interleaving of a link producer and its consumer follows the log: what comes out is what was
      emitted, in order, up to the cursor. */
  method ExerciseQueue<T(==)>(actions: seq<QueueAction<T>>) returns (q: LinkQueue<T>, out: seq<T>)
    ensures q.Valid() && q.Log() == LinkLogAfter(actions, |actions|)
    ensures out == q.delivered == q.Log().emitted[..q.Log().delivered] && q.emitted == out + q.queue
    ensures q.consumer.Parked? ==> q.queue == [] && !q.done
    ensures q.consumer.Finished? ==> q.done && |out| >= q.settledAt
  {
    q := new LinkQueue<T>();
    out := [];
    for i := 0 to |actions|
      invariant q.Valid() && fresh(q) && q.delivered == out && q.Log() == LinkLogAfter(actions, i)
    {
      match actions[i] {
        case EmitLink(link) =>
          q.Emit(link);
        case SettleTools =>
          if !q.done {
            q.Settle();
          }
        case Resume =>
          if q.consumer.Idle? || q.consumer.Woken? {
            var item := q.Step();
            if item.Some? {
              out := out + [item.value];
            }
          }
      }
    }
  }

  /** The same for a stream being opened. */
  method ExerciseOpening<T(==)>(actions: seq<OpeningAction<T>>) returns (o: StreamOpening<T>, out: seq<T>)
    ensures o.Valid() && o.Log() == OpeningLogAfter(actions, |actions|)
    ensures |out| == o.Log().delivered && out == o.delivered == o.emitted[..|out|]
  {
    o := new StreamOpening<T>();
    out := [];
    for i := 0 to |actions|
      invariant o.Valid() && fresh(o) && o.delivered == out && o.Log() == OpeningLogAfter(actions, i)
    {
      match actions[i] {
        case Notice(notice) =>
          o.OnPaced(notice);
        case SettleCall(fails) =>
          if !o.done {
            o.Settle(fails);
          }
        case ResumeOpening =>
          if o.consumer.Idle? || o.consumer.Woken? {
            var item := o.Step();
            if item.Some? {
              out := out + [item.value];
            }
          }
      }
    }
    assert o.emitted == o.delivered + (o.batch + o.pending);
  }
}
