/** The broker: one run at a time per conversation, driven apart from any request, buffered and fanned
    out to whoever is attached. Runs, sessions and streams live in one object whose fields the steps
    reassign; a run's index stands for the identity of its session object. */
module RunBroker {
  import opened Wrappers
  import opened Sequences
  import opened AgentEvents
  import opened RunStream
  import opened DetachedRun
  import opened ExecutionCapacity

  function Key(workspaceId: string, conversationId: string): string {
    workspaceId + "::" + conversationId
  }

  function RunKey(r: Run): string {
    Key(r.workspaceId, r.conversationId)
  }

  /** A client's stream: the run it was attached to, if there was one, whether it has gone away, and
      whether it came late: to a run already over whose buffer held no `done`. */
  datatype Attachment = Attachment(run: Option<nat>, state: StreamState, left: bool, late: bool)

  predicate IsLate(r: Run) {
    !r.Running() && Done !in r.buffer
  }

  /** How many of the first `n` runs are of workspace `w` and in progress. */
  function RunningIn(runs: seq<Run>, n: nat, w: string): nat
    requires n <= |runs|
  {
    if n == 0 then 0
    else RunningIn(runs, n - 1, w) + if runs[n - 1].Running() && runs[n - 1].workspaceId == w then 1 else 0
  }

  lemma {:induction false} SameRunningIn(a: seq<Run>, b: seq<Run>, n: nat, w: string)
    requires n <= |a| && n <= |b| && forall i :: 0 <= i < n ==> a[i] == b[i]
    ensures RunningIn(a, n, w) == RunningIn(b, n, w)
  {
    if n > 0 {
      SameRunningIn(a, b, n - 1, w);
    }
  }

  lemma {:induction false} RunningInUpdate(runs: seq<Run>, i: nat, r: Run, n: nat, w: string)
    requires i < n <= |runs| && r.workspaceId == runs[i].workspaceId
    ensures RunningIn(runs[i := r], n, w) - (if r.Running() && r.workspaceId == w then 1 else 0)
         == RunningIn(runs, n, w) - (if runs[i].Running() && runs[i].workspaceId == w then 1 else 0)
  {
    if i < n - 1 {
      RunningInUpdate(runs, i, r, n - 1, w);
    } else {
      SameRunningIn(runs, runs[i := r], i, w);
    }
  }

  /** Start and end notes of each workspace differ by its runs in progress: what keeps containers warm. */
  ghost predicate Balanced(runs: seq<Run>, runStarts: multiset<string>, runEnds: multiset<string>) {
    forall w: string :: runStarts[w] == runEnds[w] + RunningIn(runs, |runs|, w)
  }

  lemma UpdateKeepsBalance(runs: seq<Run>, runStarts: multiset<string>, runEnds: multiset<string>, i: nat, r: Run)
    requires Balanced(runs, runStarts, runEnds) && i < |runs| && r.workspaceId == runs[i].workspaceId
    ensures r.Running() == runs[i].Running() ==> Balanced(runs[i := r], runStarts, runEnds)
    ensures runs[i].Running() && !r.Running() ==> Balanced(runs[i := r], runStarts, runEnds + multiset{r.workspaceId})
  {
    forall w: string {
      RunningInUpdate(runs, i, r, |runs|, w);
    }
  }

  lemma StartKeepsBalance(runs: seq<Run>, runStarts: multiset<string>, runEnds: multiset<string>, r: Run)
    requires Balanced(runs, runStarts, runEnds) && r.Running()
    ensures Balanced(runs + [r], runStarts + multiset{r.workspaceId}, runEnds)
  {
    forall w: string {
      SameRunningIn(runs, runs + [r], |runs|, w);
    }
  }

  /** The running sessions a client could find in the registry. */
  ghost function RunningKeys(sessions: map<string, nat>, runs: seq<Run>): set<string> {
    set k | k in sessions && sessions[k] < |runs| && runs[sessions[k]].Running()
  }

  /** Each run is registered under its own conversation for as long as it runs. */
  ghost predicate Registered(sessions: map<string, nat>, runs: seq<Run>) {
    && (forall k :: k in sessions ==> sessions[k] < |runs| && RunKey(runs[sessions[k]]) == k)
    && (forall i :: 0 <= i < |runs| && runs[i].Running() ==>
          RunKey(runs[i]) in sessions && sessions[RunKey(runs[i])] == i)
  }

  /** Running sessions and held slots are the same number, counted from opposite ends. */
  lemma {:induction false} RunningKeysAreHeldSlots(sessions: map<string, nat>, runs: seq<Run>, released: seq<bool>)
    requires |released| == |runs|
    requires forall i :: 0 <= i < |runs| ==> (released[i] <==> !runs[i].Running())
    requires forall i :: 0 <= i < |runs| && runs[i].Running() ==>
               RunKey(runs[i]) in sessions && sessions[RunKey(runs[i])] == i
    requires forall k :: k in sessions && sessions[k] < |runs| ==> RunKey(runs[sessions[k]]) == k
    ensures |RunningKeys(sessions, runs)| == Held(released)
  {
    if runs == [] {
      assert RunningKeys(sessions, runs) == {};
    } else {
      RunningKeysAreHeldSlots(sessions, runs[..|runs| - 1], released[..|runs| - 1]);
      RunningKeysButLast(sessions, runs);
    }
  }

  lemma RunningKeysButLast(sessions: map<string, nat>, runs: seq<Run>)
    requires runs != []
    requires var last := runs[|runs| - 1];
             last.Running() ==> RunKey(last) in sessions && sessions[RunKey(last)] == |runs| - 1
    requires forall k :: k in sessions && sessions[k] < |runs| ==> RunKey(runs[sessions[k]]) == k
    ensures var last, before := runs[|runs| - 1], RunningKeys(sessions, runs[..|runs| - 1]);
            && RunningKeys(sessions, runs) == before + (if last.Running() then {RunKey(last)} else {})
            && (last.Running() ==> RunKey(last) !in before)
  {
  }

  /** No run in progress loses its registration: it is neither replaced nor evicted. */
  ghost predicate RunningStay(before: map<string, nat>, runs: seq<Run>, after: map<string, nat>) {
    forall k :: k in before && before[k] < |runs| && runs[before[k]].Running() ==> k in after && after[k] == before[k]
  }

  /** Sessions, slots and container notes agree on which runs are in progress. */
  ghost predicate Accounts(sessions: map<string, nat>, runs: seq<Run>, released: seq<bool>,
                           runStarts: multiset<string>, runEnds: multiset<string>)
  {
    && |released| == |runs|
    && (forall i :: 0 <= i < |runs| ==> (released[i] <==> !runs[i].Running()))
    && Registered(sessions, runs)
    && Balanced(runs, runStarts, runEnds)
  }

  lemma RegisteredUpdate(sessions: map<string, nat>, runs: seq<Run>, i: nat, r: Run)
    requires Registered(sessions, runs) && i < |runs| && RunKey(r) == RunKey(runs[i])
    requires r.Running() ==> runs[i].Running()
    ensures Registered(sessions, runs[i := r])
  {
  }

  /** A step that neither ends a run nor moves it to another conversation leaves the accounts alone. */
  lemma StepKeepsAccounts(sessions: map<string, nat>, runs: seq<Run>, released: seq<bool>,
                          runStarts: multiset<string>, runEnds: multiset<string>, i: nat, r: Run)
    requires Accounts(sessions, runs, released, runStarts, runEnds) && i < |runs|
    requires RunKey(r) == RunKey(runs[i]) && r.workspaceId == runs[i].workspaceId
    requires r.Running() == runs[i].Running()
    ensures Accounts(sessions, runs[i := r], released, runStarts, runEnds)
  {
    RegisteredUpdate(sessions, runs, i, r);
    UpdateKeepsBalance(runs, runStarts, runEnds, i, r);
  }

  /** Ending a run gives back its slot and balances its start note. */
  lemma EndKeepsAccounts(sessions: map<string, nat>, runs: seq<Run>, released: seq<bool>,
                         runStarts: multiset<string>, runEnds: multiset<string>, i: nat, r: Run)
    requires Accounts(sessions, runs, released, runStarts, runEnds) && i < |runs|
    requires RunKey(r) == RunKey(runs[i]) && r.workspaceId == runs[i].workspaceId
    requires runs[i].Running() && !r.Running()
    ensures Accounts(sessions, runs[i := r], released[i := true], runStarts, runEnds + multiset{r.workspaceId})
  {
    RegisteredUpdate(sessions, runs, i, r);
    UpdateKeepsBalance(runs, runStarts, runEnds, i, r);
  }

  lemma StartKeepsAccounts(sessions: map<string, nat>, runs: seq<Run>, released: seq<bool>,
                           runStarts: multiset<string>, runEnds: multiset<string>, r: Run)
    requires Accounts(sessions, runs, released, runStarts, runEnds) && r.Running()
    requires RunKey(r) !in RunningKeys(sessions, runs)
    ensures Accounts(sessions[RunKey(r) := |runs|], runs + [r], released + [false],
                     runStarts + multiset{r.workspaceId}, runEnds)
  {
    StartKeepsBalance(runs, runStarts, runEnds, r);
  }

  // ---------------------------------------------------------------------------------------------
  // Streams.

  /** What a stream shows of the run it is attached to. While open it has seen exactly the buffer; one
      that neither came late nor went away closes with `done` and was sent the projection of the buffer,
      whenever it attached. Only a producer-driven run can be come late to. */
  ghost predicate Shows(a: Attachment, id: nat, r: Run) {
    && (id in r.subscribers <==> !a.state.closed)
    && (a.left ==> a.state.closed)
    && (a.late ==> r.external && a.state.closed)
    && (!a.state.closed ==> a.state == Opened(a.state.conversationId).AfterAll(r.buffer))
    && (!a.late && !a.left ==>
          && a.state.frames == Projection(a.state.conversationId, r.buffer)
          && (a.state.closed <==> Done in r.buffer))
  }

  /** Run `i`'s subscribers are streams attached to it. */
  ghost predicate OwnStreams(streams: seq<Attachment>, i: nat, subscribers: set<nat>) {
    forall s: nat :: s in subscribers ==> s < |streams| && streams[s].run == Some(i)
  }

  ghost predicate Wired(streams: seq<Attachment>, runs: seq<Run>) {
    && (forall i: nat {:trigger OwnStreams(streams, i, runs[i].subscribers)} :: i < |runs| ==> OwnStreams(streams, i, runs[i].subscribers))
    && (forall s: nat :: s < |streams| && streams[s].run.Some? ==>
          streams[s].run.value < |runs| && Shows(streams[s], s, runs[streams[s].run.value]))
  }

  /** Every stream in `subscribers` has handled `e`. */
  function Delivered(streams: seq<Attachment>, subscribers: set<nat>, e: AgentEvent): (r: seq<Attachment>)
    ensures |r| == |streams|
  {
    seq(|streams|, s requires 0 <= s < |streams| =>
      if s in subscribers then streams[s].(state := streams[s].state.After(e)) else streams[s])
  }

  /** Who a stream is for, apart from what it has been sent. */
  datatype Client = Client(run: Option<nat>, conversationId: string, left: bool, late: bool)

  function ClientOf(a: Attachment): Client {
    Client(a.run, a.state.conversationId, a.left, a.late)
  }

  function Clients(streams: seq<Attachment>): (r: seq<Client>)
    ensures |r| == |streams|
  {
    seq(|streams|, s requires 0 <= s < |streams| => ClientOf(streams[s]))
  }

  lemma DeliveryKeepsClients(streams: seq<Attachment>, subscribers: set<nat>, e: AgentEvent)
    ensures Clients(Delivered(streams, subscribers, e)) == Clients(streams)
  {
    forall s | 0 <= s < |streams|
      ensures Clients(Delivered(streams, subscribers, e))[s] == Clients(streams)[s]
    {
      AfterKeeps(streams[s].state, e);
    }
  }

  lemma ClientsChange(streams: seq<Attachment>, s: nat, a: Attachment)
    ensures Clients(streams + [a]) == Clients(streams) + [ClientOf(a)]
    ensures s < |streams| ==> Clients(streams[s := a]) == Clients(streams)[s := ClientOf(a)]
  {
  }

  lemma ShowsAfterEvent(a: Attachment, id: nat, r: Run, r': Run, e: AgentEvent)
    requires Shows(a, id, r) && (r.external || Done !in r.buffer)
    requires r'.external == r.external && r'.buffer == r.buffer + [e]
    requires r'.subscribers == if e.Done? then {} else r.subscribers
    ensures Shows(if id in r.subscribers then a.(state := a.state.After(e)) else a, id, r')
  {
    AfterAllStep(Opened(a.state.conversationId), r.buffer, e);
    if Done in r.buffer {
      ClosedByDone(a.state.conversationId, r.buffer);
    }
  }

  lemma PublishKeepsWired(streams: seq<Attachment>, runs: seq<Run>, i: nat, r: Run, e: AgentEvent)
    requires Wired(streams, runs) && i < |runs| && (runs[i].external || Done !in runs[i].buffer)
    requires r.external == runs[i].external && r.buffer == runs[i].buffer + [e]
    requires r.subscribers == if e.Done? then {} else runs[i].subscribers
    ensures Wired(Delivered(streams, runs[i].subscribers, e), runs[i := r])
  {
    var after, changed := Delivered(streams, runs[i].subscribers, e), runs[i := r];
    forall j: nat | j < |runs|
      ensures OwnStreams(after, j, changed[j].subscribers)
    {
      assert OwnStreams(streams, j, runs[j].subscribers);
    }
    forall s: nat | s < |after| && after[s].run.Some?
      ensures after[s].run.value < |runs| && Shows(after[s], s, runs[i := r][after[s].run.value])
    {
      assert OwnStreams(streams, i, runs[i].subscribers);
      if streams[s].run.value == i {
        ShowsAfterEvent(streams[s], s, runs[i], r, e);
      }
    }
  }

  lemma QuietStepKeepsWired(streams: seq<Attachment>, runs: seq<Run>, i: nat, r: Run)
    requires Wired(streams, runs) && i < |runs|
    requires r.external == runs[i].external && r.buffer == runs[i].buffer && r.subscribers == runs[i].subscribers
    ensures Wired(streams, runs[i := r])
  {}

  lemma StartKeepsWired(streams: seq<Attachment>, runs: seq<Run>, r: Run)
    requires Wired(streams, runs) && r.subscribers == {}
    ensures Wired(streams, runs + [r])
  {}

  /** A stream that has just replayed the buffer of `r`, and is subscribed unless that closed it. */
  lemma CaughtUpShows(a: Attachment, id: nat, r: Run, conversationId: string)
    requires !a.left && a.late == IsLate(r) && id !in r.subscribers
    requires r.external || r.Running() || Done in r.buffer
    requires a.state == Opened(conversationId).Attached(Some(r.buffer), !r.Running())
    ensures Shows(a, id, r.(subscribers := if a.state.closed then r.subscribers else r.subscribers + {id}))
    ensures Done in r.buffer ==> a.state.closed
  {
    KeepsConversation(Opened(conversationId), r.buffer);
    if Done in r.buffer {
      ClosedByDone(conversationId, r.buffer);
    } else {
      StreamBeforeDone(conversationId, r.buffer);
    }
  }

  /** A run after stream `s` has replayed its buffer: subscribed to, unless that closed the stream. */
  function Watched(r: Run, s: nat, state: StreamState): Run {
    r.(subscribers := if state.closed then r.subscribers else r.subscribers + {s})
  }

  lemma SubscribeKeepsWired(streams: seq<Attachment>, runs: seq<Run>, i: nat, a: Attachment, conversationId: string)
    requires Wired(streams, runs) && i < |runs| && a.run == Some(i) && !a.left && a.late == IsLate(runs[i])
    requires SaneRun(runs[i])
    requires a.state == Opened(conversationId).Attached(Some(runs[i].buffer), !runs[i].Running())
    ensures var s := |streams|;
            var r := Watched(runs[i], s, a.state);
            Wired(streams + [a], runs[i := r]) && SaneRun(r)
  {
    var s := |streams|;
    assert OwnStreams(streams, i, runs[i].subscribers);
    CaughtUpShows(a, s, runs[i], conversationId);
    var r := runs[i].(subscribers := if a.state.closed then runs[i].subscribers else runs[i].subscribers + {s});
    var after := streams + [a];
    var changed := runs[i := r];
    forall j: nat | j < |runs|
      ensures OwnStreams(after, j, changed[j].subscribers)
    {
      assert OwnStreams(streams, j, runs[j].subscribers);
    }
    forall t: nat | t < |after| && after[t].run.Some?
      ensures after[t].run.value < |runs| && Shows(after[t], t, changed[after[t].run.value])
    {
      if t < s {
        assert Shows(streams[t], t, runs[streams[t].run.value]);
      }
    }
  }

  lemma DetachedStreamKeepsWired(streams: seq<Attachment>, runs: seq<Run>, a: Attachment)
    requires Wired(streams, runs) && a.run.None?
    ensures Wired(streams + [a], runs)
  {
    forall i: nat | i < |runs|
      ensures OwnStreams(streams + [a], i, runs[i].subscribers)
    {
      assert OwnStreams(streams, i, runs[i].subscribers);
    }
  }

  lemma UnattachedKeepsWired(streams: seq<Attachment>, runs: seq<Run>, s: nat, a: Attachment)
    requires Wired(streams, runs) && s < |streams| && streams[s].run.None? && a.run.None?
    ensures Wired(streams[s := a], runs)
  {
    forall i: nat | i < |runs|
      ensures OwnStreams(streams[s := a], i, runs[i].subscribers)
    {
      assert OwnStreams(streams, i, runs[i].subscribers);
    }
  }

  function Unwatched(r: Run, s: nat): Run {
    r.(subscribers := r.subscribers - {s})
  }

  /** A stream whose client went away. Closing a closed stream does nothing. */
  function Left(a: Attachment): Attachment {
    if a.run.Some? && a.state.closed then a else a.(state := a.state.(closed := true), left := true)
  }

  lemma LeaveKeepsWired(streams: seq<Attachment>, runs: seq<Run>, s: nat)
    requires Wired(streams, runs) && AllSane(runs)
    requires s < |streams| && streams[s].run.Some? && !streams[s].state.closed
    ensures var i := streams[s].run.value;
            && i < |runs|
            && Wired(streams[s := Left(streams[s])], runs[i := Unwatched(runs[i], s)])
            && SaneRun(Unwatched(runs[i], s))
  {
    var i := streams[s].run.value;
    var after, changed := streams[s := Left(streams[s])], runs[i := Unwatched(runs[i], s)];
    assert SaneRun(runs[i]);
    forall j: nat | j < |runs|
      ensures OwnStreams(after, j, changed[j].subscribers)
    {
      assert OwnStreams(streams, j, runs[j].subscribers);
    }
    forall t: nat | t < |after| && after[t].run.Some?
      ensures after[t].run.value < |runs| && Shows(after[t], t, runs[i := Unwatched(runs[i], s)][after[t].run.value])
    {
      assert Shows(streams[t], t, runs[streams[t].run.value]);
    }
  }

  /** The registry without run `i`. */
  function Unlisted(sessions: map<string, nat>, i: nat): map<string, nat> {
    map k | k in sessions && sessions[k] != i :: sessions[k]
  }

  lemma EvictKeepsAccounts(sessions: map<string, nat>, runs: seq<Run>, released: seq<bool>,
                           runStarts: multiset<string>, runEnds: multiset<string>, i: nat)
    requires Accounts(sessions, runs, released, runStarts, runEnds) && i < |runs| && !runs[i].Running()
    ensures Accounts(Unlisted(sessions, i), runs, released, runStarts, runEnds)
  {}

  /** A registered run is found under its own key only, and one that is over is not missed. */
  lemma UnlistedIsKeyed(sessions: map<string, nat>, runs: seq<Run>, i: nat)
    requires Registered(sessions, runs) && i < |runs| && !runs[i].Running()
    ensures var k := RunKey(runs[i]);
            (if k in sessions && sessions[k] == i then sessions - {k} else sessions) == Unlisted(sessions, i)
    ensures RunningStay(sessions, runs, Unlisted(sessions, i))
  {}

  /** A producer-driven run has no detached loop: it is over exactly when its producer said so. */
  ghost predicate SaneExternal(r: Run) {
    && r.external && !r.phase.Cleanup? && (r.phase.Ended? <==> r.recorded.Some?)
    && (r.Running() ==> r.outcome == OutcomeOf(r.buffer))
  }

  /** A producer-driven run as its producer's finish leaves it: the producer's own verdict, else what its
      events amount to; no success without a `done`. */
  function FinishedExternal(r: Run, status: Option<Outcome>): Run {
    var said := if status.Some? then status.value else r.outcome;
    Closed(r, if Done !in r.buffer && said == Success then Incomplete else said)
  }

  /** The producer's own verdict is what is recorded, unless it claims a success without a `done`. */
  lemma ProducerDecides(r: Run, status: Outcome)
    ensures FinishedExternal(r, Some(status)).recorded == Some(status) <==> !(status == Success && Done !in r.buffer)
    ensures status == Success && Done !in r.buffer ==> FinishedExternal(r, Some(status)).recorded == Some(Incomplete)
  {
  }

  /** A producer-driven run after one more event. */
  function Produced(r: Run, e: AgentEvent): Run {
    r.(outcome := OutcomeFrom(r.outcome, e), buffer := r.buffer + [e],
       subscribers := if e.Done? then {} else r.subscribers)
  }

  lemma ProducedIsSane(r: Run, e: AgentEvent)
    requires SaneExternal(r)
    ensures SaneExternal(Produced(r, e))
  {
    assert (r.buffer + [e])[..|r.buffer|] == r.buffer;
  }

  /** A producer that finishes without a verdict has its run recorded as a success exactly when it said
      `done` and published no error and no limit. */
  lemma ExternalSuccessIff(r: Run)
    requires SaneExternal(r) && r.Running()
    ensures FinishedExternal(r, None).recorded == Some(Success) <==> Done in r.buffer && Clean(r.buffer)
  {
    OutcomeSuccessIffClean(r.buffer);
  }

  ghost predicate SaneRun(r: Run) {
    if r.external then SaneExternal(r) else Sane(r)
  }

  ghost predicate AllSane(runs: seq<Run>) {
    forall i {:trigger SaneRun(runs[i])} :: 0 <= i < |runs| ==> SaneRun(runs[i])
  }

  predicate SameRun(a: Run, b: Run) {
    a.workspaceId == b.workspaceId && a.conversationId == b.conversationId && a.external == b.external && a.phase == b.phase
  }

  lemma PublishKeepsRun(r: Run, e: AgentEvent)
    ensures SameRun(Publish(r, e), r)
  {
  }

  lemma YieldKeepsIdentity(r: Run, e: AgentEvent)
    requires r.Running()
    ensures var after := OnYield(r, e);
            && after.workspaceId == r.workspaceId && after.conversationId == r.conversationId
            && after.external == r.external && after.Running()
  {
    if e.Done? && r.timerFired {
      PublishKeepsRun(r.(outcome := TimedOut), TimeoutError(r));
      PublishKeepsRun(Publish(r.(outcome := TimedOut), TimeoutError(r)), Done);
    } else if e.Done? && r.aborted {
      PublishKeepsRun(r.(outcome := Stopped), STOP_ERROR);
      PublishKeepsRun(Publish(r.(outcome := Stopped), STOP_ERROR), Done);
    } else {
      PublishKeepsRun(r, e);
    }
  }

  lemma YieldKeepsAccountsAndSanity(sessions: map<string, nat>, runs: seq<Run>, released: seq<bool>,
                                    runStarts: multiset<string>, runEnds: multiset<string>, i: nat, e: AgentEvent)
    requires Accounts(sessions, runs, released, runStarts, runEnds) && AllSane(runs)
    requires i < |runs| && !runs[i].external && runs[i].phase.Streaming?
    ensures Accounts(sessions, runs[i := OnYield(runs[i], e)], released, runStarts, runEnds)
    ensures AllSane(runs[i := OnYield(runs[i], e)])
  {
    assert SaneRun(runs[i]);
    YieldKeepsSane(runs[i], e);
    YieldKeepsIdentity(runs[i], e);
    StepKeepsAllSane(runs, i, OnYield(runs[i], e));
    StepKeepsAccounts(sessions, runs, released, runStarts, runEnds, i, OnYield(runs[i], e));
  }

  lemma StartKeepsAllSane(runs: seq<Run>, r: Run)
    requires AllSane(runs) && r == NewRun(r.workspaceId, r.conversationId, r.userInput, r.timeoutMessage, r.external)
    ensures AllSane(runs + [r])
  {}

  lemma StepKeepsAllSane(runs: seq<Run>, i: nat, r: Run)
    requires AllSane(runs) && i < |runs| && SaneRun(r)
    ensures AllSane(runs[i := r])
  {}

  class Broker {
    var sessions: map<string, nat>
    var runs: seq<Run>
    var streams: seq<Attachment>
    const capacity: Capacity
    /** Container notes sent so far, per workspace. */
    var runStarts: multiset<string>
    var runEnds: multiset<string>

    ghost predicate Books()
      reads this, capacity
    {
      capacity.Valid() && Accounts(sessions, runs, capacity.released, runStarts, runEnds)
    }

    ghost predicate Valid()
      reads this, capacity
    {
      Books() && Wired(streams, runs) && AllSane(runs)
    }

    ghost function Account(): Ledger
      reads this
    {
      Ledger(sessions, runs, runStarts, runEnds, Clients(streams))
    }

    constructor (limit: int)
      requires limit >= 1
      ensures Valid() && fresh(capacity) && capacity.limit == limit
      ensures runs == [] && streams == [] && sessions == map[] && runStarts == runEnds == multiset{}
    {
      sessions, runs, streams := map[], [], [];
      runStarts, runEnds := multiset{}, multiset{};
      capacity := new Capacity(limit);
    }

    // -------------------------------------------------------------------------------------------
    // Starting.

    /** Shared by `startRun` and `startExternalRun`: refuse a second run for the conversation, take a
        slot or report that none is free, register the session, note the start. */
    method Start(workspaceId: string, conversationId: string, userInput: string, timeoutMessage: string, external: bool)
      returns (alreadyRunning: bool, capacityReached: bool)
      requires Valid()
      modifies this, capacity
      ensures Valid() && streams == old(streams) && runEnds == old(runEnds)
      ensures alreadyRunning <==> Key(workspaceId, conversationId) in RunningKeys(old(sessions), old(runs))
      ensures capacityReached <==> !alreadyRunning && |RunningKeys(old(sessions), old(runs))| == capacity.limit
      ensures alreadyRunning || capacityReached ==>
                runs == old(runs) && sessions == old(sessions) && runStarts == old(runStarts)
      ensures !alreadyRunning && !capacityReached ==>
                && runs == old(runs) + [NewRun(workspaceId, conversationId, userInput, timeoutMessage, external)]
                && sessions == old(sessions)[Key(workspaceId, conversationId) := |old(runs)|]
                && runStarts == old(runStarts) + multiset{workspaceId}
      ensures !alreadyRunning && !capacityReached ==>
                var r := runs[|old(runs)|];
                && r.workspaceId == workspaceId && r.conversationId == conversationId && r.userInput == userInput
                && r.timeoutMessage == timeoutMessage && r.external == external && r.phase.Streaming? && r.buffer == []
    {
      var k := Key(workspaceId, conversationId);
      if k in sessions && runs[sessions[k]].Running() {
        return true, false;
      }
      RunningKeysAreHeldSlots(sessions, runs, capacity.released);
      var slot := capacity.TryAcquire();
      if slot.None? {
        return false, true;
      }
      Register(NewRun(workspaceId, conversationId, userInput, timeoutMessage, external), old(capacity.released));
      return false, false;
    }

    /** The slot is taken: put the session in the registry and note the start. */
    method Register(run: Run, ghost released: seq<bool>)
      requires capacity.Valid() && capacity.released == released + [false]
      requires Accounts(sessions, runs, released, runStarts, runEnds) && Wired(streams, runs) && AllSane(runs)
      requires RunKey(run) !in RunningKeys(sessions, runs)
      requires run == NewRun(run.workspaceId, run.conversationId, run.userInput, run.timeoutMessage, run.external)
      modifies this`sessions, this`runs, this`runStarts
      ensures Valid()
      ensures runs == old(runs) + [run] && sessions == old(sessions)[RunKey(run) := |old(runs)|]
      ensures runStarts == old(runStarts) + multiset{run.workspaceId}
    {
      StartKeepsAccounts(sessions, runs, released, runStarts, runEnds, run);
      StartKeepsWired(streams, runs, run);
      StartKeepsAllSane(runs, run);
      sessions := sessions[RunKey(run) := |runs|];
      runs := runs + [run];
      runStarts := runStarts + multiset{run.workspaceId};
    }

    // -------------------------------------------------------------------------------------------
    // Publishing.

    /** The fan-out loop of `publish`: hand `e` to every stream subscribed to run `i`, in the subscriber
        set's own order. */
    method FanOut(i: nat, e: AgentEvent)
      requires i < |runs| && OwnStreams(streams, i, runs[i].subscribers)
      modifies this`streams
      ensures streams == Delivered(old(streams), runs[i].subscribers, e)
    {
      var todo := runs[i].subscribers;
      while todo != {}
        invariant todo <= runs[i].subscribers
        invariant streams == Delivered(old(streams), runs[i].subscribers - todo, e)
        decreases todo
      {
        var s :| s in todo;
        todo := todo - {s};
        streams := streams[s := streams[s].(state := streams[s].state.After(e))];
      }
      assert runs[i].subscribers - todo == runs[i].subscribers;
    }

    method PublishEvent(i: nat, e: AgentEvent)
      requires i < |runs| && !runs[i].external && Done !in runs[i].buffer
      requires Wired(streams, runs)
      modifies this`streams, this`runs
      ensures runs == old(runs)[i := Publish(old(runs)[i], e)]
      ensures Wired(streams, runs)
      ensures Clients(streams) == old(Clients(streams))
    {
      PublishKeepsWired(streams, runs, i, Publish(runs[i], e), e);
      DeliveryKeepsClients(streams, runs[i].subscribers, e);
      var r := runs[i];
      FanOut(i, e);
      r := r.(outcome := OutcomeFrom(r.outcome, e), buffer := r.buffer + [e]);
      if e.Error? && r.errorNote.None? {
        r := r.(errorNote := Some(e));
      }
      if e.Done? {
        r := r.(sentDone := true, subscribers := {});
      }
      runs := runs[i := r];
    }

    /** Change a run's own flags without publishing anything. */
    method Mark(i: nat, r: Run)
      requires i < |runs| && Wired(streams, runs)
      requires r.external == runs[i].external && r.buffer == runs[i].buffer && r.subscribers == runs[i].subscribers
      modifies this`runs
      ensures runs == old(runs)[i := r] && Wired(streams, runs)
    {
      QuietStepKeepsWired(streams, runs, i, r);
      runs := runs[i := r];
    }

    /** An error event and then `done`: how every run that says why it stopped says it. */
    method PublishLast(i: nat, error: AgentEvent)
      requires i < |runs| && !runs[i].external && Done !in runs[i].buffer && error.Error?
      requires Wired(streams, runs)
      modifies this`streams, this`runs
      ensures runs == old(runs)[i := Publish(Publish(old(runs)[i], error), Done)]
      ensures Wired(streams, runs)
      ensures Clients(streams) == old(Clients(streams))
    {
      PublishEvent(i, error);
      PublishEvent(i, Done);
    }

    method PublishTimeout(i: nat)
      requires i < |runs| && !runs[i].external && (runs[i].sentDone <==> Done in runs[i].buffer)
      requires Wired(streams, runs)
      modifies this`streams, this`runs
      ensures runs == old(runs)[i := DetachedRun.PublishTimeout(old(runs)[i])]
      ensures Wired(streams, runs)
      ensures Clients(streams) == old(Clients(streams))
    {
      if !runs[i].sentDone {
        Mark(i, runs[i].(outcome := TimedOut));
        PublishLast(i, TimeoutError(runs[i]));
      }
    }

    method PublishUserStop(i: nat)
      requires i < |runs| && !runs[i].external && (runs[i].sentDone <==> Done in runs[i].buffer)
      requires Wired(streams, runs)
      modifies this`streams, this`runs
      ensures runs == old(runs)[i := DetachedRun.PublishUserStop(old(runs)[i])]
      ensures Wired(streams, runs)
      ensures Clients(streams) == old(Clients(streams))
    {
      if !runs[i].sentDone {
        Mark(i, runs[i].(outcome := Stopped));
        PublishLast(i, STOP_ERROR);
      }
    }

    method PublishFailure(i: nat, message: string, outcome: Outcome)
      requires i < |runs| && !runs[i].external && (runs[i].sentDone <==> Done in runs[i].buffer)
      requires Wired(streams, runs)
      modifies this`streams, this`runs
      ensures runs == old(runs)[i := DetachedRun.PublishFailure(old(runs)[i], message, outcome)]
      ensures Wired(streams, runs)
      ensures Clients(streams) == old(Clients(streams))
    {
      if !runs[i].sentDone {
        PublishLast(i, Error(message, None));
        // The caller's status, not the one the error event folds into.
        Mark(i, runs[i].(outcome := outcome));
      }
    }

    // -------------------------------------------------------------------------------------------
    // The detached loop.

    method RunnerYields(i: nat, e: AgentEvent)
      requires Valid() && i < |runs| && !runs[i].external && runs[i].phase.Streaming?
      modifies this`streams, this`runs
      ensures Valid()
      ensures runs == old(runs)[i := OnYield(old(runs)[i], e)]
      ensures Clients(streams) == old(Clients(streams))
    {
      YieldKeepsAccountsAndSanity(sessions, runs, capacity.released, runStarts, runEnds, i, e);
      assert SaneRun(old(runs)[i]);
      LoopBody(i, e);
    }

    /** The body of the loop over the generator's events. */
    method LoopBody(i: nat, e: AgentEvent)
      requires Wired(streams, runs) && i < |runs| && !runs[i].external
      requires Done !in runs[i].buffer && !runs[i].sentDone
      modifies this`streams, this`runs
      ensures Wired(streams, runs)
      ensures runs == old(runs)[i := OnYield(old(runs)[i], e)]
      ensures Clients(streams) == old(Clients(streams))
    {
      if runs[i].timerFired && e.Error? {
        return;
      }
      if runs[i].timerFired && e.Done? {
        PublishTimeout(i);
        Mark(i, runs[i].(phase := Cleanup));
        return;
      }
      if runs[i].aborted && e.Error? {
        return;
      }
      if runs[i].aborted && e.Done? {
        PublishUserStop(i);
        Mark(i, runs[i].(phase := Cleanup));
        return;
      }
      PublishEvent(i, e);
      if e.Done? {
        Mark(i, runs[i].(phase := Cleanup));
      }
    }

    /** Leave the registry's running set: the slot goes back, the end is noted, eviction is scheduled. */
    method EndRun(i: nat, outcome: Outcome)
      requires Books() && Wired(streams, runs) && i < |runs| && runs[i].Running()
      modifies this`runs, this`runEnds, capacity
      ensures Books() && Wired(streams, runs)
      ensures runs == old(runs)[i := Closed(old(runs)[i], outcome)]
      ensures runEnds == old(runEnds) + multiset{old(runs)[i].workspaceId}
      ensures capacity.released == old(capacity.released)[i := true]
    {
      var r := Closed(runs[i], outcome);
      EndKeepsAccounts(sessions, runs, capacity.released, runStarts, runEnds, i, r);
      Mark(i, r);
      capacity.Release(i);
      runEnds := runEnds + multiset{r.workspaceId};
    }

    /** The first half of `finally`: a run that has not said `done` says why it is over. */
    method SayDone(i: nat)
      requires Books() && Wired(streams, runs) && i < |runs| && !runs[i].external
      requires runs[i].sentDone <==> Done in runs[i].buffer
      modifies this`streams, this`runs
      ensures Books() && Wired(streams, runs) && |runs| == |old(runs)|
      ensures runs == old(runs)[i := runs[i]]
      ensures Closed(runs[i], runs[i].outcome) == Finally(old(runs)[i])
      ensures runs[i].phase == old(runs)[i].phase && RunKey(runs[i]) == RunKey(old(runs)[i])
      ensures runs[i].workspaceId == old(runs)[i].workspaceId
      ensures Clients(streams) == old(Clients(streams))
    {
      if runs[i].timerFired && !runs[i].sentDone {
        PublishTimeout(i);
      } else if runs[i].aborted && !runs[i].sentDone {
        PublishUserStop(i);
      } else if !runs[i].sentDone {
        PublishFailure(i, SILENT_MESSAGE, Incomplete);
      }
      StepKeepsAccounts(sessions, old(runs), capacity.released, runStarts, runEnds, i, runs[i]);
    }

    /** The `finally` block. */
    method RunFinally(i: nat)
      requires Books() && Wired(streams, runs)
      requires i < |runs| && !runs[i].external && runs[i].Running()
      requires runs[i].sentDone <==> Done in runs[i].buffer
      modifies this`streams, this`runs, this`runEnds, capacity
      ensures Books() && Wired(streams, runs)
      ensures runs == old(runs)[i := Finally(old(runs)[i])]
      ensures runEnds == old(runEnds) + multiset{old(runs)[i].workspaceId}
      ensures capacity.released == old(capacity.released)[i := true]
      ensures Clients(streams) == old(Clients(streams))
    {
      SayDone(i);
      UpdateTwice(old(runs), i, runs[i], Closed(runs[i], runs[i].outcome));
      EndRun(i, runs[i].outcome);
    }

    /** The generator ends without throwing, or its cleanup after `done` does. */
    method RunnerReturns(i: nat)
      requires Valid() && i < |runs| && !runs[i].external && runs[i].Running()
      modifies this`streams, this`runs, this`runEnds, capacity
      ensures Valid()
      ensures runs == old(runs)[i := Finally(old(runs)[i])]
      ensures runEnds == old(runEnds) + multiset{old(runs)[i].workspaceId}
      ensures Clients(streams) == old(Clients(streams))
    {
      assert SaneRun(runs[i]);
      FinallyFacts(runs[i]);
      StepKeepsAllSane(runs, i, Finally(runs[i]));
      RunFinally(i);
    }

    /** The `catch` block: a timer or a stop explains the throw later; anything else is published now. */
    method Catch(i: nat, message: string)
      requires Wired(streams, runs) && i < |runs| && !runs[i].external
      requires runs[i].sentDone <==> Done in runs[i].buffer
      modifies this`streams, this`runs
      ensures Wired(streams, runs) && |runs| == |old(runs)|
      ensures runs == old(runs)[i := runs[i]] && Finally(runs[i]) == OnThrow(old(runs)[i], message)
      ensures runs[i].phase == old(runs)[i].phase && RunKey(runs[i]) == RunKey(old(runs)[i])
      ensures runs[i].workspaceId == old(runs)[i].workspaceId && !runs[i].external
      ensures runs[i].sentDone <==> Done in runs[i].buffer
      ensures Clients(streams) == old(Clients(streams))
    {
      if runs[i].timerFired {
        Mark(i, runs[i].(outcome := TimedOut));
      } else if runs[i].aborted {
        Mark(i, runs[i].(outcome := Stopped));
      } else {
        PublishFailure(i, message, Failed);
      }
    }

    /** The generator throws, or its cleanup after `done` does. */
    method RunnerThrows(i: nat, message: string)
      requires Valid() && i < |runs| && !runs[i].external && runs[i].Running()
      modifies this`streams, this`runs, this`runEnds, capacity
      ensures Valid()
      ensures runs == old(runs)[i := OnThrow(old(runs)[i], message)]
      ensures runEnds == old(runEnds) + multiset{old(runs)[i].workspaceId}
      ensures Clients(streams) == old(Clients(streams))
    {
      assert SaneRun(runs[i]);
      ThrowFacts(runs[i], message);
      StepKeepsAllSane(runs, i, OnThrow(runs[i], message));
      CatchThenFinally(i, message);
    }

    method CatchThenFinally(i: nat, message: string)
      requires Books() && Wired(streams, runs)
      requires i < |runs| && !runs[i].external && runs[i].Running()
      requires runs[i].sentDone <==> Done in runs[i].buffer
      modifies this`streams, this`runs, this`runEnds, capacity
      ensures Books() && Wired(streams, runs)
      ensures runs == old(runs)[i := OnThrow(old(runs)[i], message)]
      ensures runEnds == old(runEnds) + multiset{old(runs)[i].workspaceId}
      ensures Clients(streams) == old(Clients(streams))
    {
      Catch(i, message);
      StepKeepsAccounts(sessions, old(runs), capacity.released, runStarts, runEnds, i, runs[i]);
      UpdateTwice(old(runs), i, runs[i], Finally(runs[i]));
      RunFinally(i);
    }

    method TimerFires(i: nat)
      requires Valid() && i < |runs| && !runs[i].external
      modifies this`runs
      ensures Valid()
      ensures runs == old(runs)[i := OnTimer(old(runs)[i])]
      ensures old(runs)[i].timerDisposed || runs[i].timerFired
    {
      assert SaneRun(runs[i]);
      StepKeepsAllSane(runs, i, OnTimer(runs[i]));
      StepKeepsAccounts(sessions, runs, capacity.released, runStarts, runEnds, i, OnTimer(runs[i]));
      if !runs[i].timerDisposed {
        Mark(i, runs[i].(timerFired := true));
      }
    }

    /** The user's stop reaches the conversation's session only while it runs. */
    method Stop(workspaceId: string, conversationId: string) returns (stopped: bool)
      requires Valid()
      modifies this`runs
      ensures Valid()
      ensures stopped <==> Key(workspaceId, conversationId) in RunningKeys(sessions, old(runs))
      ensures runs == if stopped
                      then var i := sessions[Key(workspaceId, conversationId)]; old(runs)[i := OnStop(old(runs)[i])]
                      else old(runs)
      ensures stopped ==> runs[sessions[Key(workspaceId, conversationId)]].aborted
    {
      var k := Key(workspaceId, conversationId);
      if k !in sessions || !runs[sessions[k]].Running() {
        return false;
      }
      assert SaneRun(runs[sessions[k]]);
      StepKeepsAllSane(runs, sessions[k], OnStop(runs[sessions[k]]));
      StepKeepsAccounts(sessions, runs, capacity.released, runStarts, runEnds, sessions[k], OnStop(runs[sessions[k]]));
      Mark(sessions[k], runs[sessions[k]].(aborted := true));
      return true;
    }

    // -------------------------------------------------------------------------------------------
    // Producer-driven runs.

    method ExternalPublish(i: nat, e: AgentEvent)
      requires Valid() && i < |runs| && runs[i].external
      modifies this`streams, this`runs
      ensures Valid()
      ensures runs == old(runs)[i := Produced(old(runs)[i], e)] && runs[i].buffer == old(runs)[i].buffer + [e]
      ensures streams == Delivered(old(streams), old(runs)[i].subscribers, e)
    {
      var r := Produced(runs[i], e);
      assert SaneRun(runs[i]);
      ProducedIsSane(runs[i], e);
      PublishKeepsWired(streams, runs, i, r, e);
      StepKeepsAccounts(sessions, runs, capacity.released, runStarts, runEnds, i, r);
      StepKeepsAllSane(runs, i, r);
      FanOut(i, e);
      runs := runs[i := r];
    }

    /** Finishing twice counts once; a run that never said `done` is not recorded as a success. */
    method ExternalFinish(i: nat, status: Option<Outcome>)
      requires Valid() && i < |runs| && runs[i].external
      modifies this`runs, this`runEnds, capacity
      ensures Valid()
      ensures !old(runs)[i].Running() ==> runs == old(runs) && runEnds == old(runEnds)
      ensures old(runs)[i].Running() ==> runs == old(runs)[i := FinishedExternal(old(runs)[i], status)]
                                         && runEnds == old(runEnds) + multiset{old(runs)[i].workspaceId}
    {
      if !runs[i].Running() {
        return;
      }
      var outcome := if status.Some? then status.value else runs[i].outcome;
      if Done !in runs[i].buffer && outcome == Success {
        outcome := Incomplete;
      }
      assert SaneRun(runs[i]);
      StepKeepsAllSane(runs, i, FinishedExternal(runs[i], status));
      EndRun(i, outcome);
    }

    // -------------------------------------------------------------------------------------------
    // Clients.

    /** Change who is attached to run `i`. */
    method Rewire(i: nat, r: Run, after: seq<Attachment>)
      requires Valid() && i < |runs| && r == runs[i].(subscribers := r.subscribers)
      requires Wired(after, runs[i := r]) && SaneRun(r)
      modifies this`streams, this`runs
      ensures Valid() && streams == after && runs == old(runs)[i := r]
    {
      StepKeepsAccounts(sessions, runs, capacity.released, runStarts, runEnds, i, r);
      StepKeepsAllSane(runs, i, r);
      streams := after;
      runs := runs[i := r];
    }

    /** Attach a client's stream: snapshot, registration and replay in one step. */
    method Subscribe(workspaceId: string, conversationId: string) returns (s: nat)
      requires Valid()
      modifies this`streams, this`runs
      ensures Valid() && s == |old(streams)|
      ensures var k := Key(workspaceId, conversationId);
              if k in sessions
              then var r := old(runs)[sessions[k]];
                   var state := Opened(conversationId).Attached(Some(r.buffer), !r.Running());
                   && streams == old(streams) + [Attachment(Some(sessions[k]), state, false, IsLate(r))]
                   && runs == old(runs)[sessions[k] := Watched(r, s, state)]
              else && runs == old(runs)
                   && streams == old(streams) + [Attachment(None, Opened(conversationId).Attached(None, false), false, false)]
    {
      var k := Key(workspaceId, conversationId);
      s := |streams|;
      if k !in sessions {
        var alone := Attachment(None, Opened(conversationId).Attached(None, false), false, false);
        DetachedStreamKeepsWired(streams, runs, alone);
        streams := streams + [alone];
        return;
      }
      var i := sessions[k];
      var state := Opened(conversationId).Attached(Some(runs[i].buffer), !runs[i].Running());
      var a := Attachment(Some(i), state, false, IsLate(runs[i]));
      assert SaneRun(runs[i]);
      SubscribeKeepsWired(streams, runs, i, a, conversationId);
      var r := Watched(runs[i], s, state);
      Rewire(i, r, streams + [a]);
    }

    /** The client goes away: its stream closes and leaves the subscribers, unless it was closed already. */
    method Leave(s: nat)
      requires Valid() && s < |streams|
      modifies this`streams, this`runs
      ensures Valid() && streams == old(streams)[s := Left(old(streams)[s])]
      ensures var a := old(streams)[s];
              if a.run.Some? && !a.state.closed
              then a.run.value < |old(runs)| && runs == old(runs)[a.run.value := Unwatched(old(runs)[a.run.value], s)]
              else runs == old(runs)
    {
      var a := streams[s];
      if a.run.Some? && a.state.closed {
        return;
      }
      if a.run.None? {
        UnattachedKeepsWired(streams, runs, s, Left(a));
        streams := streams[s := Left(a)];
        return;
      }
      LeaveKeepsWired(streams, runs, s);
      Rewire(a.run.value, Unwatched(runs[a.run.value], s), streams[s := Left(a)]);
    }

    /** The linger timer of run `i`, however late it fires: only that run's own session is evicted. */
    method Evict(i: nat)
      requires Valid() && i < |runs| && runs[i].evictionPending && !runs[i].Running()
      modifies this`sessions, this`runs
      ensures Valid()
      ensures runs == old(runs)[i := old(runs)[i].(evictionPending := false)]
      ensures sessions == Unlisted(old(sessions), i)
      ensures forall k :: k in sessions <==> k in old(sessions) && old(sessions)[k] != i
      ensures forall k :: k in sessions ==> sessions[k] == old(sessions)[k]
      ensures RunningStay(old(sessions), old(runs), sessions)
    {
      assert SaneRun(runs[i]);
      var r := runs[i].(evictionPending := false);
      StepKeepsAccounts(sessions, runs, capacity.released, runStarts, runEnds, i, r);
      UnlistedIsKeyed(sessions, runs, i);
      EvictKeepsAccounts(sessions, runs[i := r], capacity.released, runStarts, runEnds, i);
      StepKeepsAllSane(runs, i, r);
      Mark(i, r);
      var k := RunKey(r);
      if k in sessions && sessions[k] == i {
        sessions := sessions - {k};
      }
    }
  }

  // ---------------------------------------------------------------------------------------------
  // Every execution.

  datatype Action =
    | StartRun(workspaceId: string, conversationId: string, userInput: string, timeoutMessage: string, external: bool)
    | Yield(run: nat, event: AgentEvent)
    | Throw(run: nat, message: string)
    | Return(run: nat)
    | Timer(run: nat)
    | StopConversation(workspaceId: string, conversationId: string)
    | Produce(run: nat, event: AgentEvent)
    | Finish(run: nat, status: Option<Outcome>)
    | Attach(workspaceId: string, conversationId: string)
    | Detach(stream: nat)
    | Linger(run: nat)

  /** The broker as values: its registry, its runs, its notes, and who is or was attached. What each client has
      been sent follows from these, by `AttachTimeDoesNotMatter`. */
  datatype Ledger = Ledger(sessions: map<string, nat>, runs: seq<Run>, runStarts: multiset<string>,
                           runEnds: multiset<string>, clients: seq<Client>)
  {
    ghost predicate Coherent() {
      && (forall k :: k in sessions ==> sessions[k] < |runs|)
      && (forall s :: 0 <= s < |clients| && clients[s].run.Some? ==> clients[s].run.value < |runs|)
    }

    /** Run `i` becomes `r`, still in progress or not as before. */
    function With(i: nat, r: Run): Ledger
      requires i < |runs|
    {
      this.(runs := runs[i := r])
    }

    function Ending(i: nat, r: Run): Ledger
      requires i < |runs|
    {
      this.(runs := runs[i := r], runEnds := runEnds + multiset{runs[i].workspaceId})
    }

    ghost function Starting(limit: int, r: Run): Ledger {
      var running := RunningKeys(sessions, runs);
      if RunKey(r) in running || |running| == limit then this
      else this.(sessions := sessions[RunKey(r) := |runs|], runs := runs + [r],
                 runStarts := runStarts + multiset{r.workspaceId})
    }

    function Joining(workspaceId: string, conversationId: string): Ledger
      requires Key(workspaceId, conversationId) in sessions ==> sessions[Key(workspaceId, conversationId)] < |runs|
    {
      var k := Key(workspaceId, conversationId);
      if k !in sessions then this.(clients := clients + [Client(None, conversationId, false, false)])
      else
        var r := runs[sessions[k]];
        var state := Opened(conversationId).Attached(Some(r.buffer), !r.Running());
        this.(clients := clients + [Client(Some(sessions[k]), conversationId, false, IsLate(r))],
              runs := runs[sessions[k] := Watched(r, |clients|, state)])
    }

    /** A stream that is closed already, by `done` or by coming late, has nobody to lose. */
    function Leaving(s: nat): Ledger
      requires s < |clients| && (clients[s].run.Some? ==> clients[s].run.value < |runs|)
    {
      var c := clients[s];
      if c.run.None? then this.(clients := clients[s := c.(left := true)])
      else if c.left || c.late || Done in runs[c.run.value].buffer then this
      else With(c.run.value, Unwatched(runs[c.run.value], s)).(clients := clients[s := c.(left := true)])
    }

    function Evicting(i: nat): Ledger
      requires i < |runs|
    {
      With(i, runs[i].(evictionPending := false)).(sessions := Unlisted(sessions, i))
    }
  }

  /** One atomic step; an action that the broker's state does not allow is not taken. */
  ghost function Next(l: Ledger, limit: int, a: Action): Ledger
    requires l.Coherent()
  {
    match a
    case StartRun(w, c, input, late, external) => l.Starting(limit, NewRun(w, c, input, late, external))
    case Yield(i, e) =>
      if i < |l.runs| && !l.runs[i].external && l.runs[i].phase.Streaming? then l.With(i, OnYield(l.runs[i], e)) else l
    case Throw(i, message) =>
      if i < |l.runs| && !l.runs[i].external && l.runs[i].Running() then l.Ending(i, OnThrow(l.runs[i], message)) else l
    case Return(i) =>
      if i < |l.runs| && !l.runs[i].external && l.runs[i].Running() then l.Ending(i, Finally(l.runs[i])) else l
    case Timer(i) =>
      if i < |l.runs| && !l.runs[i].external then l.With(i, OnTimer(l.runs[i])) else l
    case StopConversation(w, c) =>
      if Key(w, c) in RunningKeys(l.sessions, l.runs)
      then var i := l.sessions[Key(w, c)]; l.With(i, OnStop(l.runs[i])) else l
    case Produce(i, e) =>
      if i < |l.runs| && l.runs[i].external then l.With(i, Produced(l.runs[i], e)) else l
    case Finish(i, status) =>
      if i < |l.runs| && l.runs[i].external && l.runs[i].Running()
      then l.Ending(i, FinishedExternal(l.runs[i], status)) else l
    case Attach(w, c) => l.Joining(w, c)
    case Detach(s) => if s < |l.clients| then l.Leaving(s) else l
    case Linger(i) =>
      if i < |l.runs| && l.runs[i].evictionPending && !l.runs[i].Running() then l.Evicting(i) else l
  }

  lemma LedgerIsCoherent(b: Broker)
    requires b.Valid()
    ensures b.Account().Coherent()
  {
  }

  /** One atomic step of the broker. */
  method Perform(b: Broker, a: Action)
    requires b.Valid()
    modifies b, b.capacity
    ensures b.Valid() && RunningStay(old(b.sessions), old(b.runs), b.sessions)
    ensures |b.runs| >= |old(b.runs)|
    ensures old(b.Account()).Coherent() && b.Account() == Next(old(b.Account()), b.capacity.limit, a)
  {
    match a {
      case StartRun(_, _, _, _, _) => PerformStart(b, a);
      case StopConversation(_, _) => PerformStop(b, a);
      case Yield(_, _) => PerformEvent(b, a);
      case Produce(_, _) => PerformEvent(b, a);
      case Timer(_) => PerformTimer(b, a);
      case Linger(_) => PerformLinger(b, a);
      case Throw(_, _) => PerformEnd(b, a);
      case Return(_) => PerformEnd(b, a);
      case Finish(_, _) => PerformFinish(b, a);
      case Attach(_, _) => PerformAttach(b, a);
      case Detach(_) => PerformDetach(b, a);
    }
  }

  method PerformStart(b: Broker, a: Action)
    requires b.Valid() && a.StartRun?
    modifies b, b.capacity
    ensures b.Valid() && RunningStay(old(b.sessions), old(b.runs), b.sessions)
    ensures |b.runs| >= |old(b.runs)|
    ensures old(b.Account()).Coherent() && b.Account() == Next(old(b.Account()), b.capacity.limit, a)
  {
    LedgerIsCoherent(b);
    var _, _ := b.Start(a.workspaceId, a.conversationId, a.userInput, a.timeoutMessage, a.external);
  }

  method PerformStop(b: Broker, a: Action)
    requires b.Valid() && a.StopConversation?
    modifies b, b.capacity
    ensures b.Valid() && RunningStay(old(b.sessions), old(b.runs), b.sessions)
    ensures |b.runs| >= |old(b.runs)|
    ensures old(b.Account()).Coherent() && b.Account() == Next(old(b.Account()), b.capacity.limit, a)
  {
    LedgerIsCoherent(b);
    var _ := b.Stop(a.workspaceId, a.conversationId);
  }

  method PerformEvent(b: Broker, a: Action)
    requires b.Valid() && (a.Yield? || a.Produce?)
    modifies b, b.capacity
    ensures b.Valid() && RunningStay(old(b.sessions), old(b.runs), b.sessions)
    ensures |b.runs| >= |old(b.runs)|
    ensures old(b.Account()).Coherent() && b.Account() == Next(old(b.Account()), b.capacity.limit, a)
  {
    LedgerIsCoherent(b);
    match a {
      case Yield(i, e) =>
        if i < |b.runs| && !b.runs[i].external && b.runs[i].phase.Streaming? {
          b.RunnerYields(i, e);
        }
      case Produce(i, e) =>
        if i < |b.runs| && b.runs[i].external {
          DeliveryKeepsClients(b.streams, b.runs[i].subscribers, e);
          b.ExternalPublish(i, e);
        }
    }
  }

  method PerformTimer(b: Broker, a: Action)
    requires b.Valid() && a.Timer?
    modifies b, b.capacity
    ensures b.Valid() && RunningStay(old(b.sessions), old(b.runs), b.sessions)
    ensures |b.runs| >= |old(b.runs)|
    ensures old(b.Account()).Coherent() && b.Account() == Next(old(b.Account()), b.capacity.limit, a)
  {
    LedgerIsCoherent(b);
    if a.run < |b.runs| && !b.runs[a.run].external {
      b.TimerFires(a.run);
    }
  }

  method PerformLinger(b: Broker, a: Action)
    requires b.Valid() && a.Linger?
    modifies b, b.capacity
    ensures b.Valid() && RunningStay(old(b.sessions), old(b.runs), b.sessions)
    ensures |b.runs| >= |old(b.runs)|
    ensures old(b.Account()).Coherent() && b.Account() == Next(old(b.Account()), b.capacity.limit, a)
  {
    LedgerIsCoherent(b);
    if a.run < |b.runs| && b.runs[a.run].evictionPending && !b.runs[a.run].Running() {
      b.Evict(a.run);
    }
  }

  method PerformEnd(b: Broker, a: Action)
    requires b.Valid() && (a.Throw? || a.Return?)
    modifies b, b.capacity
    ensures b.Valid() && RunningStay(old(b.sessions), old(b.runs), b.sessions)
    ensures |b.runs| >= |old(b.runs)|
    ensures old(b.Account()).Coherent() && b.Account() == Next(old(b.Account()), b.capacity.limit, a)
  {
    LedgerIsCoherent(b);
    match a {
      case Throw(i, message) =>
        if i < |b.runs| && !b.runs[i].external && b.runs[i].Running() {
          b.RunnerThrows(i, message);
        }
      case Return(i) =>
        if i < |b.runs| && !b.runs[i].external && b.runs[i].Running() {
          b.RunnerReturns(i);
        }
    }
  }

  method PerformFinish(b: Broker, a: Action)
    requires b.Valid() && a.Finish?
    modifies b, b.capacity
    ensures b.Valid() && RunningStay(old(b.sessions), old(b.runs), b.sessions)
    ensures |b.runs| >= |old(b.runs)|
    ensures old(b.Account()).Coherent() && b.Account() == Next(old(b.Account()), b.capacity.limit, a)
  {
    LedgerIsCoherent(b);
    if a.run < |b.runs| && b.runs[a.run].external {
      b.ExternalFinish(a.run, a.status);
    }
  }

  /** A stream that has replayed a buffer is still for the conversation it was opened for. */
  lemma JoinsAs(b: Broker, workspaceId: string, conversationId: string)
    requires b.Valid()
    ensures var k := Key(workspaceId, conversationId);
            && Opened(conversationId).Attached(None, false).conversationId == conversationId
            && (k in b.sessions ==>
                  var r := b.runs[b.sessions[k]];
                  Opened(conversationId).Attached(Some(r.buffer), !r.Running()).conversationId == conversationId)
  {
    var k := Key(workspaceId, conversationId);
    if k in b.sessions {
      KeepsConversation(Opened(conversationId), b.runs[b.sessions[k]].buffer);
    }
  }

  method PerformAttach(b: Broker, a: Action)
    requires b.Valid() && a.Attach?
    modifies b, b.capacity
    ensures b.Valid() && RunningStay(old(b.sessions), old(b.runs), b.sessions)
    ensures |b.runs| >= |old(b.runs)|
    ensures old(b.Account()).Coherent() && b.Account() == Next(old(b.Account()), b.capacity.limit, a)
  {
    LedgerIsCoherent(b);
    ghost var streams := b.streams;
    JoinsAs(b, a.workspaceId, a.conversationId);
    var s := b.Subscribe(a.workspaceId, a.conversationId);
    ClientsChange(streams, s, b.streams[s]);
  }

  method PerformDetach(b: Broker, a: Action)
    requires b.Valid() && a.Detach?
    modifies b, b.capacity
    ensures b.Valid() && RunningStay(old(b.sessions), old(b.runs), b.sessions)
    ensures |b.runs| >= |old(b.runs)|
    ensures old(b.Account()).Coherent() && b.Account() == Next(old(b.Account()), b.capacity.limit, a)
  {
    LedgerIsCoherent(b);
    var s := a.stream;
    if s < |b.streams| {
      LeavesAs(b.Account(), b.streams, s);
      b.Leave(s);
    }
  }

  /** Whether a stream is closed already can be told from who it is for and what its run has said. */
  lemma LeavesAs(l: Ledger, streams: seq<Attachment>, s: nat)
    requires l.Coherent() && Wired(streams, l.runs) && l.clients == Clients(streams) && s < |streams|
    ensures var a := streams[s];
            l.Leaving(s) == if a.run.Some? && !a.state.closed
                            then l.(runs := l.runs[a.run.value := Unwatched(l.runs[a.run.value], s)],
                                    clients := Clients(streams[s := Left(a)]))
                            else l.(clients := Clients(streams[s := Left(a)]))
  {
    var a := streams[s];
    ClientsChange(streams, s, Left(a));
    if a.run.Some? {
      assert Shows(a, s, l.runs[a.run.value]);
      if a.state.closed {
        assert streams[s := a] == streams;
      }
    }
  }

  lemma NextIsCoherent(l: Ledger, limit: int, a: Action)
    requires l.Coherent()
    ensures Next(l, limit, a).Coherent()
  {
    if a.Attach? {
      var k := Key(a.workspaceId, a.conversationId);
      assert k in l.sessions ==> l.sessions[k] < |l.runs|;
    }
  }

  /** Where the first `n` actions lead from an empty broker. */
  ghost function LedgerAfter(limit: int, actions: seq<Action>, n: nat): (l: Ledger)
    requires n <= |actions|
    ensures l.Coherent()
  {
    if n == 0 then Ledger(map[], [], multiset{}, multiset{}, [])
    else
      NextIsCoherent(LedgerAfter(limit, actions, n - 1), limit, actions[n - 1]);
      Next(LedgerAfter(limit, actions, n - 1), limit, actions[n - 1])
  }

  /** Any interleaving of starts, events, failures, timers, stops, attaches, detaches and evictions, from
      an empty broker, keeps every invariant and leads where the actions lead. */
  method Execute(limit: int, actions: seq<Action>) returns (b: Broker)
    requires limit >= 1
    ensures b.Valid() && b.capacity.limit == limit && b.Account() == LedgerAfter(limit, actions, |actions|)
  {
    b := new Broker(limit);
    for i := 0 to |actions|
      invariant b.Valid() && fresh(b) && fresh(b.capacity) && b.capacity.limit == limit
      invariant b.Account() == LedgerAfter(limit, actions, i)
    {
      Perform(b, actions[i]);
    }
  }

  /** A run apart from who listens to it and whether its session is still to be evicted. */
  function Bare(r: Run): Run {
    r.(subscribers := {}, evictionPending := false)
  }

  predicate SameOrigin(a: Run, b: Run) {
    && a.workspaceId == b.workspaceId && a.conversationId == b.conversationId && a.userInput == b.userInput
    && a.timeoutMessage == b.timeoutMessage && a.external == b.external
  }

  lemma PublishBare(r: Run, e: AgentEvent)
    ensures Bare(Publish(r, e)) == Bare(Publish(Bare(r), e)) && SameOrigin(Publish(r, e), r)
  {
  }

  lemma PublishTwiceBare(r: Run, error: AgentEvent)
    ensures Bare(Publish(Publish(r, error), Done)) == Bare(Publish(Publish(Bare(r), error), Done))
    ensures SameOrigin(Publish(Publish(r, error), Done), r)
  {
  }

  lemma TimeoutBare(r: Run)
    ensures Bare(DetachedRun.PublishTimeout(r)) == Bare(DetachedRun.PublishTimeout(Bare(r)))
    ensures SameOrigin(DetachedRun.PublishTimeout(r), r)
  {
    PublishTwiceBare(r.(outcome := TimedOut), TimeoutError(r));
  }

  lemma UserStopBare(r: Run)
    ensures Bare(DetachedRun.PublishUserStop(r)) == Bare(DetachedRun.PublishUserStop(Bare(r)))
    ensures SameOrigin(DetachedRun.PublishUserStop(r), r)
  {
    PublishTwiceBare(r.(outcome := Stopped), STOP_ERROR);
  }

  lemma DoneBare(r: Run)
    ensures Bare(OnYield(r, Done)) == Bare(OnYield(Bare(r), Done)) && SameOrigin(OnYield(r, Done), r)
  {
    if r.timerFired {
      TimeoutBare(r);
    } else if r.aborted {
      UserStopBare(r);
    } else {
      PublishBare(r, Done);
    }
  }

  lemma YieldBare(r: Run, e: AgentEvent)
    ensures Bare(OnYield(r, e)) == Bare(OnYield(Bare(r), e)) && SameOrigin(OnYield(r, e), r)
  {
    if e.Done? {
      DoneBare(r);
    } else if !(e.Error? && (r.timerFired || r.aborted)) {
      PublishBare(r, e);
    }
  }

  lemma FinallyBare(r: Run)
    ensures Bare(Finally(r)) == Bare(Finally(Bare(r))) && SameOrigin(Finally(r), r)
  {
    PublishTwiceBare(r.(outcome := TimedOut), TimeoutError(r));
    PublishTwiceBare(r.(outcome := Stopped), STOP_ERROR);
    PublishTwiceBare(r, Error(SILENT_MESSAGE, None));
  }

  lemma ThrowBare(r: Run, message: string)
    ensures Bare(OnThrow(r, message)) == Bare(OnThrow(Bare(r), message)) && SameOrigin(OnThrow(r, message), r)
  {
    if r.timerFired {
      FinallyBare(r.(outcome := TimedOut));
    } else if r.aborted {
      FinallyBare(r.(outcome := Stopped));
    } else {
      var caught := DetachedRun.PublishFailure(r, message, Failed);
      PublishTwiceBare(r, Error(message, None));
      FinallyBare(caught);
      FinallyBare(DetachedRun.PublishFailure(Bare(r), message, Failed));
    }
  }

  lemma FlagBare(r: Run)
    ensures Bare(OnTimer(r)) == Bare(OnTimer(Bare(r))) && SameOrigin(OnTimer(r), r)
    ensures Bare(OnStop(r)) == Bare(OnStop(Bare(r))) && SameOrigin(OnStop(r), r)
  {
  }

  /** What a run does depends on neither. */
  ghost predicate StepsBare(r: Run, step: Step) {
    Bare(Take(r, step)) == Bare(Take(Bare(r), step)) && SameOrigin(Take(r, step), r)
  }

  lemma ThrowsBare(r: Run, message: string)
    ensures StepsBare(r, Throws(message))
  {
    if r.Running() {
      ThrowBare(r, message);
    }
  }

  lemma ReturnsBare(r: Run)
    ensures StepsBare(r, Returns)
  {
    if r.Running() {
      FinallyBare(r);
    }
  }

  lemma StepBare(r: Run, step: Step)
    ensures StepsBare(r, step)
  {
    match step {
      case Yields(e) => YieldBare(r, e);
      case Throws(message) => ThrowsBare(r, message);
      case Returns => ReturnsBare(r);
      case TimerFires => FlagBare(r);
      case StopPressed => FlagBare(r);
    }
  }

  /** What action `a` means to the detached run `i`, if anything. */
  ghost function StepFor(l: Ledger, a: Action, i: nat): Option<Step>
    requires l.Coherent()
  {
    match a
    case Yield(j, e) => if j == i then Some(Yields(e)) else None
    case Throw(j, message) => if j == i then Some(Throws(message)) else None
    case Return(j) => if j == i then Some(Returns) else None
    case Timer(j) => if j == i then Some(TimerFires) else None
    case StopConversation(w, c) =>
      if Key(w, c) in RunningKeys(l.sessions, l.runs) && l.sessions[Key(w, c)] == i then Some(StopPressed) else None
    case _ => None
  }

  ghost function Stepped(r: Run, step: Option<Step>): Run {
    if step.Some? then Take(r, step.value) else r
  }

  /** Action `a` does to the detached run `i` what it means to it. */
  ghost predicate Meant(l: Ledger, limit: int, a: Action, i: nat)
    requires l.Coherent() && i < |l.runs|
  {
    var next := Next(l, limit, a);
    && i < |next.runs| && Bare(next.runs[i]) == Bare(Stepped(l.runs[i], StepFor(l, a, i)))
    && SameOrigin(next.runs[i], l.runs[i])
  }

  lemma YieldIsMeant(l: Ledger, limit: int, a: Action, i: nat)
    requires l.Coherent() && i < |l.runs| && !l.runs[i].external && (a.Yield? || a.Timer?)
    ensures Meant(l, limit, a, i)
  {
    if a.run == i {
      StepBare(l.runs[i], if a.Yield? then Yields(a.event) else TimerFires);
    }
  }

  lemma EndIsMeant(l: Ledger, limit: int, a: Action, i: nat)
    requires l.Coherent() && i < |l.runs| && !l.runs[i].external && (a.Throw? || a.Return?)
    ensures Meant(l, limit, a, i)
  {
    if a.run == i {
      StepBare(l.runs[i], if a.Throw? then Throws(a.message) else Returns);
    }
  }

  lemma StopIsMeant(l: Ledger, limit: int, a: Action, i: nat)
    requires l.Coherent() && i < |l.runs| && !l.runs[i].external && a.StopConversation?
    ensures Meant(l, limit, a, i)
  {
    FlagBare(l.runs[i]);
  }

  lemma CallerIsMeant(l: Ledger, limit: int, a: Action, i: nat)
    requires l.Coherent() && i < |l.runs| && !l.runs[i].external && (a.StartRun? || a.Produce? || a.Finish?)
    ensures Meant(l, limit, a, i)
  {
  }

  lemma ClientIsMeant(l: Ledger, limit: int, a: Action, i: nat)
    requires l.Coherent() && i < |l.runs| && !l.runs[i].external && (a.Attach? || a.Detach? || a.Linger?)
    ensures Meant(l, limit, a, i)
  {
  }

  lemma ActionSteps(l: Ledger, limit: int, a: Action, i: nat)
    requires l.Coherent() && i < |l.runs| && !l.runs[i].external
    ensures Meant(l, limit, a, i)
  {
    match a {
      case Yield(_, _) => YieldIsMeant(l, limit, a, i);
      case Timer(_) => YieldIsMeant(l, limit, a, i);
      case Throw(_, _) => EndIsMeant(l, limit, a, i);
      case Return(_) => EndIsMeant(l, limit, a, i);
      case StopConversation(_, _) => StopIsMeant(l, limit, a, i);
      case StartRun(_, _, _, _, _) => CallerIsMeant(l, limit, a, i);
      case Produce(_, _) => CallerIsMeant(l, limit, a, i);
      case Finish(_, _) => CallerIsMeant(l, limit, a, i);
      case _ => ClientIsMeant(l, limit, a, i);
    }
  }

  /** The life of run `i` in the first `n` actions: those meant for it since it was started. */
  ghost function LifeOf(limit: int, actions: seq<Action>, n: nat, i: nat): seq<Step>
    requires n <= |actions|
  {
    if n == 0 || i >= |LedgerAfter(limit, actions, n - 1).runs| then []
    else
      var step := StepFor(LedgerAfter(limit, actions, n - 1), actions[n - 1], i);
      LifeOf(limit, actions, n - 1, i) + if step.Some? then [step.value] else []
  }

  function Newborn(r: Run): Run {
    NewRun(r.workspaceId, r.conversationId, r.userInput, r.timeoutMessage, false)
  }

  lemma JustStarted(l: Ledger, limit: int, a: Action, i: nat)
    requires l.Coherent() && i >= |l.runs| && i < |Next(l, limit, a).runs|
    ensures !Next(l, limit, a).runs[i].external ==> Next(l, limit, a).runs[i] == Newborn(Next(l, limit, a).runs[i])
  {
  }

  lemma LifeGoesOn(start: Run, life: seq<Step>, r: Run, step: Option<Step>)
    requires Bare(r) == Bare(TakeAll(start, life))
    ensures Bare(Stepped(r, step)) == Bare(TakeAll(start, life + if step.Some? then [step.value] else []))
  {
    if step.Some? {
      assert (life + [step.value])[..|life|] == life;
      StepBare(r, step.value);
      StepBare(TakeAll(start, life), step.value);
    } else {
      assert life + [] == life;
    }
  }

  /** In every execution each detached run has lived its own life: what the broker holds of it is what its steps
      alone make of it. */
  lemma {:induction false} RunLivesItsLife(limit: int, actions: seq<Action>, n: nat, i: nat)
    requires n <= |actions| && i < |LedgerAfter(limit, actions, n).runs| && !LedgerAfter(limit, actions, n).runs[i].external
    ensures var r := LedgerAfter(limit, actions, n).runs[i];
            Bare(r) == Bare(TakeAll(Newborn(r), LifeOf(limit, actions, n, i)))
  {
    var before, a := LedgerAfter(limit, actions, n - 1), actions[n - 1];
    if i >= |before.runs| {
      JustStarted(before, limit, a, i);
    } else {
      if before.runs[i].external {
        StaysExternal(before, limit, a, i);
      }
      RunLivesItsLife(limit, actions, n - 1, i);
      ActionSteps(before, limit, a, i);
      LifeGoesOn(Newborn(before.runs[i]), LifeOf(limit, actions, n - 1, i), before.runs[i], StepFor(before, a, i));
    }
  }

  lemma StaysExternal(l: Ledger, limit: int, a: Action, i: nat)
    requires l.Coherent() && i < |l.runs| && l.runs[i].external
    ensures i < |Next(l, limit, a).runs| && Next(l, limit, a).runs[i].external
  {
  }

  /** So a detached run that is over has buffered and recorded what its life amounts to: events up to the timer or
      a stop, one explanation if one is due, `done`, and the verdict. */
  lemma DetachedRunTellsItsLife(limit: int, actions: seq<Action>, n: nat, i: nat, m: nat, q: nat)
    requires n <= |actions| && i < |LedgerAfter(limit, actions, n).runs| && !LedgerAfter(limit, actions, n).runs[i].external
    requires IsStreamEnd(LifeOf(limit, actions, n, i), m) && IsRunEnd(LifeOf(limit, actions, n, i), q)
    ensures var r, life := LedgerAfter(limit, actions, n).runs[i], LifeOf(limit, actions, n, i);
            && m <= q && r.phase.Ended? && r.buffer == Said(life, m, r.timeoutMessage)
            && r.recorded == Some(Verdict(life, m, q))
  {
    RunLivesItsLife(limit, actions, n, i);
    var r := LedgerAfter(limit, actions, n).runs[i];
    WholeLife(Newborn(r), LifeOf(limit, actions, n, i), m, q);
  }

  /** The session of run `i` is gone from the registry, or is still to be evicted. */
  ghost predicate EvictedInTime(l: Ledger, i: nat)
    requires i < |l.runs|
  {
    l.runs[i].Running() || l.runs[i].evictionPending || forall k :: k in l.sessions ==> l.sessions[k] != i
  }

  lemma RunnerKeepsEviction(l: Ledger, limit: int, a: Action, i: nat)
    requires l.Coherent() && i < |l.runs| && EvictedInTime(l, i) && (a.Yield? || a.Throw? || a.Return? || a.Timer? || a.StopConversation?)
    ensures i < |Next(l, limit, a).runs| && EvictedInTime(Next(l, limit, a), i)
  {
  }

  lemma OthersKeepEviction(l: Ledger, limit: int, a: Action, i: nat)
    requires l.Coherent() && i < |l.runs| && EvictedInTime(l, i)
    requires !(a.Yield? || a.Throw? || a.Return? || a.Timer? || a.StopConversation?)
    ensures i < |Next(l, limit, a).runs| && EvictedInTime(Next(l, limit, a), i)
  {
  }

  lemma StartsRunning(l: Ledger, limit: int, a: Action, i: nat)
    requires l.Coherent() && i >= |l.runs| && i < |Next(l, limit, a).runs|
    ensures Next(l, limit, a).runs[i].Running()
  {
  }

  lemma StepKeepsEviction(l: Ledger, limit: int, a: Action, i: nat)
    requires l.Coherent() && i < |Next(l, limit, a).runs| && (i < |l.runs| ==> EvictedInTime(l, i))
    ensures EvictedInTime(Next(l, limit, a), i)
  {
    if i >= |l.runs| {
      StartsRunning(l, limit, a, i);
    } else if a.Yield? || a.Throw? || a.Return? || a.Timer? || a.StopConversation? {
      RunnerKeepsEviction(l, limit, a, i);
    } else {
      OthersKeepEviction(l, limit, a, i);
    }
  }

  ghost predicate AllEvictedInTime(l: Ledger) {
    forall i: nat {:trigger EvictedInTime(l, i)} :: i < |l.runs| ==> EvictedInTime(l, i)
  }

  lemma StepKeepsAllEvicted(l: Ledger, limit: int, a: Action)
    requires l.Coherent() && AllEvictedInTime(l)
    ensures AllEvictedInTime(Next(l, limit, a))
  {
    var next := Next(l, limit, a);
    forall i: nat | i < |next.runs|
      ensures EvictedInTime(next, i)
    {
      StepKeepsEviction(l, limit, a, i);
    }
  }

  /** In every execution the session of each run that is over is evicted, or its eviction is still to come: an
      entry is never left behind for good. */
  lemma {:induction false} NoSessionIsLeftBehind(limit: int, actions: seq<Action>, n: nat)
    requires n <= |actions|
    ensures AllEvictedInTime(LedgerAfter(limit, actions, n))
  {
    if n > 0 {
      NoSessionIsLeftBehind(limit, actions, n - 1);
      StepKeepsAllEvicted(LedgerAfter(limit, actions, n - 1), limit, actions[n - 1]);
    }
  }

  /** In every reachable state the capacity counter is the number of running sessions a client could
      find, within the limit; no two running runs share a conversation; and the start and end notes of a
      workspace differ by exactly its runs in progress. */
  lemma CapacityIsRunningSessions(b: Broker, w: string)
    requires b.Valid()
    ensures b.capacity.active == |RunningKeys(b.sessions, b.runs)| <= b.capacity.limit
    ensures forall i, j :: 0 <= i < j < |b.runs| && b.runs[i].Running() && b.runs[j].Running() ==>
              b.runs[i].workspaceId != b.runs[j].workspaceId || b.runs[i].conversationId != b.runs[j].conversationId
    ensures b.runStarts[w] == b.runEnds[w] + RunningIn(b.runs, |b.runs|, w)
  {
    RunningKeysAreHeldSlots(b.sessions, b.runs, b.capacity.released);
  }

  /** Nobody comes late to a detached run: it is over only once it has said `done`. */
  lemma DetachedIsNeverLate(b: Broker, s: nat)
    requires b.Valid() && s < |b.streams| && b.streams[s].run.Some?
    requires var i := b.streams[s].run.value; i < |b.runs| && !b.runs[i].external
    ensures !b.streams[s].late
  {
    assert Shows(b.streams[s], s, b.runs[b.streams[s].run.value]);
  }

  /** Whenever a client attached to a run, detached or producer-driven, and however the run went: one that
      did not come late and stayed has been sent the projection of the whole buffer, the same frames as any
      other, and is closed exactly if `done` was published. Then a `done` is the last and the only last
      frame, with one `response` just before it exactly when no error was published before `done`. */
  lemma AttachTimeDoesNotMatter(b: Broker, s: nat, t: nat)
    requires b.Valid() && s < |b.streams| && t < |b.streams|
    requires b.streams[s].run.Some? && b.streams[t].run == b.streams[s].run
    requires !b.streams[s].left && !b.streams[t].left && !b.streams[s].late && !b.streams[t].late
    requires b.streams[s].state.conversationId == b.streams[t].state.conversationId
    ensures b.streams[s].run.value < |b.runs|
    ensures b.streams[s].state.frames == b.streams[t].state.frames
    ensures var frames, buffer := b.streams[s].state.frames, b.runs[b.streams[s].run.value].buffer;
            && frames == Projection(b.streams[s].state.conversationId, buffer)
            && (b.streams[s].state.closed <==> Done in buffer)
            && (Done in buffer ==>
                  && frames != []
                  && (forall k :: 0 <= k < |frames| ==> (frames[k].DoneFrame? <==> k == |frames| - 1))
                  && ((exists k :: 0 <= k < |frames| && frames[k].ResponseFrame?) <==> FirstError(UpToDone(buffer)).None?)
                  && (forall k :: 0 <= k < |frames| && frames[k].ResponseFrame? ==>
                        frames[k].content == Answer(UpToDone(buffer))))
  {
    var buffer := b.runs[b.streams[s].run.value].buffer;
    assert Shows(b.streams[s], s, b.runs[b.streams[s].run.value]);
    assert Shows(b.streams[t], t, b.runs[b.streams[t].run.value]);
    if Done in buffer {
      ShapeUpToDone(b.streams[s].state.conversationId, buffer);
    }
  }

  /** A finished detached run is a case of it in which `done` is there, at the end of the buffer. */
  lemma FinishedDetachedRun(b: Broker, s: nat)
    requires b.Valid() && s < |b.streams| && b.streams[s].run.Some? && !b.streams[s].left
    requires var i := b.streams[s].run.value; i < |b.runs| && !b.runs[i].external && !b.runs[i].phase.Streaming?
    ensures !b.streams[s].late && b.streams[s].state.closed
    ensures var buffer := b.runs[b.streams[s].run.value].buffer; EndsWithOnlyDone(buffer) && UpToDone(buffer) == buffer
  {
    DetachedIsNeverLate(b, s);
    assert Shows(b.streams[s], s, b.runs[b.streams[s].run.value]);
    assert SaneRun(b.runs[b.streams[s].run.value]);
    OnlyDoneIsWhole(b.runs[b.streams[s].run.value].buffer);
  }

  /** Coming late makes a difference exactly when `done` is missing: a client that attaches to a run that is
      over is left as one that was there all along, if and only if the run said `done`. */
  lemma ComingLateMattersIff(b: Broker, s: nat)
    requires b.Valid() && s < |b.streams| && b.streams[s].run.Some? && !b.streams[s].left && !b.streams[s].late
    ensures b.streams[s].run.value < |b.runs|
    ensures var buffer := b.runs[b.streams[s].run.value].buffer;
            var after := Opened(b.streams[s].state.conversationId).Attached(Some(buffer), true);
            && b.streams[s].state.frames == after.frames
            && (b.streams[s].state.closed == after.closed <==> Done in buffer)
  {
    assert Shows(b.streams[s], s, b.runs[b.streams[s].run.value]);
  }

  /** The same, of the two ways to replay one buffer. */
  lemma ClosingAtTheEndIsQuietIff(conversationId: string, events: seq<AgentEvent>)
    ensures Opened(conversationId).Attached(Some(events), true) == Opened(conversationId).AfterAll(events) <==> Done in events
  {
    if Done in events {
      ClosedByDone(conversationId, events);
    } else {
      StreamBeforeDone(conversationId, events);
    }
  }

  /** A run that does leave them different: a producer starts, a client attaches, the producer finishes
      without `done`, another client attaches. The first is left open on a run that is over; the second is
      closed. */
  method ProducerForgetsDone() returns (over: bool, firstIsOpen: bool, secondIsClosed: bool)
    ensures over && firstIsOpen && secondIsClosed
  {
    var b := ForgetfulProducer();
    var second := b.Subscribe("w", "c");
    over := !b.runs[0].Running();
    firstIsOpen := !b.streams[0].state.closed;
    secondIsClosed := b.streams[second].state.closed;
  }

  method ForgetfulProducer() returns (b: Broker)
    ensures b.Valid() && fresh(b) && fresh(b.capacity)
    ensures b.sessions == map[Key("w", "c") := 0]
    ensures |b.runs| == 1 && !b.runs[0].Running() && b.runs[0].buffer == []
    ensures |b.streams| == 1 && !b.streams[0].state.closed
  {
    b := new Broker(1);
    var _, _ := b.Start("w", "c", "hi", "late", true);
    var _ := b.Subscribe("w", "c");
    b.ExternalFinish(0, None);
  }

  /** The buffer through its first `done`. */
  function UpToDone(events: seq<AgentEvent>): (r: seq<AgentEvent>)
    requires Done in events
    ensures EndsWithOnlyDone(r) && r <= events
  {
    var n := |events| - 1;
    if Done in events[..n] then UpToDone(events[..n]) else events
  }

  lemma OnlyDoneIsWhole(events: seq<AgentEvent>)
    requires EndsWithOnlyDone(events)
    ensures UpToDone(events) == events
  {
  }

  /** Nothing is sent after `done`. */
  lemma {:induction false} ProjectionUpToDone(conversationId: string, events: seq<AgentEvent>)
    requires Done in events
    ensures Projection(conversationId, events) == Projection(conversationId, UpToDone(events))
  {
    var n := |events| - 1;
    if Done in events[..n] {
      ProjectionUpToDone(conversationId, events[..n]);
      ClosedByDone(conversationId, events[..n]);
      AfterKeeps(Opened(conversationId).AfterAll(events[..n]), events[n]);
    }
  }

  lemma ShapeUpToDone(conversationId: string, events: seq<AgentEvent>)
    requires Done in events
    ensures var frames := Projection(conversationId, events);
            && frames != []
            && (forall k :: 0 <= k < |frames| ==> (frames[k].DoneFrame? <==> k == |frames| - 1))
            && ((exists k :: 0 <= k < |frames| && frames[k].ResponseFrame?) <==> FirstError(UpToDone(events)).None?)
            && (forall k :: 0 <= k < |frames| && frames[k].ResponseFrame? ==> frames[k].content == Answer(UpToDone(events)))
  {
    ProjectionUpToDone(conversationId, events);
    OneDoneFrame(conversationId, UpToDone(events));
    ErrorIffLastError(UpToDone(events));
  }

  lemma {:induction false} KeepsConversation(s: StreamState, events: seq<AgentEvent>)
    ensures s.AfterAll(events).conversationId == s.conversationId
  {
    if events != [] {
      var n := |events| - 1;
      KeepsConversation(s, events[..n]);
      AfterKeeps(s.AfterAll(events[..n]), events[n]);
    }
  }

  lemma AfterKeeps(s: StreamState, e: AgentEvent)
    ensures s.After(e).conversationId == s.conversationId
    ensures s.closed ==> s.After(e).closed && s.After(e).frames == s.frames
  {
  }

  /** `done` closes whatever stream handles it. */
  lemma {:induction false} ClosedByDone(conversationId: string, events: seq<AgentEvent>)
    requires Done in events
    ensures Opened(conversationId).AfterAll(events).closed
  {
    var n := |events| - 1;
    if events[n] != Done {
      assert Done in events[..n];
      ClosedByDone(conversationId, events[..n]);
    }
  }
}
