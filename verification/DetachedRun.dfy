/** The life of one broker-owned run: what its detached loop publishes, whatever its generator does and
    whenever its timer fires or the user stops it. Each function is one uninterrupted step of the
    loop's closure; the broker applies these to the runs it holds. */
module DetachedRun {
  import opened Wrappers
  import opened AgentEvents

  /** The status recorded for the run in the usage ledger. */
  datatype Outcome = Success | LimitHit | TimedOut | Stopped | Failed | Incomplete

  function OutcomeFrom(current: Outcome, e: AgentEvent): Outcome {
    match e
    case LimitReached => LimitHit
    case Error(_, Some(TIMEOUT)) => TimedOut
    case Error(_, Some(CANCELLED)) => Stopped
    case Error(_, _) => Failed
    case _ => current
  }

  /** What the buffer alone says about how the run went: its last error or limit decides. */
  function OutcomeOf(events: seq<AgentEvent>): Outcome {
    if events == [] then Success
    else OutcomeFrom(OutcomeOf(events[..|events| - 1]), events[|events| - 1])
  }

  predicate Clean(events: seq<AgentEvent>) {
    forall e :: e in events ==> !e.Error? && !e.LimitReached?
  }

  lemma {:induction false} OutcomeSuccessIffClean(events: seq<AgentEvent>)
    ensures OutcomeOf(events) == Success <==> Clean(events)
  {
    if events != [] {
      var n := |events| - 1;
      assert forall e :: e in events <==> e in events[..n] || e == events[n];
      OutcomeSuccessIffClean(events[..n]);
    }
  }

  /** An event that says how the run went badly. */
  predicate IsTrouble(e: AgentEvent) {
    e.Error? || e.LimitReached?
  }

  /** The last trouble decides, and how: a limit, a timeout, a stop, or a plain failure. */
  lemma {:induction false} LastTroubleDecides(events: seq<AgentEvent>, k: nat)
    requires k < |events| && IsTrouble(events[k]) && forall j :: k < j < |events| ==> !IsTrouble(events[j])
    ensures OutcomeOf(events) == LimitHit <==> events[k].LimitReached?
    ensures OutcomeOf(events) == TimedOut <==> events[k].Error? && events[k].code == Some(TIMEOUT)
    ensures OutcomeOf(events) == Stopped <==> events[k].Error? && events[k].code == Some(CANCELLED)
    ensures OutcomeOf(events) == Failed <==>
            events[k].Error? && (events[k].code.None? || events[k].code.value !in {TIMEOUT, CANCELLED})
  {
    var n := |events| - 1;
    if k < n {
      LastTroubleDecides(events[..n], k);
    }
  }

  /** Where the run stands: its generator is being pulled; `done` is out and the generator's cleanup is
      awaited; or it is over. A producer-driven run has no cleanup. */
  datatype Phase = Streaming | Cleanup | Ended

  datatype Run = Run(
    workspaceId: string,
    conversationId: string,
    userInput: string,
    timeoutMessage: string,
    external: bool,
    phase: Phase,
    buffer: seq<AgentEvent>,
    subscribers: set<nat>,
    aborted: bool,
    timerFired: bool,
    timerDisposed: bool,
    sentDone: bool,
    outcome: Outcome,
    errorNote: Option<AgentEvent>,
    recorded: Option<Outcome>,
    evictionPending: bool)
  {
    /** The session's public status. */
    predicate Running() {
      !phase.Ended?
    }
  }

  function NewRun(workspaceId: string, conversationId: string, userInput: string, timeoutMessage: string,
                  external: bool): Run
  {
    Run(workspaceId, conversationId, userInput, timeoutMessage, external, Streaming, [], {}, false, false,
        external, false, Success, None, None, false)
  }

  const STOPPED_MESSAGE := "Conversation stopped by the user."
  const SILENT_MESSAGE := "This run ended without finishing and without reporting why."

  function TimeoutError(r: Run): AgentEvent {
    Error(r.timeoutMessage, Some(TIMEOUT))
  }

  const STOP_ERROR := Error(STOPPED_MESSAGE, Some(CANCELLED))

  /** Buffer one event, fold it into the status, note the first error. A subscriber's own stream closes
      on `done` and leaves. */
  function Publish(r: Run, e: AgentEvent): Run {
    r.(outcome := OutcomeFrom(r.outcome, e),
       buffer := r.buffer + [e],
       subscribers := if e.Done? then {} else r.subscribers,
       errorNote := if e.Error? && r.errorNote.None? then Some(e) else r.errorNote,
       sentDone := r.sentDone || e.Done?)
  }

  function PublishTimeout(r: Run): Run {
    if r.sentDone then r
    else Publish(Publish(r.(outcome := TimedOut), TimeoutError(r)), Done)
  }

  function PublishUserStop(r: Run): Run {
    if r.sentDone then r
    else Publish(Publish(r.(outcome := Stopped), STOP_ERROR), Done)
  }

  function PublishFailure(r: Run, message: string, outcome: Outcome): Run {
    if r.sentDone then r
    else Publish(Publish(r, Error(message, None)), Done).(outcome := outcome)
  }

  /** One event from the generator. */
  function OnYield(r: Run, e: AgentEvent): Run {
    if r.timerFired && e.Error? then r
    else if r.timerFired && e.Done? then PublishTimeout(r).(phase := Cleanup)
    else if r.aborted && e.Error? then r
    else if r.aborted && e.Done? then PublishUserStop(r).(phase := Cleanup)
    else if e.Done? then Publish(r, e).(phase := Cleanup)
    else Publish(r, e)
  }

  /** Out of the running set, recorded, and waiting for its eviction. */
  function Closed(r: Run, outcome: Outcome): Run {
    r.(timerDisposed := true, phase := Ended, outcome := outcome, recorded := Some(outcome), evictionPending := true)
  }

  /** The `finally` block. */
  function Finally(r: Run): Run {
    var said :=
      if r.timerFired && !r.sentDone then PublishTimeout(r)
      else if r.aborted && !r.sentDone then PublishUserStop(r)
      else if !r.sentDone then PublishFailure(r, SILENT_MESSAGE, Incomplete)
      else r;
    Closed(said, said.outcome)
  }

  /** The `catch` block, then `finally`. */
  function OnThrow(r: Run, message: string): Run {
    var caught :=
      if r.timerFired then r.(outcome := TimedOut)
      else if r.aborted then r.(outcome := Stopped)
      else PublishFailure(r, message, Failed);
    Finally(caught)
  }

  function OnTimer(r: Run): Run {
    if r.timerDisposed then r else r.(timerFired := true)
  }

  function OnStop(r: Run): Run {
    if r.Running() then r.(aborted := true) else r
  }

  // ---------------------------------------------------------------------------------------------
  // Every life of a detached run.

  datatype Step =
    | Yields(e: AgentEvent)
    | Throws(message: string)
    | Returns
    | TimerFires
    | StopPressed

  /** `Throws` and `Returns` end the generator while it is pulled, and its cleanup once `done` is out. */
  function Take(r: Run, step: Step): Run {
    match step
    case Yields(e) => if r.phase.Streaming? then OnYield(r, e) else r
    case Throws(message) => if r.Running() then OnThrow(r, message) else r
    case Returns => if r.Running() then Finally(r) else r
    case TimerFires => OnTimer(r)
    case StopPressed => OnStop(r)
  }

  function TakeAll(r: Run, steps: seq<Step>): Run {
    if steps == [] then r else Take(TakeAll(r, steps[..|steps| - 1]), steps[|steps| - 1])
  }

  /** What holds of a detached run between any two steps. */
  ghost predicate Sane(r: Run) {
    && !r.external
    && (r.phase.Streaming? ==> !r.sentDone && Done !in r.buffer)
    && (!r.phase.Streaming? ==> r.sentDone && EndsWithOnlyDone(r.buffer) && r.subscribers == {})
    && (r.phase.Ended? <==> r.recorded.Some?)
    && (r.phase.Ended? ==> r.timerDisposed)
    && r.errorNote == FirstError(r.buffer)
    && (r.Running() ==> r.outcome == OutcomeOf(r.buffer))
  }

  lemma PublishFacts(r: Run, e: AgentEvent)
    ensures Publish(r, e).buffer[..|r.buffer|] == r.buffer
    ensures r.errorNote == FirstError(r.buffer) ==> Publish(r, e).errorNote == FirstError(Publish(r, e).buffer)
    ensures OutcomeOf(Publish(r, e).buffer) == OutcomeFrom(OutcomeOf(r.buffer), e)
    ensures Done in Publish(r, e).buffer <==> Done in r.buffer || e == Done
  {
    assert (r.buffer + [e])[..|r.buffer|] == r.buffer;
  }

  /** Publishing an error and then `done` finishes a buffer that held no `done`. */
  lemma FinishingFacts(r: Run, error: AgentEvent)
    requires Done !in r.buffer && error.Error? && r.errorNote == FirstError(r.buffer)
    ensures var f := Publish(Publish(r, error), Done);
            && EndsWithOnlyDone(f.buffer) && f.buffer[..|f.buffer| - 1] == r.buffer + [error]
            && f.errorNote == FirstError(f.buffer)
            && OutcomeOf(f.buffer) == OutcomeFrom(Success, error) == f.outcome && !Clean(f.buffer)
  {
    PublishFacts(r, error);
    PublishFacts(Publish(r, error), Done);
    var f := Publish(Publish(r, error), Done);
    assert f.buffer[|r.buffer|] == error;
  }

  lemma YieldKeepsSane(r: Run, e: AgentEvent)
    requires Sane(r) && r.phase.Streaming?
    ensures Sane(OnYield(r, e))
  {
    if e.Done? && r.timerFired {
      FinishingFacts(r.(outcome := TimedOut), TimeoutError(r));
    } else if e.Done? && r.aborted {
      FinishingFacts(r.(outcome := Stopped), STOP_ERROR);
    } else {
      PublishFacts(r, e);
    }
  }

  /** A run that ends before saying `done` says why: its buffer gains one error and then `done`. */
  lemma EndsWhileStreaming(r: Run, error: AgentEvent, outcome: Outcome)
    requires Sane(r) && r.phase.Streaming? && error.Error?
    ensures var f := Publish(Publish(r, error), Done);
            Sane(Closed(f, outcome)) && !Clean(f.buffer)
  {
    FinishingFacts(r, error);
  }

  lemma FinallyWhileStreaming(r: Run)
    requires Sane(r) && r.phase.Streaming?
    ensures Sane(Finally(r)) && Finally(r).recorded != Some(Success) && !Clean(Finally(r).buffer)
  {
    if r.timerFired {
      ExplainedEnd(r, TimeoutError(r), TimedOut);
    } else if r.aborted {
      ExplainedEnd(r, STOP_ERROR, Stopped);
    } else {
      EndsWhileStreaming(r, Error(SILENT_MESSAGE, None), Incomplete);
    }
  }

  lemma ExplainedEnd(r: Run, error: AgentEvent, outcome: Outcome)
    requires Sane(r) && r.phase.Streaming? && error.Error? && OutcomeFrom(outcome, error) == outcome != Success
    ensures var f := Publish(Publish(r.(outcome := outcome), error), Done);
            Sane(Closed(f, f.outcome)) && f.outcome == outcome && !Clean(f.buffer)
  {
    EndsWhileStreaming(r, error, outcome);
    var f := Publish(Publish(r.(outcome := outcome), error), Done);
    assert Closed(f, outcome) == Closed(Publish(Publish(r, error), Done), outcome);
  }

  lemma FinallyFacts(r: Run)
    requires Sane(r) && r.Running()
    ensures Sane(Finally(r))
    ensures Finally(r).recorded == Some(Success) <==> Clean(Finally(r).buffer)
  {
    if r.phase.Cleanup? {
      OutcomeSuccessIffClean(r.buffer);
    } else {
      FinallyWhileStreaming(r);
    }
  }

  lemma ThrowWhileStreaming(r: Run, message: string)
    requires Sane(r) && r.phase.Streaming?
    ensures Sane(OnThrow(r, message))
    ensures OnThrow(r, message).recorded != Some(Success) && !Clean(OnThrow(r, message).buffer)
  {
    if r.timerFired {
      FinallyFacts(r);
      assert OnThrow(r, message) == Finally(r);
    } else if r.aborted {
      FinallyFacts(r);
      assert OnThrow(r, message) == Finally(r);
    } else {
      EndsWhileStreaming(r, Error(message, None), Failed);
    }
  }

  /** The record is honest about the buffer unless the cleanup of a run that had already sent `done`
      threw after the timer or a stop. */
  lemma ThrowFacts(r: Run, message: string)
    requires Sane(r) && r.Running()
    ensures Sane(OnThrow(r, message))
    ensures OnThrow(r, message).recorded == Some(Success) <==>
            Clean(OnThrow(r, message).buffer) && !(r.phase.Cleanup? && (r.timerFired || r.aborted))
  {
    if r.phase.Cleanup? {
      OutcomeSuccessIffClean(r.buffer);
    } else {
      ThrowWhileStreaming(r, message);
    }
  }

  lemma StepKeepsSane(r: Run, step: Step)
    requires Sane(r)
    ensures Sane(Take(r, step))
  {
    match step {
      case Yields(e) => if r.phase.Streaming? { YieldKeepsSane(r, e); }
      case Throws(message) => if r.Running() { ThrowFacts(r, message); }
      case Returns => if r.Running() { FinallyFacts(r); }
      case _ =>
    }
  }

  lemma {:induction false} EveryLifeIsSane(r: Run, steps: seq<Step>)
    requires Sane(r)
    ensures Sane(TakeAll(r, steps))
  {
    if steps != [] {
      EveryLifeIsSane(r, steps[..|steps| - 1]);
      StepKeepsSane(TakeAll(r, steps[..|steps| - 1]), steps[|steps| - 1]);
    }
  }

  /** Whatever its generator does, a finished run's buffer holds exactly one `done`, at its end, and the
      error noted on the conversation is the first one published. */
  lemma FinishedRunSaysDoneOnce(r: Run, steps: seq<Step>)
    requires Sane(r) && TakeAll(r, steps).phase.Ended?
    ensures EndsWithOnlyDone(TakeAll(r, steps).buffer)
    ensures TakeAll(r, steps).errorNote == FirstError(TakeAll(r, steps).buffer)
    ensures TakeAll(r, steps).subscribers == {}
  {
    EveryLifeIsSane(r, steps);
  }

  /** The cleanup of a run that had already sent `done` threw after the timer or a stop. */
  predicate CleanupCutShort(r: Run, steps: seq<Step>) {
    steps != [] &&
    var before := TakeAll(r, steps[..|steps| - 1]);
    CleanupCutShort(r, steps[..|steps| - 1]) ||
    (steps[|steps| - 1].Throws? && before.phase.Cleanup? && (before.timerFired || before.aborted))
  }

  lemma {:induction false} CutShortMeansEnded(r: Run, steps: seq<Step>)
    requires CleanupCutShort(r, steps)
    ensures TakeAll(r, steps).phase.Ended?
  {
    if CleanupCutShort(r, steps[..|steps| - 1]) {
      CutShortMeansEnded(r, steps[..|steps| - 1]);
    }
  }

  /** The recorded status is success exactly when the buffer holds no error and no limit, except in the
      one case where a late timer or stop meets a cleanup that throws. */
  lemma {:induction false} RecordedSuccessIff(r: Run, steps: seq<Step>)
    requires Sane(r) && r.Running()
    requires TakeAll(r, steps).phase.Ended?
    ensures TakeAll(r, steps).recorded == Some(Success) <==>
            Clean(TakeAll(r, steps).buffer) && !CleanupCutShort(r, steps)
  {
    if steps != [] {
      var init, step := steps[..|steps| - 1], steps[|steps| - 1];
      var before := TakeAll(r, init);
      EveryLifeIsSane(r, init);
      if before.phase.Ended? {
        RecordedSuccessIff(r, init);
      } else {
        if CleanupCutShort(r, init) {
          CutShortMeansEnded(r, init);
        }
        assert step.Throws? || step.Returns?;
        if step.Throws? {
          ThrowFacts(before, step.message);
        } else {
          FinallyFacts(before);
        }
      }
    }
  }

  /** The exception happens: the answer is complete, the user presses Stop while the generator cleans
      up, the cleanup throws, and a clean run is recorded as cancelled. */
  lemma CleanRunRecordedAsStopped(r: Run)
    requires r == NewRun("w", "c", "hi", "late", false)
    ensures var steps := [Yields(Token("x")), Yields(Done), StopPressed, Throws("abort")];
            TakeAll(r, steps).recorded == Some(Stopped) && Clean(TakeAll(r, steps).buffer)
  {
    var s1, s2, s3, s4 := Yields(Token("x")), Yields(Done), StopPressed, Throws("abort");
    assert [s1, s2, s3, s4][..3] == [s1, s2, s3];
    assert [s1, s2, s3][..2] == [s1, s2];
    assert [s1, s2][..1] == [s1];
    assert [s1][..0] == [];
    assert TakeAll(r, []) == r;
    assert TakeAll(r, [s1]) == OnYield(r, Token("x"));
  }

  /** Between `before` and `after` no error was published, or `after` is finished and the only new error
      is the workspace's own timeout, right before `done`. */
  ghost predicate OnlyTimeoutExplained(before: Run, after: Run) {
    && before.buffer <= after.buffer
    && after.timerFired && after.timeoutMessage == before.timeoutMessage
    && (after.phase.Streaming? ==>
          forall i :: |before.buffer| <= i < |after.buffer| ==> !after.buffer[i].Error?)
    && (!after.phase.Streaming? ==>
          && |after.buffer| >= |before.buffer| + 2
          && after.buffer[|after.buffer| - 2] == TimeoutError(before)
          && forall i :: |before.buffer| <= i < |after.buffer| - 2 ==> !after.buffer[i].Error?)
  }

  lemma StepExplainsTimeout(before: Run, r: Run, step: Step)
    requires Sane(r) && OnlyTimeoutExplained(before, r)
    ensures OnlyTimeoutExplained(before, Take(r, step))
  {
    if r.phase.Streaming? {
      TimeoutExplains(before, r);
    }
  }

  /** The timer's own error and `done` are all that comes on top. */
  lemma TimeoutExplains(before: Run, r: Run)
    requires Sane(r) && r.phase.Streaming? && OnlyTimeoutExplained(before, r)
    ensures OnlyTimeoutExplained(before, PublishTimeout(r).(phase := Cleanup))
    ensures OnlyTimeoutExplained(before, Finally(r))
  {
    assert PublishTimeout(r).buffer == r.buffer + [TimeoutError(r), Done];
  }

  /** Once the timer has fired, provider errors are hidden: the run publishes one error more, its own
      timeout, and it is the event right before `done`. */
  lemma {:induction false} TimeoutExplainedOnce(r: Run, steps: seq<Step>)
    requires Sane(r) && r.phase.Streaming? && r.timerFired
    ensures OnlyTimeoutExplained(r, TakeAll(r, steps))
  {
    if steps != [] {
      var init := steps[..|steps| - 1];
      TimeoutExplainedOnce(r, init);
      EveryLifeIsSane(r, init);
      StepExplainsTimeout(r, TakeAll(r, init), steps[|steps| - 1]);
    }
  }

  // ---------------------------------------------------------------------------------------------
  // What a life amounts to, told from its steps alone.

  /** The generator ends, or says `done`. */
  predicate EndsStreaming(step: Step) {
    step.Throws? || step.Returns? || step == Yields(Done)
  }

  ghost predicate IsStreamEnd(steps: seq<Step>, m: nat) {
    m < |steps| && EndsStreaming(steps[m]) && StreamsUpTo(steps, m)
  }

  ghost predicate StreamsUpTo(steps: seq<Step>, n: nat)
    requires n <= |steps|
  {
    forall k {:trigger EndsStreaming(steps[k])} :: 0 <= k < n ==> !EndsStreaming(steps[k])
  }

  ghost predicate IsRunEnd(steps: seq<Step>, q: nat) {
    && q < |steps| && (steps[q].Throws? || steps[q].Returns?)
    && forall k :: 0 <= k < q ==> !steps[k].Throws? && !steps[k].Returns?
  }

  predicate Fired(steps: seq<Step>, n: nat)
    requires n <= |steps|
  {
    n > 0 && (Fired(steps, n - 1) || steps[n - 1].TimerFires?)
  }

  predicate Pressed(steps: seq<Step>, n: nat)
    requires n <= |steps|
  {
    n > 0 && (Pressed(steps, n - 1) || steps[n - 1].StopPressed?)
  }

  /** The events of the first `n` steps, without the errors that come after the timer or a stop. */
  function Heard(steps: seq<Step>, n: nat): seq<AgentEvent>
    requires n <= |steps|
  {
    if n == 0 then []
    else
      Heard(steps, n - 1) + HeardIn(steps[n - 1], Fired(steps, n - 1) || Pressed(steps, n - 1))
  }

  function HeardIn(step: Step, silenced: bool): seq<AgentEvent> {
    if step.Yields? && !(step.e.Error? && silenced) then [step.e] else []
  }

  /** What a run says last, once the timer has fired or the user has pressed stop or neither. */
  function LastWords(fired: bool, pressed: bool, step: Step, timeoutMessage: string): seq<AgentEvent> {
    if fired then [Error(timeoutMessage, Some(TIMEOUT)), Done]
    else if pressed then [Error("Conversation stopped by the user.", Some(CANCELLED)), Done]
    else match step
      case Throws(message) => [Error(message, None), Done]
      case Returns => [Error("This run ended without finishing and without reporting why.", None), Done]
      case _ => [Done]
  }

  /** What a run that stops streaming at step `m` has said by then. */
  function Said(steps: seq<Step>, m: nat, timeoutMessage: string): seq<AgentEvent>
    requires m < |steps|
  {
    Heard(steps, m) + LastWords(Fired(steps, m), Pressed(steps, m), steps[m], timeoutMessage)
  }

  /** What is recorded of a run that stops streaming at step `m` and ends at step `q`. */
  function Verdict(steps: seq<Step>, m: nat, q: nat): Outcome
    requires m <= q < |steps|
  {
    if steps[q].Throws? && Fired(steps, q) then TimedOut
    else if steps[q].Throws? && Pressed(steps, q) then Stopped
    else if Fired(steps, m) then TimedOut
    else if Pressed(steps, m) then Stopped
    else if steps[m].Throws? then Failed
    else if steps[m].Returns? then Incomplete
    else OutcomeOf(Heard(steps, m))
  }

  /** A fresh run that is still streaming. */
  function Streamed(start: Run, told: seq<AgentEvent>, fired: bool, pressed: bool): Run {
    start.(buffer := told, outcome := OutcomeOf(told), errorNote := FirstError(told), timerFired := fired, aborted := pressed)
  }

  ghost predicate IsNew(r: Run) {
    r == NewRun(r.workspaceId, r.conversationId, r.userInput, r.timeoutMessage, false)
  }

  lemma Folds(told: seq<AgentEvent>, e: AgentEvent)
    ensures OutcomeOf(told + [e]) == OutcomeFrom(OutcomeOf(told), e)
    ensures FirstError(told + [e]) == if FirstError(told).None? && e.Error? then Some(e) else FirstError(told)
  {
    assert (told + [e])[..|told|] == told;
  }

  /** One step that leaves it streaming. */
  lemma StreamsOn(start: Run, told: seq<AgentEvent>, fired: bool, pressed: bool, step: Step)
    requires IsNew(start) && !EndsStreaming(step)
    ensures Take(Streamed(start, told, fired, pressed), step) ==
            Streamed(start, told + HeardIn(step, fired || pressed), fired || step.TimerFires?, pressed || step.StopPressed?)
  {
    if step.Yields? && !(step.e.Error? && (fired || pressed)) {
      Folds(told, step.e);
    } else {
      assert told + [] == told;
    }
  }

  lemma {:induction false} FlagsIff(steps: seq<Step>, n: nat)
    requires n <= |steps|
    ensures Fired(steps, n) <==> exists k :: 0 <= k < n && steps[k].TimerFires?
    ensures Pressed(steps, n) <==> exists k :: 0 <= k < n && steps[k].StopPressed?
  {
    if n > 0 {
      FlagsIff(steps, n - 1);
    }
  }

  /** The run after the first `n` steps. */
  function TakeFirst(r: Run, steps: seq<Step>, n: nat): Run
    requires n <= |steps|
  {
    if n == 0 then r else Take(TakeFirst(r, steps, n - 1), steps[n - 1])
  }

  lemma {:induction false} TakeFirstOfAll(r: Run, steps: seq<Step>, n: nat)
    requires n <= |steps|
    ensures TakeFirst(r, steps, n) == TakeAll(r, steps[..n])
  {
    if n > 0 {
      TakeFirstOfAll(r, steps, n - 1);
      assert steps[..n][..n - 1] == steps[..n - 1];
    }
  }

  lemma NothingYet(start: Run, steps: seq<Step>)
    requires IsNew(start)
    ensures Streamed(start, Heard(steps, 0), Fired(steps, 0), Pressed(steps, 0)) == start
  {
  }

  lemma {:induction false} LifeWhileStreaming(start: Run, steps: seq<Step>, n: nat)
    requires IsNew(start) && n <= |steps| && StreamsUpTo(steps, n)
    ensures TakeFirst(start, steps, n) == Streamed(start, Heard(steps, n), Fired(steps, n), Pressed(steps, n))
  {
    if n == 0 {
      NothingYet(start, steps);
    } else {
      var last := n - 1;
      LifeWhileStreaming(start, steps, last);
      assert !EndsStreaming(steps[last]);
      StreamsOn(start, Heard(steps, last), Fired(steps, last), Pressed(steps, last), steps[last]);
    }
  }

  /** How a run stands once it has said `done`: its buffer and status settled, its flags still open. */
  function Told(start: Run, buffer: seq<AgentEvent>, outcome: Outcome, errorNote: Option<AgentEvent>,
                fired: bool, pressed: bool): Run
  {
    start.(buffer := buffer, outcome := outcome, errorNote := errorNote, timerFired := fired, aborted := pressed,
           sentDone := true, phase := Cleanup)
  }

  lemma TwoMore(told: seq<AgentEvent>, error: AgentEvent)
    ensures told + [error] + [Done] == told + [error, Done]
  {
  }

  /** The `done` of the generator: the timer or a stop explains itself first. */
  lemma SaysDone(start: Run, told: seq<AgentEvent>, fired: bool, pressed: bool)
    requires IsNew(start)
    ensures var r := Take(Streamed(start, told, fired, pressed), Yields(Done));
            r == Told(start, told + LastWords(fired, pressed, Yields(Done), start.timeoutMessage),
                      if fired then TimedOut else if pressed then Stopped else OutcomeOf(told), r.errorNote, fired, pressed)
  {
    TwoMore(told, Error(start.timeoutMessage, Some(TIMEOUT)));
    TwoMore(told, STOP_ERROR);
  }

  lemma StopsStreaming(start: Run, steps: seq<Step>, m: nat)
    requires IsNew(start) && IsStreamEnd(steps, m) && steps[m].Yields?
    ensures var r := TakeFirst(start, steps, m + 1);
            r == Told(start, Said(steps, m, start.timeoutMessage), Verdict(steps, m, m), r.errorNote,
                      Fired(steps, m), Pressed(steps, m))
  {
    LifeWhileStreaming(start, steps, m);
    SaysDone(start, Heard(steps, m), Fired(steps, m), Pressed(steps, m));
  }

  /** The generator ends before it said `done`. */
  ghost predicate EndsSaying(r: Run, told: seq<AgentEvent>, words: seq<AgentEvent>, outcome: Outcome) {
    r.phase.Ended? && r.buffer == told + words && r.recorded == Some(outcome)
  }

  lemma ReturnsUnsaid(start: Run, told: seq<AgentEvent>, fired: bool, pressed: bool)
    requires IsNew(start)
    ensures EndsSaying(Take(Streamed(start, told, fired, pressed), Returns), told,
                       LastWords(fired, pressed, Returns, start.timeoutMessage),
                       if fired then TimedOut else if pressed then Stopped else Incomplete)
  {
    TwoMore(told, Error(start.timeoutMessage, Some(TIMEOUT)));
    TwoMore(told, STOP_ERROR);
    TwoMore(told, Error(SILENT_MESSAGE, None));
  }

  lemma ThrowsUnsaid(start: Run, told: seq<AgentEvent>, fired: bool, pressed: bool, message: string)
    requires IsNew(start)
    ensures EndsSaying(Take(Streamed(start, told, fired, pressed), Throws(message)), told,
                       LastWords(fired, pressed, Throws(message), start.timeoutMessage),
                       if fired then TimedOut else if pressed then Stopped else Failed)
  {
    TwoMore(told, Error(start.timeoutMessage, Some(TIMEOUT)));
    TwoMore(told, STOP_ERROR);
    TwoMore(told, Error(message, None));
  }

  lemma EndsStreamingAndRun(start: Run, steps: seq<Step>, m: nat)
    requires IsNew(start) && IsStreamEnd(steps, m) && !steps[m].Yields?
    ensures var r := TakeFirst(start, steps, m + 1);
            && r.phase.Ended? && r.buffer == Said(steps, m, start.timeoutMessage)
            && r.recorded == Some(Verdict(steps, m, m))
  {
    LifeWhileStreaming(start, steps, m);
    if steps[m].Returns? {
      ReturnsUnsaid(start, Heard(steps, m), Fired(steps, m), Pressed(steps, m));
    } else {
      ThrowsUnsaid(start, Heard(steps, m), Fired(steps, m), Pressed(steps, m), steps[m].message);
    }
  }

  lemma CleansUp(start: Run, buffer: seq<AgentEvent>, outcome: Outcome, errorNote: Option<AgentEvent>,
                 fired: bool, pressed: bool, step: Step)
    requires IsNew(start)
    ensures var r := Told(start, buffer, outcome, errorNote, fired, pressed);
            if step.Throws? || step.Returns?
            then EndsSaying(Take(r, step), buffer, [],
                            if step.Throws? && fired then TimedOut else if step.Throws? && pressed then Stopped else outcome)
            else Take(r, step) == Told(start, buffer, outcome, errorNote, fired || step.TimerFires?, pressed || step.StopPressed?)
  {
    assert buffer + [] == buffer;
  }

  /** Between `done` and the end of the cleanup only the flags change. */
  lemma {:induction false} LifeInCleanup(start: Run, steps: seq<Step>, m: nat, n: nat)
    requires IsNew(start) && IsStreamEnd(steps, m) && steps[m].Yields? && m < n <= |steps|
    requires forall k :: m <= k < n ==> !steps[k].Throws? && !steps[k].Returns?
    ensures var r := TakeFirst(start, steps, n);
            r == Told(start, Said(steps, m, start.timeoutMessage), Verdict(steps, m, m), r.errorNote,
                      Fired(steps, n), Pressed(steps, n))
  {
    if n == m + 1 {
      StopsStreaming(start, steps, m);
    } else {
      var before := TakeFirst(start, steps, n - 1);
      LifeInCleanup(start, steps, m, n - 1);
      CleansUp(start, before.buffer, before.outcome, before.errorNote, before.timerFired, before.aborted, steps[n - 1]);
    }
  }

  /** Nothing happens to a run that is over. */
  lemma {:induction false} LifeAfterwards(r: Run, steps: seq<Step>, m: nat, n: nat)
    requires m <= n <= |steps| && Sane(TakeFirst(r, steps, m)) && TakeFirst(r, steps, m).phase.Ended?
    ensures TakeFirst(r, steps, n) == TakeFirst(r, steps, m)
  {
    if m < n {
      LifeAfterwards(r, steps, m, n - 1);
    }
  }

  /** The whole of a life that ends: what was published, and what was recorded, told from its steps alone. */
  lemma WholeLife(start: Run, steps: seq<Step>, m: nat, q: nat)
    requires IsNew(start) && IsStreamEnd(steps, m) && IsRunEnd(steps, q)
    ensures m <= q
    ensures var r := TakeAll(start, steps);
            && r.phase.Ended? && r.buffer == Said(steps, m, start.timeoutMessage)
            && r.recorded == Some(Verdict(steps, m, q))
  {
    EndOfLife(start, steps, m, q);
    EndIsFinal(start, steps, q + 1);
  }

  lemma NewIsSane(start: Run)
    requires IsNew(start)
    ensures Sane(start)
  {
  }

  lemma EndIsFinal(start: Run, steps: seq<Step>, n: nat)
    requires IsNew(start) && n <= |steps| && TakeFirst(start, steps, n).phase.Ended?
    ensures TakeAll(start, steps) == TakeFirst(start, steps, n)
  {
    NewIsSane(start);
    EveryLifeIsSane(start, steps[..n]);
    TakeFirstOfAll(start, steps, n);
    LifeAfterwards(start, steps, n, |steps|);
    TakeFirstOfAll(start, steps, |steps|);
    assert steps[..|steps|] == steps;
  }

  lemma EndOfLife(start: Run, steps: seq<Step>, m: nat, q: nat)
    requires IsNew(start) && IsStreamEnd(steps, m) && IsRunEnd(steps, q)
    ensures m <= q
    ensures var r := TakeFirst(start, steps, q + 1);
            && r.phase.Ended? && r.buffer == Said(steps, m, start.timeoutMessage)
            && r.recorded == Some(Verdict(steps, m, q))
  {
    assert EndsStreaming(steps[q]);
    if steps[m].Yields? {
      var before := TakeFirst(start, steps, q);
      LifeInCleanup(start, steps, m, q);
      CleansUp(start, before.buffer, before.outcome, before.errorNote, before.timerFired, before.aborted, steps[q]);
      assert before.buffer + [] == before.buffer;
    } else {
      EndsStreamingAndRun(start, steps, m);
    }
  }

  lemma {:induction false} RunsOn(start: Run, steps: seq<Step>, n: nat)
    requires IsNew(start) && n <= |steps| && forall k :: 0 <= k < n ==> !steps[k].Throws? && !steps[k].Returns?
    ensures TakeFirst(start, steps, n).Running()
  {
    if n > 0 {
      RunsOn(start, steps, n - 1);
      if steps[n - 1].Yields? && TakeFirst(start, steps, n - 1).phase.Streaming? {
        YieldRunsOn(TakeFirst(start, steps, n - 1), steps[n - 1].e);
      }
    }
  }

  lemma YieldRunsOn(r: Run, e: AgentEvent)
    requires r.Running()
    ensures OnYield(r, e).Running()
  {
  }

  /** A run is over exactly if its generator, or its generator's cleanup, has ended. */
  lemma OverIff(start: Run, steps: seq<Step>)
    requires IsNew(start)
    ensures TakeAll(start, steps).phase.Ended? <==> exists k :: 0 <= k < |steps| && (steps[k].Throws? || steps[k].Returns?)
  {
    if exists k :: 0 <= k < |steps| && (steps[k].Throws? || steps[k].Returns?) {
      var m, q := Ends(steps);
      WholeLife(start, steps, m, q);
    } else {
      RunsOn(start, steps, |steps|);
      TakeFirstOfAll(start, steps, |steps|);
      assert steps[..|steps|] == steps;
    }
  }

  /** Where streaming stops, and where the run ends. */
  lemma Ends(steps: seq<Step>) returns (m: nat, q: nat)
    requires exists k :: 0 <= k < |steps| && (steps[k].Throws? || steps[k].Returns?)
    ensures IsStreamEnd(steps, m) && IsRunEnd(steps, q)
  {
    q := 0;
    while !steps[q].Throws? && !steps[q].Returns?
      invariant q < |steps| && forall k :: 0 <= k < q ==> !steps[k].Throws? && !steps[k].Returns?
      decreases |steps| - q
    {
      q := q + 1;
    }
    m := 0;
    while !EndsStreaming(steps[m])
      invariant m <= q && StreamsUpTo(steps, m)
      decreases q - m
    {
      m := m + 1;
    }
  }

  /** If the timer fires while a run is streaming, then however the run goes on and ends, its own timeout is the
      event before `done`, and it is recorded as timed out. */
  lemma TimerIsExplained(start: Run, steps: seq<Step>, k: nat)
    requires IsNew(start) && TakeAll(start, steps).phase.Ended?
    requires k < |steps| && steps[k].TimerFires? && StreamsUpTo(steps, k)
    ensures var r := TakeAll(start, steps);
            && |r.buffer| >= 2 && r.buffer[|r.buffer| - 1] == Done
            && r.buffer[|r.buffer| - 2] == Error(start.timeoutMessage, Some(TIMEOUT))
            && r.recorded == Some(TimedOut)
  {
    OverIff(start, steps);
    var m, q := Ends(steps);
    WholeLife(start, steps, m, q);
    assert k < m by {
      assert EndsStreaming(steps[m]);
    }
    FlagsIff(steps, m);
    FlagsIff(steps, q);
  }

  /** If the user presses stop while a run is streaming, and the timer does not fire before streaming stops, then
      the stop is the event before `done`, and what is recorded, except exactly if the timer fires during a cleanup
      that throws. */
  lemma StopIsExplained(start: Run, steps: seq<Step>, k: nat, m: nat, q: nat)
    requires IsNew(start) && IsStreamEnd(steps, m) && IsRunEnd(steps, q)
    requires k < m && steps[k].StopPressed? && forall j :: 0 <= j < m ==> !steps[j].TimerFires?
    ensures var r := TakeAll(start, steps);
            && |r.buffer| >= 2 && r.buffer[|r.buffer| - 1] == Done
            && r.buffer[|r.buffer| - 2] == Error("Conversation stopped by the user.", Some(CANCELLED))
            && r.recorded == Some(if steps[q].Throws? && exists j :: 0 <= j < q && steps[j].TimerFires? then TimedOut
                                  else Stopped)
  {
    WholeLife(start, steps, m, q);
    FlagsIff(steps, m);
    FlagsIff(steps, q);
  }
}
