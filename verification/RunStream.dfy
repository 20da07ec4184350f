/** The events of an agent run, and the public stream that projects them into frames for one client. */
module AgentEvents {
  import opened Wrappers

  datatype ErrorCode = TIMEOUT | CANCELLED | OtherCode(name: string)

  datatype AgentEvent =
    | Token(content: string)
    | Reasoning(content: string)
    | ToolStart(name: string, id: Option<string>, args: string)
    | ToolLink(name: string, id: Option<string>, meta: string)
    | ToolResult(name: string, id: Option<string>, result: string)
    | Error(message: string, code: Option<ErrorCode>)
    | Paced(waitMs: nat)
    | LimitReached
    | TurnUsage(turnId: string)
    | Done

  function FirstError(events: seq<AgentEvent>): Option<AgentEvent> {
    if events == [] then None
    else
      var before := FirstError(events[..|events| - 1]);
      var last := events[|events| - 1];
      if before.Some? then before else if last.Error? then Some(last) else None
  }

  function LastError(events: seq<AgentEvent>): Option<AgentEvent> {
    if events == [] then None
    else if events[|events| - 1].Error? then Some(events[|events| - 1])
    else LastError(events[..|events| - 1])
  }

  /** The first error of a run is the one nothing precedes. */
  lemma {:induction false} FirstErrorIs(events: seq<AgentEvent>)
    ensures FirstError(events).None? <==> forall k :: 0 <= k < |events| ==> !events[k].Error?
    ensures forall k :: 0 <= k < |events| && events[k].Error? && (forall j :: 0 <= j < k ==> !events[j].Error?) ==>
              FirstError(events) == Some(events[k])
  {
    if events != [] {
      var before := events[..|events| - 1];
      FirstErrorIs(before);
      assert forall k :: 0 <= k < |before| ==> before[k] == events[k];
    }
  }

  /** Every token of the run, joined. */
  function Answer(events: seq<AgentEvent>): string {
    if events == [] then ""
    else
      var last := events[|events| - 1];
      Answer(events[..|events| - 1]) + if last.Token? then last.content else ""
  }

  /** A finished buffer: one `done`, and it comes last. */
  predicate EndsWithOnlyDone(events: seq<AgentEvent>) {
    events != [] && events[|events| - 1] == Done && Done !in events[..|events| - 1]
  }
}

module RunStream {
  import opened Wrappers
  import opened Sequences
  import opened AgentEvents

  datatype Frame =
    | TokenFrame(content: string)
    | ReasoningFrame(content: string)
    | ToolStartFrame(name: string, id: Option<string>, args: string)
    | ToolResultFrame(name: string, id: Option<string>, result: string)
    | ErrorFrame(message: string, code: Option<ErrorCode>)
    | ResponseFrame(content: string, iterationLimitReached: bool, conversationId: string)
    | DoneFrame(conversationId: string, failed: bool, code: Option<ErrorCode>)

  /** An empty id is left out of the frame, like a missing one. */
  function ShownId(id: Option<string>): Option<string> {
    if id == Some("") then None else id
  }

  /** The one frame an event other than `done` is sent as, if any. */
  function EventFrames(e: AgentEvent): seq<Frame> {
    match e
    case Token(content) => [TokenFrame(content)]
    case Reasoning(content) => [ReasoningFrame(content)]
    case ToolStart(name, id, args) => [ToolStartFrame(name, ShownId(id), args)]
    case ToolResult(name, id, result) => [ToolResultFrame(name, ShownId(id), result)]
    case Error(message, code) => [ErrorFrame(message, code)]
    case _ => []
  }

  function FailureCode(failure: Option<AgentEvent>): Option<ErrorCode> {
    if failure.Some? && failure.value.Error? then failure.value.code else None
  }

  /** What one client's stream holds. */
  datatype StreamState = StreamState(
    conversationId: string, closed: bool, response: string, limitReached: bool,
    failure: Option<AgentEvent>, frames: seq<Frame>)
  {
    function Send(sent: seq<Frame>): StreamState {
      if closed then this else this.(frames := frames + sent)
    }

    function After(e: AgentEvent): StreamState {
      match e
      case Token(content) => this.(response := response + content).Send(EventFrames(e))
      case LimitReached => this.(limitReached := true)
      case Error(_, _) => this.(failure := Some(e)).Send(EventFrames(e))
      case Done =>
        var answered := if failure.None? then Send([ResponseFrame(response, limitReached, conversationId)]) else this;
        answered.Send([DoneFrame(conversationId, failure.Some?, FailureCode(failure))]).(closed := true)
      case _ => Send(EventFrames(e))
    }

    function AfterAll(events: seq<AgentEvent>): StreamState {
      if events == [] then this
      else AfterAll(events[..|events| - 1]).After(events[|events| - 1])
    }

    /** What a client is sent on attaching: the buffer so far, or a bare `done` when there is no run. */
    function Attached(replay: Option<seq<AgentEvent>>, finished: bool): StreamState {
      match replay
      case None => Send([DoneFrame(conversationId, false, None)]).(closed := true)
      case Some(events) =>
        var caughtUp := AfterAll(events);
        if finished then caughtUp.(closed := true) else caughtUp
    }
  }

  function Opened(conversationId: string): StreamState {
    StreamState(conversationId, false, "", false, None, [])
  }

  /** The projection of a whole buffer, however it was delivered. */
  function Projection(conversationId: string, events: seq<AgentEvent>): seq<Frame> {
    Opened(conversationId).AfterAll(events).frames
  }

  lemma AfterAllStep(s: StreamState, events: seq<AgentEvent>, e: AgentEvent)
    ensures s.AfterAll(events + [e]) == s.AfterAll(events).After(e)
  {
    assert (events + [e])[..|events|] == events;
  }

  /** Replaying a prefix and then receiving the rest live is the same as replaying it all. */
  lemma {:induction false} ReplayThenLive(s: StreamState, replay: seq<AgentEvent>, live: seq<AgentEvent>)
    ensures s.AfterAll(replay).AfterAll(live) == s.AfterAll(replay + live)
  {
    if live == [] {
      assert replay + live == replay;
    } else {
      var n := |live| - 1;
      ReplayThenLive(s, replay, live[..n]);
      AppendLast(replay, live);
    }
  }

  /** The events of a run as frames, one by one and in order, without the closing frames. */
  function Body(events: seq<AgentEvent>): seq<Frame> {
    if events == [] then [] else Body(events[..|events| - 1]) + EventFrames(events[|events| - 1])
  }

  /** Before `done`, a stream holds the frames of the events so far, the answer so far, the last error
      and whether the limit was reached. */
  lemma {:induction false} StreamBeforeDone(conversationId: string, events: seq<AgentEvent>)
    requires Done !in events
    ensures Opened(conversationId).AfterAll(events) ==
            StreamState(conversationId, false, Answer(events), LimitReached in events, LastError(events), Body(events))
  {
    if events != [] {
      var n := |events| - 1;
      assert forall e :: e in events <==> e in events[..n] || e == events[n];
      StreamBeforeDone(conversationId, events[..n]);
    }
  }

  /** A finished run is sent as its events, then one `response` carrying the joined tokens unless an
      error occurred, then one `done` naming the last error. */
  lemma ProjectionOfFinishedRun(conversationId: string, events: seq<AgentEvent>)
    requires EndsWithOnlyDone(events)
    ensures var before := events[..|events| - 1];
            Projection(conversationId, events) ==
            Body(before) +
            (if LastError(before).None?
             then [ResponseFrame(Answer(before), LimitReached in before, conversationId)] else []) +
            [DoneFrame(conversationId, LastError(before).Some?, FailureCode(LastError(before)))]
  {
    StreamBeforeDone(conversationId, events[..|events| - 1]);
  }

  lemma {:induction false} BodyHasNoClosingFrame(events: seq<AgentEvent>)
    ensures forall f :: f in Body(events) ==> !f.DoneFrame? && !f.ResponseFrame?
  {
    if events != [] {
      BodyHasNoClosingFrame(events[..|events| - 1]);
    }
  }

  /** Exactly one `done` frame ends a finished run, and a `response` frame is sent at most once, just
      before it, exactly when the run held no error. */
  lemma OneDoneFrame(conversationId: string, events: seq<AgentEvent>)
    requires EndsWithOnlyDone(events)
    ensures var frames := Projection(conversationId, events);
            && frames != []
            && (forall k :: 0 <= k < |frames| ==> (frames[k].DoneFrame? <==> k == |frames| - 1))
            && (forall k :: 0 <= k < |frames| && frames[k].ResponseFrame? ==>
                  k == |frames| - 2 && frames[k].content == Answer(events[..|events| - 1]))
            && ((exists k :: 0 <= k < |frames| && frames[k].ResponseFrame?) <==>
                LastError(events[..|events| - 1]).None?)
  {
    var before := events[..|events| - 1];
    ProjectionOfFinishedRun(conversationId, events);
    BodyHasNoClosingFrame(before);
    var frames := Projection(conversationId, events);
    if LastError(before).None? {
      assert frames[|Body(before)|].ResponseFrame?;
    }
  }

  // ---------------------------------------------------------------------------------------------
  // Which frame an event becomes, and where.

  /** The kinds of event a client is told of, `done` aside. */
  predicate IsTold(e: AgentEvent) {
    e.Token? || e.Reasoning? || e.ToolStart? || e.ToolResult? || e.Error?
  }

  /** `f` tells of `e`: the same kind, and the same in every field, an empty id being none. */
  predicate Tells(f: Frame, e: AgentEvent) {
    || (f.TokenFrame? && e.Token? && f.content == e.content)
    || (f.ReasoningFrame? && e.Reasoning? && f.content == e.content)
    || (f.ToolStartFrame? && e.ToolStart? && f.name == e.name && f.args == e.args && SameId(f.id, e.id))
    || (f.ToolResultFrame? && e.ToolResult? && f.name == e.name && f.result == e.result && SameId(f.id, e.id))
    || (f.ErrorFrame? && e.Error? && f.message == e.message && f.code == e.code)
  }

  predicate SameId(shown: Option<string>, id: Option<string>) {
    if id.Some? && id.value != "" then shown == id else shown.None?
  }

  /** How many of the first `n` events a client is told of. */
  function ToldBefore(events: seq<AgentEvent>, n: nat): nat
    requires n <= |events|
  {
    if n == 0 then 0 else ToldBefore(events, n - 1) + if IsTold(events[n - 1]) then 1 else 0
  }

  lemma {:induction false} ToldBeforeGrows(events: seq<AgentEvent>, m: nat, n: nat)
    requires m <= n <= |events|
    ensures ToldBefore(events, m) <= ToldBefore(events, n)
    ensures m < n && IsTold(events[m]) ==> ToldBefore(events, m) < ToldBefore(events, n)
  {
    if m < n {
      ToldBeforeGrows(events, m, n - 1);
    }
  }

  lemma {:induction false} ToldBeforeInPrefix(events: seq<AgentEvent>, m: nat, n: nat)
    requires m <= n <= |events|
    ensures ToldBefore(events[..n], m) == ToldBefore(events, m)
  {
    if m > 0 {
      ToldBeforeInPrefix(events, m - 1, n);
    }
  }

  /** Event `k`, if a client is told of it, is told by the frame at its own place. */
  ghost predicate ToldAt(frames: seq<Frame>, events: seq<AgentEvent>, k: nat)
    requires k < |events|
  {
    IsTold(events[k]) ==> ToldBefore(events, k) < |frames| && Tells(frames[ToldBefore(events, k)], events[k])
  }

  lemma LastToldAt(frames: seq<Frame>, events: seq<AgentEvent>)
    requires events != [] && |frames| == ToldBefore(events, |events| - 1)
    ensures ToldAt(frames + EventFrames(events[|events| - 1]), events, |events| - 1)
  {
  }

  lemma StillToldAt(frames: seq<Frame>, more: seq<Frame>, events: seq<AgentEvent>, n: nat, k: nat)
    requires k < n <= |events| && ToldAt(frames, events[..n], k)
    ensures ToldAt(frames + more, events, k)
  {
    ToldBeforeInPrefix(events, k, n);
  }

  lemma {:induction false} BodyTells(events: seq<AgentEvent>)
    ensures |Body(events)| == ToldBefore(events, |events|)
    ensures forall k {:trigger ToldAt(Body(events), events, k)} :: 0 <= k < |events| ==> ToldAt(Body(events), events, k)
  {
    if events != [] {
      var n := |events| - 1;
      BodyTells(events[..n]);
      ToldBeforeInPrefix(events, n, n);
      forall k | 0 <= k < |events|
        ensures ToldAt(Body(events), events, k)
      {
        if k < n {
          assert ToldAt(Body(events[..n]), events[..n], k);
          StillToldAt(Body(events[..n]), EventFrames(events[n]), events, n, k);
        } else {
          LastToldAt(Body(events[..n]), events);
        }
      }
    }
  }

  /** Every event up to `done` that a client is told of is told by the frame at its own place: one frame an
      event, in the order of the events, with its fields. */
  lemma EventsAreTold(conversationId: string, events: seq<AgentEvent>)
    requires Done !in events
    ensures var frames := Projection(conversationId, events);
            && |frames| == ToldBefore(events, |events|)
            && forall k {:trigger ToldAt(frames, events, k)} :: 0 <= k < |events| ==> ToldAt(frames, events, k)
  {
    StreamBeforeDone(conversationId, events);
    BodyTells(events);
  }

  /** And in a finished run the closing frames come after all of them. */
  lemma FinishedRunIsTold(conversationId: string, events: seq<AgentEvent>)
    requires EndsWithOnlyDone(events)
    ensures var before, frames := events[..|events| - 1], Projection(conversationId, events);
            && Projection(conversationId, before) <= frames
            && |frames| == ToldBefore(before, |before|) + if exists e :: e in before && e.Error? then 1 else 2
  {
    var before := events[..|events| - 1];
    StreamBeforeDone(conversationId, before);
    ProjectionOfFinishedRun(conversationId, events);
    BodyTells(before);
    ErrorIffLastError(before);
  }

  /** The tokens a client was sent, joined. */
  function TokensSent(frames: seq<Frame>): string {
    if frames == [] then ""
    else
      var last := frames[|frames| - 1];
      TokensSent(frames[..|frames| - 1]) + if last.TokenFrame? then last.content else ""
  }

  lemma TokensSentOneMore(frames: seq<Frame>, f: Frame)
    ensures TokensSent(frames + [f]) == TokensSent(frames) + if f.TokenFrame? then f.content else ""
  {
    AppendLast(frames, [f]);
    assert frames + [f][..0] == frames;
  }

  lemma {:induction false} TokensSentOfBody(events: seq<AgentEvent>)
    ensures TokensSent(Body(events)) == Answer(events)
  {
    if events != [] {
      var n := |events| - 1;
      TokensSentOfBody(events[..n]);
      TokensSentOfOne(Body(events[..n]), events[n]);
    }
  }

  lemma TokensSentOfOne(frames: seq<Frame>, e: AgentEvent)
    ensures TokensSent(frames + EventFrames(e)) == TokensSent(frames) + if e.Token? then e.content else ""
  {
    var one := EventFrames(e);
    if IsTold(e) {
      TokensSentOneMore(frames, one[0]);
      assert one == [one[0]];
    } else {
      assert frames + one == frames;
    }
  }

  /** The `response` of a finished run says exactly the tokens the same client was sent, joined, and whether the
      limit was reached. */
  lemma ResponseJoinsTokens(conversationId: string, events: seq<AgentEvent>, k: nat)
    requires EndsWithOnlyDone(events) && k < |Projection(conversationId, events)|
    requires Projection(conversationId, events)[k].ResponseFrame?
    ensures var frames := Projection(conversationId, events);
            && frames[k].content == TokensSent(frames[..k])
            && frames[k].conversationId == conversationId
            && (frames[k].iterationLimitReached <==> LimitReached in events)
  {
    var before := events[..|events| - 1];
    ProjectionOfFinishedRun(conversationId, events);
    BodyHasNoClosingFrame(before);
    TokensSentOfBody(before);
    var frames := Projection(conversationId, events);
    assert k == |Body(before)|;
    assert frames[..k] == Body(before);
    assert forall e :: e in events <==> e in before || e == Done;
  }

  /** The `done` frame says whether the client was sent an error, and the code of the last one. */
  lemma DoneNamesLastError(conversationId: string, events: seq<AgentEvent>)
    requires EndsWithOnlyDone(events)
    ensures Projection(conversationId, events) != []
    ensures var frames := Projection(conversationId, events);
            var done := frames[|frames| - 1];
            && done.DoneFrame? && done.conversationId == conversationId
            && (done.failed <==> exists e :: e in events && e.Error?)
            && (!done.failed ==> done.code.None?)
            && forall k :: 0 <= k < |events| && events[k].Error? && (forall j :: k < j < |events| ==> !events[j].Error?) ==>
                 done.code == events[k].code
  {
    var before := events[..|events| - 1];
    ProjectionOfFinishedRun(conversationId, events);
    ErrorIffLastError(before);
    assert forall e :: e in events <==> e in before || e == Done;
    forall k | 0 <= k < |events| && events[k].Error? && forall j :: k < j < |events| ==> !events[j].Error?
      ensures LastError(before) == Some(events[k])
    {
      LastErrorAt(before, k);
    }
  }

  lemma {:induction false} LastErrorAt(events: seq<AgentEvent>, k: nat)
    requires k < |events| && events[k].Error? && forall j :: k < j < |events| ==> !events[j].Error?
    ensures LastError(events) == Some(events[k])
  {
    var n := |events| - 1;
    if k < n {
      LastErrorAt(events[..n], k);
    }
  }

  lemma {:induction false} ErrorIffLastError(events: seq<AgentEvent>)
    ensures LastError(events).Some? <==> exists e :: e in events && e.Error?
    ensures FirstError(events).Some? <==> LastError(events).Some?
  {
    if events != [] {
      var n := |events| - 1;
      assert forall e :: e in events <==> e in events[..n] || e == events[n];
      ErrorIffLastError(events[..n]);
    }
  }

  /** A client that asks for a conversation nobody runs is sent one `done` and closed. */
  lemma NobodyRuns(conversationId: string, finished: bool)
    ensures var s := Opened(conversationId).Attached(None, finished);
            s.frames == [DoneFrame(conversationId, false, None)] && s.closed
  {
  }

  /** The stream as the route runs it: closure variables updated event by event. */
  class ConversationStream {
    const conversationId: string
    var closed: bool
    var response: string
    var limitReached: bool
    var failure: Option<AgentEvent>
    var frames: seq<Frame>
    /** Whether the stream is still among the broker's subscribers. */
    var subscribed: bool

    ghost function View(): StreamState
      reads this
    {
      StreamState(conversationId, closed, response, limitReached, failure, frames)
    }

    constructor (conversationId: string)
      ensures View() == Opened(conversationId) && !subscribed
    {
      this.conversationId := conversationId;
      closed, response, limitReached, failure, frames, subscribed := false, "", false, None, [], false;
    }

    method Send(frame: Frame)
      modifies this`frames
      ensures View() == old(View()).Send([frame])
    {
      if !closed {
        frames := frames + [frame];
      }
    }

    /** Closing is idempotent and leaves the broker. */
    method Close()
      modifies this`closed, this`subscribed
      ensures View() == old(View()).(closed := true)
      ensures subscribed == (old(subscribed) && old(closed))
    {
      if closed {
        return;
      }
      closed := true;
      subscribed := false;
    }

    method Handle(e: AgentEvent)
      modifies this
      ensures View() == old(View()).After(e)
      ensures subscribed == (old(subscribed) && (old(closed) || !e.Done?))
    {
      match e {
        case Token(content) =>
          response := response + content;
          Send(TokenFrame(content));
        case Reasoning(content) =>
          Send(ReasoningFrame(content));
        case ToolStart(name, id, args) =>
          Send(ToolStartFrame(name, ShownId(id), args));
        case ToolResult(name, id, result) =>
          Send(ToolResultFrame(name, ShownId(id), result));
        case LimitReached =>
          limitReached := true;
        case Error(message, code) =>
          failure := Some(e);
          Send(ErrorFrame(message, code));
        case Done =>
          if failure.None? {
            Send(ResponseFrame(response, limitReached, conversationId));
          }
          Send(DoneFrame(conversationId, failure.Some?, FailureCode(failure)));
          Close();
        case _ =>
      }
    }

    method Replay(events: seq<AgentEvent>)
      requires subscribed <==> !closed
      modifies this
      ensures View() == old(View()).AfterAll(events)
      ensures subscribed <==> !closed
    {
      for i := 0 to |events|
        invariant View() == old(View()).AfterAll(events[..i])
        invariant subscribed <==> !closed
      {
        assert events[..i + 1][..i] == events[..i];
        Handle(events[i]);
      }
      assert events[..|events|] == events;
    }

    /** Attach: replay what the broker answered with, then close if the run had already finished. */
    method Start(replay: Option<seq<AgentEvent>>, finished: bool)
      requires !closed && !subscribed
      modifies this
      ensures View() == old(View()).Attached(replay, finished)
      ensures subscribed <==> replay.Some? && !closed
    {
      if replay.None? {
        Send(DoneFrame(conversationId, false, None));
        Close();
        return;
      }
      subscribed := true;
      Replay(replay.value);
      if finished {
        Close();
      }
    }
  }
}
