/** The agent loop: stream a model turn, run its tools, commit the turn to the shared history in one
    uninterrupted step, repeat. The loop may be abandoned at any yield. */
module AgentLoop {
  import opened Wrappers
  import opened Sequences
  import opened History
  import opened Compaction

  /** What a settled tool call makes the loop do after the turn. */
  datatype Handler = NoHandler | Compact(level: Level, nextStep: string, summary: Option<string>)

  datatype ToolOutcome = ToolOutcome(result: string, terminalFailure: bool, handler: Handler)

  /** Where a tool turn throws, if it does: notifying the start of call `k`, notifying its result once the turn
      is committed, or in the signal handler of call `k`. */
  datatype Throw = Nowhere | AtStart(k: nat) | AtResult(k: nat) | InHandler(k: nat)

  /** What the world does to one turn of the loop. `streamed` is how many events the model streams;
      `links` how many call links arrive while the tools run. */
  datatype Turn =
    | StreamThrows(streamed: nat)
    | Refused(streamed: nat, text: string)
    | Answered(streamed: nat, text: string)
    | CalledTools(streamed: nat, text: string, calls: seq<Call>, links: nat,
                  outcomeOf: Call -> ToolOutcome, abortedAfter: bool, throws: Throw)

  /** The closing summary when the iteration limit is reached: its text, empty if the model gave none,
      and how many tokens it took; or a failure, which may or may not be worth an error event. */
  datatype Synthesis = Summarised(text: string, tokens: nat) | SynthesisFails(tokens: nat, classified: bool)

  datatype World = World(blocked: bool, setupThrows: bool, turns: nat -> Turn, synthesis: Synthesis)

  // ---------------------------------------------------------------------------------------------
  // De-duplication.

  function DedupKey(c: Call): string {
    c.name + ":" + c.args
  }

  /** A call is kept when no later call has the same name and arguments. */
  predicate IsLast(calls: seq<Call>, i: nat)
    requires i < |calls|
  {
    forall j :: i < j < |calls| ==> DedupKey(calls[j]) != DedupKey(calls[i])
  }

  /** The calls whose flag is set, in order. */
  function Select(calls: seq<Call>, keep: seq<bool>): (r: seq<Call>)
    requires |keep| == |calls|
    ensures |r| <= |calls|
  {
    if calls == [] then []
    else
      var n := |calls| - 1;
      Select(calls[..n], keep[..n]) + if keep[n] then [calls[n]] else []
  }

  function LastFlags(calls: seq<Call>): (r: seq<bool>)
    ensures |r| == |calls|
    ensures forall i :: 0 <= i < |r| ==> (r[i] <==> IsLast(calls, i))
  {
    seq(|calls|, i requires 0 <= i < |calls| => IsLast(calls, i))
  }

  /** The calls of a turn that are run. */
  function Active(calls: seq<Call>): seq<Call> {
    Select(calls, LastFlags(calls))
  }

  lemma {:induction false} SelectedIndex(calls: seq<Call>, keep: seq<bool>, i: nat) returns (k: nat)
    requires |keep| == |calls| && i < |Select(calls, keep)|
    ensures k < |calls| && keep[k] && calls[k] == Select(calls, keep)[i]
    ensures forall j :: i < j < |Select(calls, keep)| ==> KeptAfter(calls, keep, k, Select(calls, keep)[j])
  {
    var n := |calls| - 1;
    var all, before := Select(calls, keep), Select(calls[..n], keep[..n]);
    assert all == before + if keep[n] then [calls[n]] else [];
    if i < |before| {
      k := SelectedIndex(calls[..n], keep[..n], i);
      forall j | i < j < |all|
        ensures KeptAfter(calls, keep, k, all[j])
      {
        if j < |before| {
          assert KeptAfter(calls[..n], keep[..n], k, before[j]);
          var l :| k < l < n && keep[..n][l] && calls[..n][l] == before[j];
          assert keep[l] && calls[l] == all[j];
        } else {
          assert keep[n] && calls[n] == all[j];
        }
      }
    } else {
      k := n;
    }
  }

  ghost predicate KeptAfter(calls: seq<Call>, keep: seq<bool>, k: nat, c: Call)
    requires |keep| == |calls|
  {
    exists l :: k < l < |calls| && keep[l] && calls[l] == c
  }

  lemma {:induction false} FlaggedIsSelected(calls: seq<Call>, keep: seq<bool>, k: nat)
    requires |keep| == |calls| && k < |calls| && keep[k]
    ensures calls[k] in Select(calls, keep)
  {
    var n := |calls| - 1;
    if k < n {
      FlaggedIsSelected(calls[..n], keep[..n], k);
    }
  }

  /** No two calls that run share a name and arguments, so every call of the turn gets its own result. */
  lemma ActiveIsDistinct(calls: seq<Call>, i: nat, j: nat)
    requires i < j < |Active(calls)|
    ensures DedupKey(Active(calls)[i]) != DedupKey(Active(calls)[j])
  {
    var k := SelectedIndex(calls, LastFlags(calls), i);
    var l :| k < l < |calls| && LastFlags(calls)[l] && calls[l] == Active(calls)[j];
    assert IsLast(calls, k);
  }

  lemma LastOfKind(calls: seq<Call>, k: nat) returns (last: nat)
    requires k < |calls|
    ensures k <= last < |calls| && IsLast(calls, last) && DedupKey(calls[last]) == DedupKey(calls[k])
    decreases |calls| - k
  {
    if IsLast(calls, k) {
      last := k;
    } else {
      var j :| k < j < |calls| && DedupKey(calls[j]) == DedupKey(calls[k]);
      last := LastOfKind(calls, j);
    }
  }

  /** Every name-and-arguments pair the model asked for runs. */
  lemma EveryRequestRuns(calls: seq<Call>, k: nat)
    requires k < |calls|
    ensures exists c :: c in Active(calls) && DedupKey(c) == DedupKey(calls[k])
  {
    var last := LastOfKind(calls, k);
    FlaggedIsSelected(calls, LastFlags(calls), last);
  }

  /** What makes two calls the same call. */
  predicate SameCall(a: Call, b: Call) {
    a.name == b.name && a.args == b.args
  }

  lemma NoColonBefore(c: Call, n: nat)
    requires ':' !in c.name && n < |DedupKey(c)| && DedupKey(c)[n] == ':'
    ensures |c.name| <= n
  {
    assert forall i :: 0 <= i < |c.name| ==> DedupKey(c)[i] == c.name[i];
  }

  /** For tools whose name holds no colon the key tells exactly that. */
  lemma KeyTellsCall(a: Call, b: Call)
    requires ':' !in a.name && ':' !in b.name
    ensures DedupKey(a) == DedupKey(b) <==> SameCall(a, b)
  {
    if DedupKey(a) == DedupKey(b) {
      var n, m := |a.name|, |b.name|;
      NoColonBefore(a, m);
      NoColonBefore(b, n);
      assert DedupKey(a)[..n] == a.name && DedupKey(b)[..m] == b.name;
      assert DedupKey(a)[n + 1..] == a.args && DedupKey(b)[m + 1..] == b.args;
    }
  }

  /** Call `k` of those made is run in place `i`. */
  ghost predicate RunsAs(calls: seq<Call>, k: nat, i: nat)
    requires k < |calls|
  {
    i < |Active(calls)| && Active(calls)[i] == calls[k]
  }

  /** Of each repeated call the last one asked for runs: whatever is run was asked for with no repetition after it. */
  lemma LastAskedRuns(calls: seq<Call>, i: nat)
    requires i < |Active(calls)| && forall j :: 0 <= j < |calls| ==> ':' !in calls[j].name
    ensures exists k: nat :: k < |calls| && RunsAs(calls, k, i) && forall j :: k < j < |calls| ==> !SameCall(calls[j], calls[k])
  {
    var k := SelectedIndex(calls, LastFlags(calls), i);
    assert RunsAs(calls, k, i) && IsLast(calls, k);
    forall j | k < j < |calls|
      ensures !SameCall(calls[j], calls[k])
    {
      KeyTellsCall(calls[j], calls[k]);
    }
  }

  /** And every call asked for is run once: under the id of its last repetition, in the order of those. */
  lemma EveryCallRunsOnce(calls: seq<Call>)
    requires forall j :: 0 <= j < |calls| ==> ':' !in calls[j].name
    ensures forall c :: c in calls ==> exists d :: d in Active(calls) && SameCall(c, d)
    ensures forall i, j :: 0 <= i < j < |Active(calls)| ==> !SameCall(Active(calls)[i], Active(calls)[j])
  {
    forall c | c in calls
      ensures exists d :: d in Active(calls) && SameCall(c, d)
    {
      var k :| 0 <= k < |calls| && calls[k] == c;
      EveryRequestRuns(calls, k);
      var d :| d in Active(calls) && DedupKey(d) == DedupKey(calls[k]);
      var i :| 0 <= i < |Active(calls)| && Active(calls)[i] == d;
      var l := SelectedIndex(calls, LastFlags(calls), i);
      KeyTellsCall(c, calls[l]);
    }
    forall i, j | 0 <= i < j < |Active(calls)|
      ensures !SameCall(Active(calls)[i], Active(calls)[j])
    {
      ActiveIsDistinct(calls, i, j);
    }
  }

  /** What runs comes in the order it was asked for. */
  lemma ActiveInOrder(calls: seq<Call>, i: nat, j: nat)
    requires i < j < |Active(calls)|
    ensures exists k: nat, l: nat :: k < l < |calls| && RunsAs(calls, k, i) && RunsAs(calls, l, j)
  {
    var k := SelectedIndex(calls, LastFlags(calls), i);
    assert KeptAfter(calls, LastFlags(calls), k, Active(calls)[j]);
    var l: nat :| k < l < |calls| && LastFlags(calls)[l] && calls[l] == Active(calls)[j];
    assert RunsAs(calls, k, i) && RunsAs(calls, l, j);
  }

  /** First pass: the last index of each key. */
  method LastIndices(calls: seq<Call>) returns (seen: map<string, nat>)
    ensures forall k :: 0 <= k < |calls| ==>
              && DedupKey(calls[k]) in seen
              && (seen[DedupKey(calls[k])] == k <==> IsLast(calls, k))
  {
    seen := map[];
    for i := 0 to |calls|
      invariant AllLatest(calls, seen, i)
    {
      ghost var before := seen;
      seen := seen[DedupKey(calls[i]) := i];
      LatestNext(calls, before, i);
    }
    forall k | 0 <= k < |calls|
      ensures DedupKey(calls[k]) in seen && (seen[DedupKey(calls[k])] == k <==> IsLast(calls, k))
    {
      LatestIsLast(calls, seen, k);
    }
  }

  /** Among the first `i` calls, the one recorded for the key of call `k` has that key and is not before it. */
  ghost predicate Latest(calls: seq<Call>, seen: map<string, nat>, i: nat, k: nat)
    requires k < i <= |calls|
  {
    var key := DedupKey(calls[k]);
    key in seen && k <= seen[key] < i && DedupKey(calls[seen[key]]) == key
  }

  ghost predicate AllLatest(calls: seq<Call>, seen: map<string, nat>, i: nat)
    requires i <= |calls|
  {
    forall k :: 0 <= k < i ==> Latest(calls, seen, i, k)
  }

  lemma LatestNext(calls: seq<Call>, seen: map<string, nat>, i: nat)
    requires i < |calls| && AllLatest(calls, seen, i)
    ensures AllLatest(calls, seen[DedupKey(calls[i]) := i], i + 1)
  {
    var after, next := seen[DedupKey(calls[i]) := i], i + 1;
    forall k | 0 <= k < next
      ensures Latest(calls, after, next, k)
    {
      assert k < i ==> Latest(calls, seen, i, k);
    }
  }

  lemma LatestIsLast(calls: seq<Call>, seen: map<string, nat>, k: nat)
    requires k < |calls| && AllLatest(calls, seen, |calls|)
    ensures DedupKey(calls[k]) in seen && (seen[DedupKey(calls[k])] == k <==> IsLast(calls, k))
  {
    assert Latest(calls, seen, |calls|, k);
    forall j | k < j < |calls| && seen[DedupKey(calls[k])] == k
      ensures DedupKey(calls[j]) != DedupKey(calls[k])
    {
      assert Latest(calls, seen, |calls|, j);
    }
  }

  /** The two passes of the runner: last index per key, then the filter. */
  method Deduplicate(calls: seq<Call>) returns (active: seq<Call>)
    ensures active == Active(calls)
  {
    var seen := LastIndices(calls);
    active := [];
    ghost var keep := LastFlags(calls);
    for i := 0 to |calls|
      invariant active == Select(calls[..i], keep[..i])
    {
      assert calls[..i + 1][..i] == calls[..i] && keep[..i + 1][..i] == keep[..i];
      if seen[DedupKey(calls[i])] == i {
        active := active + [calls[i]];
      }
    }
    assert calls[..|calls|] == calls && keep[..|calls|] == keep;
  }

  // ---------------------------------------------------------------------------------------------
  // What the loop commits, as a function of the world.

  function ResultsOf(active: seq<Call>, outcomeOf: Call -> ToolOutcome): (r: seq<Message>)
    ensures AnswersCalls(r, active)
  {
    seq(|active|, i requires 0 <= i < |active| => Tool(active[i].id, Text(outcomeOf(active[i]).result), None))
  }

  /** A tool turn as it stands in the history: the assistant's message and one result per call. */
  function ToolTurn(text: string, active: seq<Call>, outcomeOf: Call -> ToolOutcome): (r: seq<Message>)
    ensures IsBlock(r)
  {
    [AI(text, active, None)] + ResultsOf(active, outcomeOf)
  }

  /** What a committed tool turn says: the model's text with the calls it runs, then for each call, in order, the
      result of that call under its id. */
  lemma ToolTurnSays(text: string, active: seq<Call>, outcomeOf: Call -> ToolOutcome)
    ensures var turn := ToolTurn(text, active, outcomeOf);
            && |turn| == 1 + |active| && turn[0] == AI(text, active, None)
            && forall i :: 0 <= i < |active| ==> turn[1 + i] == Tool(active[i].id, Text(outcomeOf(active[i]).result), None)
  {
  }

  /** The history standing after `commits`. */
  function Last(h: seq<Message>, commits: seq<seq<Message>>): seq<Message> {
    if commits == [] then h else commits[|commits| - 1]
  }

  lemma LastOfMore(h: seq<Message>, next: seq<Message>, rest: seq<seq<Message>>)
    ensures Last(h, [next] + rest) == Last(next, rest)
  {
  }

  /** The successive histories the signal handlers of a turn leave. */
  function HandlerCommits(h: seq<Message>, active: seq<Call>, outcomeOf: Call -> ToolOutcome): (r: seq<seq<Message>>)
    requires h != []
    ensures Last(h, r) != []
    decreases |active|
  {
    if active == [] then []
    else
      match outcomeOf(active[0]).handler
      case NoHandler => HandlerCommits(h, active[1..], outcomeOf)
      case Compact(level, nextStep, summary) =>
        var next := Compacted(h, level, nextStep, summary);
        LastOfMore(h, next, HandlerCommits(next, active[1..], outcomeOf));
        [next] + HandlerCommits(next, active[1..], outcomeOf)
  }

  predicate HasTerminal(active: seq<Call>, outcomeOf: Call -> ToolOutcome) {
    exists c :: c in active && outcomeOf(c).terminalFailure
  }

  predicate Goes(active: seq<Call>, turn: Turn)
    requires turn.CalledTools?
  {
    !HasTerminal(active, turn.outcomeOf) && !turn.abortedAfter
  }

  /** What a committed tool turn goes on to commit, and whether the loop goes on. */
  function AfterResults(h: seq<Message>, turn: Turn): (r: (seq<seq<Message>>, bool))
    requires h != [] && turn.CalledTools?
    ensures Last(h, r.0) != []
  {
    var active := Active(turn.calls);
    if !Goes(active, turn) then ([], false)
    else if turn.throws.InHandler? && turn.throws.k < |active| then
      (HandlerCommits(h, active[..turn.throws.k], turn.outcomeOf), false)
    else (HandlerCommits(h, active, turn.outcomeOf), true)
  }

  function EndCommits(h: seq<Message>, text: string, kept: bool): seq<seq<Message>> {
    if kept then [h + [AI(text, [], None)]] else []
  }

  function AfterCommit(h: seq<Message>, turn: Turn): (r: (seq<seq<Message>>, bool))
    requires h != [] && turn.CalledTools?
    ensures Last(h, r.0) != []
  {
    if turn.throws.AtResult? && turn.throws.k < |Active(turn.calls)| then ([], false) else AfterResults(h, turn)
  }

  /** The histories one turn commits, and whether the loop goes on. */
  function TurnCommits(h: seq<Message>, turn: Turn): (r: (seq<seq<Message>>, bool))
    requires h != []
    ensures Last(h, r.0) != []
  {
    match turn
    case StreamThrows(_) => ([], false)
    case Refused(_, text) => (EndCommits(h, text, text != ""), false)
    case Answered(_, text) => (EndCommits(h, text, true), false)
    case CalledTools(_, text, calls, _, outcomeOf, _, throws) =>
      var active := Active(calls);
      var committed := h + ToolTurn(text, active, outcomeOf);
      if throws.AtStart? && throws.k < |active| then ([], false)
      else
        var (after, goesOn) := AfterCommit(committed, turn);
        LastOfMore(h, committed, after);
        ([committed] + after, goesOn)
  }

  /** Everything the loop commits from iteration `k` on, if nobody abandons it. */
  function LoopCommits(h: seq<Message>, world: World, k: nat, maxIterations: nat): seq<seq<Message>>
    requires h != []
    decreases maxIterations - k
  {
    if k >= maxIterations then
      ClosingCommits(h, world.synthesis)
    else
      var (commits, goesOn) := TurnCommits(h, world.turns(k));
      if goesOn then commits + LoopCommits(Last(h, commits), world, k + 1, maxIterations) else commits
  }

  /** After turn `k` the loop has committed a prefix of what it will, all of it if it stops here, and
      otherwise up to what the next turns commit. */
  lemma TurnTaken(h: seq<Message>, made: seq<seq<Message>>, commits: seq<seq<Message>>, world: World, k: nat,
                  maxIterations: nat, abandoned: bool, goesOn: bool)
    requires h != [] && made != [] && made[|made| - 1] == h && k < maxIterations
    requires var turn := TurnCommits(h, world.turns(k));
             && commits <= made + turn.0
             && (!abandoned ==> commits == made + turn.0 && goesOn == turn.1)
    ensures var all := made + LoopCommits(h, world, k, maxIterations);
            && commits <= all
            && (!abandoned && !goesOn ==> commits == all)
            && (!abandoned && goesOn ==>
                  && commits != [] && commits[|commits| - 1] != []
                  && commits + LoopCommits(commits[|commits| - 1], world, k + 1, maxIterations) == all)
  {
    var (turn, on) := TurnCommits(h, world.turns(k));
    var rest := if on then LoopCommits(Last(h, turn), world, k + 1, maxIterations) else [];
    assert LoopCommits(h, world, k, maxIterations) == turn + rest;
    PrefixOfMore(commits, made, turn, rest);
    AppendAssociates(made, turn, rest);
    if !abandoned && turn != [] {
      AppendLast(made, turn);
    }
  }

  /** Everything a whole run commits. */
  function RunCommits(h: seq<Message>, userInput: string, world: World, maxIterations: nat): seq<seq<Message>>
    requires h != []
  {
    if world.blocked || world.setupThrows then []
    else
      var asked := h + [Human(userInput, None)];
      [asked] + LoopCommits(asked, world, 0, maxIterations)
  }

  // ---------------------------------------------------------------------------------------------
  // What those histories say.

  /** A turn goes on to the next exactly if it called tools, none of which failed for good, nothing threw and
      nobody pressed stop. */
  ghost predicate GoesOn(turn: Turn) {
    && turn.CalledTools? && !turn.abortedAfter
    && (forall c :: c in Active(turn.calls) ==> !turn.outcomeOf(c).terminalFailure)
    && (turn.throws.Nowhere? || turn.throws.k >= |Active(turn.calls)|)
  }

  lemma TurnGoesOnIff(h: seq<Message>, turn: Turn)
    requires h != []
    ensures TurnCommits(h, turn).1 <==> GoesOn(turn)
  {
  }

  /** An answer or a refusal adds the model's text and nothing else; a refusal without text adds nothing. */
  lemma AnswerIsCommitted(h: seq<Message>, turn: Turn)
    requires h != [] && !turn.CalledTools?
    ensures TurnCommits(h, turn).0 == if turn.Answered? || (turn.Refused? && turn.text != "")
                                      then [h + [AI(turn.text, [], None)]] else []
  {
  }

  /** A tool turn that did not throw before its tools ran first adds the model's text with the calls it ran, and
      each call's own result under its id, in call order. */
  lemma ToolTurnIsCommitted(h: seq<Message>, turn: Turn)
    requires h != [] && turn.CalledTools? && !(turn.throws.AtStart? && turn.throws.k < |Active(turn.calls)|)
    ensures TurnCommits(h, turn).0 != []
    ensures var active, first := Active(turn.calls), TurnCommits(h, turn).0[0];
            && |first| == |h| + 1 + |active| && first[..|h|] == h && first[|h|] == AI(turn.text, active, None)
            && forall i :: 0 <= i < |active| ==>
                 first[|h| + 1 + i] == Tool(active[i].id, Text(turn.outcomeOf(active[i]).result), None)
  {
    ToolTurnSays(turn.text, Active(turn.calls), turn.outcomeOf);
  }

  /** How many of the first `n` calls ask for compaction. */
  function Compactions(active: seq<Call>, outcomeOf: Call -> ToolOutcome, n: nat): nat
    requires n <= |active|
  {
    if n == 0 then 0
    else Compactions(active, outcomeOf, n - 1) + if outcomeOf(active[n - 1]).handler.Compact? then 1 else 0
  }

  lemma {:induction false} CompactionsOfRest(active: seq<Call>, outcomeOf: Call -> ToolOutcome, n: nat)
    requires 0 < n <= |active|
    ensures Compactions(active, outcomeOf, n) ==
            Compactions(active[1..], outcomeOf, n - 1) + if outcomeOf(active[0]).handler.Compact? then 1 else 0
  {
    if n > 1 {
      CompactionsOfRest(active, outcomeOf, n - 1);
    }
  }

  /** The signal handlers of a turn leave one history for each call that asks for compaction, in call order, each
      the compaction it asks for of the one before. */
  lemma {:induction false} HandlersCompactInOrder(h: seq<Message>, active: seq<Call>, outcomeOf: Call -> ToolOutcome, i: nat)
    requires h != [] && i < |active| && outcomeOf(active[i]).handler.Compact?
    ensures var commits, j := HandlerCommits(h, active, outcomeOf), Compactions(active, outcomeOf, i);
            var asked := outcomeOf(active[i]).handler;
            && j < |commits| && Last(h, commits[..j]) != []
            && commits[j] == Compacted(Last(h, commits[..j]), asked.level, asked.nextStep, asked.summary)
    decreases |active|
  {
    var commits, rest := HandlerCommits(h, active, outcomeOf), active[1..];
    if i > 0 {
      CompactionsOfRest(active, outcomeOf, i);
      var j := Compactions(active, outcomeOf, i);
      match outcomeOf(active[0]).handler {
        case NoHandler =>
          HandlersCompactInOrder(h, rest, outcomeOf, i - 1);
        case Compact(level, nextStep, summary) =>
          var next := Compacted(h, level, nextStep, summary);
          var later := HandlerCommits(next, rest, outcomeOf);
          HandlersCompactInOrder(next, rest, outcomeOf, i - 1);
          assert commits == [next] + later;
          assert commits[..j] == [next] + later[..j - 1];
      }
    }
  }

  lemma {:induction false} HandlersCompactOnly(h: seq<Message>, active: seq<Call>, outcomeOf: Call -> ToolOutcome)
    requires h != []
    ensures |HandlerCommits(h, active, outcomeOf)| == Compactions(active, outcomeOf, |active|)
    decreases |active|
  {
    if active != [] {
      CompactionsOfRest(active, outcomeOf, |active|);
      match outcomeOf(active[0]).handler {
        case NoHandler => HandlersCompactOnly(h, active[1..], outcomeOf);
        case Compact(level, nextStep, summary) =>
          HandlersCompactOnly(Compacted(h, level, nextStep, summary), active[1..], outcomeOf);
      }
    }
  }

  /** The history before turn `k`, if all before it go on. */
  function HistoryBefore(h: seq<Message>, world: World, k: nat): (r: seq<Message>)
    requires h != []
    ensures r != []
  {
    if k == 0 then h
    else
      var before := HistoryBefore(h, world, k - 1);
      Last(before, TurnCommits(before, world.turns(k - 1)).0)
  }

  /** What the first `n` turns commit, one after the other. */
  function TurnsCommit(h: seq<Message>, world: World, n: nat): seq<seq<Message>>
    requires h != []
  {
    if n == 0 then []
    else TurnsCommit(h, world, n - 1) + TurnCommits(HistoryBefore(h, world, n - 1), world.turns(n - 1)).0
  }

  lemma LoopOnce(h: seq<Message>, world: World, k: nat, maxIterations: nat)
    requires h != [] && k < maxIterations && GoesOn(world.turns(k))
    ensures LoopCommits(h, world, k, maxIterations) ==
            TurnCommits(h, world.turns(k)).0 +
            LoopCommits(Last(h, TurnCommits(h, world.turns(k)).0), world, k + 1, maxIterations)
  {
    TurnGoesOnIff(h, world.turns(k));
  }

  lemma OneTurnMore(h: seq<Message>, world: World, n: nat)
    requires h != []
    ensures var before := HistoryBefore(h, world, n);
            && TurnsCommit(h, world, n + 1) == TurnsCommit(h, world, n) + TurnCommits(before, world.turns(n)).0
            && HistoryBefore(h, world, n + 1) == Last(before, TurnCommits(before, world.turns(n)).0)
  {
  }

  lemma {:induction false} LoopFromTurn(h: seq<Message>, world: World, maxIterations: nat, n: nat)
    requires h != [] && n <= maxIterations && forall k: nat :: k < n ==> GoesOn(world.turns(k))
    ensures LoopCommits(h, world, 0, maxIterations) ==
            TurnsCommit(h, world, n) + LoopCommits(HistoryBefore(h, world, n), world, n, maxIterations)
  {
    if n == 0 {
      assert TurnsCommit(h, world, 0) == [];
    } else {
      var last := n - 1;
      var before := HistoryBefore(h, world, last);
      LoopFromTurn(h, world, maxIterations, last);
      LoopOnce(before, world, last, maxIterations);
      OneTurnMore(h, world, last);
      AppendAssociates(TurnsCommit(h, world, last), TurnCommits(before, world.turns(last)).0,
                       LoopCommits(HistoryBefore(h, world, n), world, n, maxIterations));
    }
  }

  /** The loop takes its turns one by one up to the first that does not go on, and commits what they commit. If
      all up to the limit go on, there is no turn more, and the closing summary is all that follows. */
  lemma LoopTakesTurns(h: seq<Message>, world: World, maxIterations: nat, n: nat)
    requires h != [] && n <= maxIterations && forall k: nat :: k < n ==> GoesOn(world.turns(k))
    requires n < maxIterations ==> !GoesOn(world.turns(n))
    ensures LoopCommits(h, world, 0, maxIterations) ==
            if n < maxIterations then TurnsCommit(h, world, n + 1)
            else TurnsCommit(h, world, n) +
                 (if world.synthesis.Summarised? && world.synthesis.text != ""
                  then [HistoryBefore(h, world, n) + [AI(world.synthesis.text, [], None)]] else [])
  {
    LoopFromTurn(h, world, maxIterations, n);
    TurnGoesOnIff(HistoryBefore(h, world, n), world.turns(n));
  }

  /** A run first adds what the user said, unless it is stopped before it begins. */
  lemma RunOpensWithInput(h: seq<Message>, userInput: string, world: World, maxIterations: nat)
    requires h != []
    ensures var commits := RunCommits(h, userInput, world, maxIterations);
            if world.blocked || world.setupThrows then commits == []
            else commits != [] && commits[0] == h + [Human(userInput, None)]
                 && commits[1..] == LoopCommits(commits[0], world, 0, maxIterations)
  {
  }

  /** Where a run starts and what it meets. */
  datatype Source = Source(before: seq<Message>, userInput: string, world: World, limit: nat)

  /** `m` is what a compaction asked for by call `c` puts in place of the history. */
  ghost predicate IsBrief(m: Message, outcome: ToolOutcome) {
    outcome.handler.Compact? && outcome.handler.summary.Some? &&
    (m == Human(outcome.handler.summary.value, None)
     || m == Human(outcome.handler.summary.value + "\n\nNext step: " + outcome.handler.nextStep, None))
  }

  /** `m` comes of turn `turn`: the model's own words, with the calls that ran if it called any; the result of a
      call that ran, under its id; or the brief of a compaction one asked for. */
  ghost predicate ComesOfTurn(m: Message, turn: Turn) {
    match turn
    case StreamThrows(_) => false
    case Refused(_, text) => m == AI(text, [], None)
    case Answered(_, text) => m == AI(text, [], None)
    case CalledTools(_, text, calls, _, outcomeOf, _, _) =>
      || m == AI(text, Active(calls), None)
      || (exists c :: c in Active(calls) && m == Tool(c.id, Text(outcomeOf(c).result), None))
      || (exists c :: c in Active(calls) && IsBrief(m, outcomeOf(c)))
  }

  /** `m` was there before, or is the user's input, or comes of a turn below the limit, or is the closing summary. */
  ghost predicate Comes(src: Source, m: Message) {
    || m in src.before
    || m == Human(src.userInput, None)
    || (exists k: nat :: k < src.limit && ComesOfTurn(m, src.world.turns(k)))
    || (src.world.synthesis.Summarised? && m == AI(src.world.synthesis.text, [], None))
  }

  /** `m` is such a message, or such a tool result with its output cleared. */
  ghost predicate Accounted(src: Source, m: Message) {
    Comes(src, m) || exists original :: Comes(src, original) && IsClearedForm(m, original)
  }

  predicate IsClearedForm(m: Message, original: Message) {
    original.Tool? && m == original.(content := Text(CLEARED))
  }

  ghost predicate AllAccounted(src: Source, h: seq<Message>) {
    forall i {:trigger Accounted(src, h[i])} :: 0 <= i < |h| ==> Accounted(src, h[i])
  }

  ghost predicate CommitsAccounted(src: Source, commits: seq<seq<Message>>) {
    forall i {:trigger AllAccounted(src, commits[i])} :: 0 <= i < |commits| ==> AllAccounted(src, commits[i])
  }

  lemma AccountedAppend(src: Source, a: seq<Message>, b: seq<Message>)
    requires AllAccounted(src, a) && AllAccounted(src, b)
    ensures AllAccounted(src, a + b)
  {
    forall i | 0 <= i < |a + b|
      ensures Accounted(src, (a + b)[i])
    {
      assert if i < |a| then Accounted(src, a[i]) else Accounted(src, b[i - |a|]);
    }
  }

  lemma CommitsAppend(src: Source, a: seq<seq<Message>>, b: seq<seq<Message>>)
    requires CommitsAccounted(src, a) && CommitsAccounted(src, b)
    ensures CommitsAccounted(src, a + b)
  {
    forall i | 0 <= i < |a + b|
      ensures AllAccounted(src, (a + b)[i])
    {
      assert if i < |a| then AllAccounted(src, a[i]) else AllAccounted(src, b[i - |a|]);
    }
  }

  lemma OneCommit(src: Source, h: seq<Message>)
    requires AllAccounted(src, h)
    ensures CommitsAccounted(src, [h])
  {
  }

  lemma LastAccounted(src: Source, h: seq<Message>, commits: seq<seq<Message>>)
    requires AllAccounted(src, h) && CommitsAccounted(src, commits)
    ensures AllAccounted(src, Last(h, commits))
  {
    assert commits != [] ==> AllAccounted(src, commits[|commits| - 1]);
  }

  lemma OneAccounted(src: Source, m: Message)
    requires Comes(src, m)
    ensures AllAccounted(src, [m])
  {
    assert Accounted(src, m);
  }

  lemma ClearedAccounted(src: Source, m: Message)
    requires Accounted(src, m) && m.Tool?
    ensures Accounted(src, m.(content := Text(CLEARED)))
  {
    var cleared := m.(content := Text(CLEARED));
    if Comes(src, m) {
      assert IsClearedForm(cleared, m);
    } else {
      var original :| Comes(src, original) && IsClearedForm(m, original);
      assert IsClearedForm(cleared, original);
    }
  }

  lemma StrippedAccounted(src: Source, h: seq<Message>)
    requires AllAccounted(src, h)
    ensures AllAccounted(src, Stripped(h))
  {
    forall i | 0 <= i < |h|
      ensures Accounted(src, Stripped(h)[i])
    {
      assert Accounted(src, h[i]);
      StripClearsExactly(h, i);
      if Clears(h, h[i]) {
        ClearedAccounted(src, h[i]);
      }
    }
  }

  lemma CompactedAccounted(src: Source, h: seq<Message>, outcome: ToolOutcome)
    requires h != [] && AllAccounted(src, h) && outcome.handler.Compact?
    requires forall m :: IsBrief(m, outcome) ==> Comes(src, m)
    ensures AllAccounted(src, Compacted(h, outcome.handler.level, outcome.handler.nextStep, outcome.handler.summary))
  {
    var (level, nextStep, summary) := (outcome.handler.level, outcome.handler.nextStep, outcome.handler.summary);
    if level.Light? {
      StrippedAccounted(src, h);
    } else if summary.Some? {
      assert AllAccounted(src, [h[0]]) by {
        assert Accounted(src, h[0]);
      }
      if level.Hard? || Cut(h) >= |h| {
        OneAccounted(src, Brief(summary.value, nextStep));
        AccountedAppend(src, [h[0]], [Brief(summary.value, nextStep)]);
      } else {
        KeptAccounted(src, h, summary.value);
      }
    }
  }

  lemma KeptAccounted(src: Source, h: seq<Message>, summary: string)
    requires AllAccounted(src, h) && Cut(h) < |h| && Comes(src, Human(summary, None))
    ensures AllAccounted(src, Stripped([h[0], Human(summary, None)] + h[Cut(h)..]))
  {
    var tail := h[Cut(h)..];
    forall i | 0 <= i < |tail|
      ensures Accounted(src, tail[i])
    {
      assert Accounted(src, h[Cut(h) + i]);
    }
    assert Accounted(src, h[0]) && Accounted(src, Human(summary, None));
    AccountedAppend(src, [h[0], Human(summary, None)], tail);
    StrippedAccounted(src, [h[0], Human(summary, None)] + tail);
  }

  lemma {:induction false} HandlersAccounted(src: Source, k: nat, h: seq<Message>, active: seq<Call>)
    requires h != [] && AllAccounted(src, h) && k < src.limit && src.world.turns(k).CalledTools?
    requires forall c :: c in active ==> c in Active(src.world.turns(k).calls)
    ensures CommitsAccounted(src, HandlerCommits(h, active, src.world.turns(k).outcomeOf))
    decreases |active|
  {
    var turn := src.world.turns(k);
    if active != [] {
      match turn.outcomeOf(active[0]).handler {
        case NoHandler => HandlersAccounted(src, k, h, active[1..]);
        case Compact(level, nextStep, summary) =>
          var next := Compacted(h, level, nextStep, summary);
          forall m | IsBrief(m, turn.outcomeOf(active[0]))
            ensures Comes(src, m)
          {
            assert ComesOfTurn(m, turn);
          }
          CompactedAccounted(src, h, turn.outcomeOf(active[0]));
          HandlersAccounted(src, k, next, active[1..]);
          OneCommit(src, next);
          CommitsAppend(src, [next], HandlerCommits(next, active[1..], turn.outcomeOf));
      }
    }
  }

  lemma ToolTurnAccounted(src: Source, k: nat)
    requires k < src.limit && src.world.turns(k).CalledTools?
    ensures var turn := src.world.turns(k); AllAccounted(src, ToolTurn(turn.text, Active(turn.calls), turn.outcomeOf))
  {
    var turn := src.world.turns(k);
    var active, said := Active(turn.calls), ToolTurn(turn.text, Active(turn.calls), turn.outcomeOf);
    forall i | 0 <= i < |said|
      ensures Accounted(src, said[i])
    {
      if i == 0 {
        assert ComesOfTurn(said[0], turn);
      } else {
        assert active[i - 1] in active && said[i] == Tool(active[i - 1].id, Text(turn.outcomeOf(active[i - 1]).result), None);
        assert ComesOfTurn(said[i], turn);
      }
    }
  }

  lemma AfterCommitAccounted(src: Source, k: nat, h: seq<Message>)
    requires h != [] && AllAccounted(src, h) && k < src.limit && src.world.turns(k).CalledTools?
    ensures CommitsAccounted(src, AfterCommit(h, src.world.turns(k)).0)
  {
    var turn := src.world.turns(k);
    var active := Active(turn.calls);
    if turn.throws.InHandler? && turn.throws.k < |active| {
      HandlersAccounted(src, k, h, active[..turn.throws.k]);
    }
    HandlersAccounted(src, k, h, active);
  }

  lemma TurnAccounted(src: Source, k: nat, h: seq<Message>)
    requires h != [] && AllAccounted(src, h) && k < src.limit
    ensures CommitsAccounted(src, TurnCommits(h, src.world.turns(k)).0)
  {
    var turn := src.world.turns(k);
    if turn.CalledTools? {
      var committed := h + ToolTurn(turn.text, Active(turn.calls), turn.outcomeOf);
      ToolTurnAccounted(src, k);
      AccountedAppend(src, h, ToolTurn(turn.text, Active(turn.calls), turn.outcomeOf));
      AfterCommitAccounted(src, k, committed);
      OneCommit(src, committed);
      CommitsAppend(src, [committed], AfterCommit(committed, turn).0);
    } else if !turn.StreamThrows? {
      var m := AI(turn.text, [], None);
      assert ComesOfTurn(m, turn);
      OneAccounted(src, m);
      AccountedAppend(src, h, [m]);
      OneCommit(src, h + [m]);
    }
  }

  lemma {:induction false} LoopAccounted(src: Source, k: nat, h: seq<Message>)
    requires h != [] && AllAccounted(src, h)
    ensures CommitsAccounted(src, LoopCommits(h, src.world, k, src.limit))
    decreases src.limit - k
  {
    if k >= src.limit {
      if src.world.synthesis.Summarised? {
        var m := AI(src.world.synthesis.text, [], None);
        OneAccounted(src, m);
        AccountedAppend(src, h, [m]);
        OneCommit(src, h + [m]);
      }
    } else {
      var (commits, goesOn) := TurnCommits(h, src.world.turns(k));
      TurnAccounted(src, k, h);
      if goesOn {
        LastAccounted(src, h, commits);
        LoopAccounted(src, k + 1, Last(h, commits));
        CommitsAppend(src, commits, LoopCommits(Last(h, commits), src.world, k + 1, src.limit));
      }
    }
  }

  /** Every message of every history a run commits is accounted for. A tool result in particular is the result of
      the very call whose id it bears, or that with its output cleared; nothing is attributed to another call. */
  lemma RunIsAccounted(src: Source)
    requires src.before != []
    ensures CommitsAccounted(src, RunCommits(src.before, src.userInput, src.world, src.limit))
  {
    var asked := src.before + [Human(src.userInput, None)];
    forall i | 0 <= i < |src.before|
      ensures Accounted(src, src.before[i])
    {}
    OneAccounted(src, Human(src.userInput, None));
    AccountedAppend(src, src.before, [Human(src.userInput, None)]);
    LoopAccounted(src, 0, asked);
    OneCommit(src, asked);
    CommitsAppend(src, [asked], LoopCommits(asked, src.world, 0, src.limit));
  }

  // ---------------------------------------------------------------------------------------------
  // What the consumer can see: the history standing at each yield, as a function of the world.

  /** `n` yields with the same history standing. */
  function Shows(h: seq<Message>, n: nat): (r: seq<seq<Message>>)
    ensures |r| == n
  {
    if n == 0 then [] else Shows(h, n - 1) + [h]
  }

  lemma {:induction false} ShowsAdd(h: seq<Message>, m: nat, n: nat)
    ensures Shows(h, m) + Shows(h, n) == Shows(h, m + n)
  {
    if n > 0 {
      ShowsAdd(h, m, n - 1);
      AppendAssociates(Shows(h, m), Shows(h, n - 1), [h]);
    }
  }

  /** How many model calls the handlers of the first `n` calls make for a summary. */
  function Measured(active: seq<Call>, outcomeOf: Call -> ToolOutcome, n: nat): nat
    requires n <= |active|
  {
    if n == 0 then 0
    else
      Measured(active, outcomeOf, n - 1) +
      match outcomeOf(active[n - 1]).handler
      case NoHandler => 0
      case Compact(level, _, summary) => if !level.Light? && summary.Some? then 1 else 0
  }

  predicate MakesSummary(outcome: ToolOutcome) {
    outcome.handler.Compact? && !outcome.handler.level.Light? && outcome.handler.summary.Some?
  }

  /** The calls among the first `n` whose compaction had a summary made. */
  function SummariesMade(active: seq<Call>, outcomeOf: Call -> ToolOutcome, n: nat): set<nat>
    requires n <= |active|
  {
    set i: nat | i < n && MakesSummary(outcomeOf(active[i]))
  }

  lemma {:induction false} MeasuredIs(active: seq<Call>, outcomeOf: Call -> ToolOutcome, n: nat)
    requires n <= |active|
    ensures Measured(active, outcomeOf, n) == |SummariesMade(active, outcomeOf, n)|
  {
    if n == 0 {
      assert SummariesMade(active, outcomeOf, 0) == {};
    } else {
      var last: nat := n - 1;
      var before := SummariesMade(active, outcomeOf, last);
      MeasuredIs(active, outcomeOf, last);
      if MakesSummary(outcomeOf(active[last])) {
        assert SummariesMade(active, outcomeOf, n) == before + {last};
      } else {
        assert SummariesMade(active, outcomeOf, n) == before;
      }
    }
  }

  /** After the results: an error and `done`, `done` alone, or the cost of each summary the handlers made. */
  function AfterResultsShows(h: seq<Message>, turn: Turn): seq<seq<Message>>
    requires h != [] && turn.CalledTools?
  {
    var active := Active(turn.calls);
    var last := Last(h, AfterResults(h, turn).0);
    if HasTerminal(active, turn.outcomeOf) then Shows(h, 2)
    else if turn.abortedAfter then Shows(h, 1)
    else if turn.throws.InHandler? && turn.throws.k < |active| then Shows(last, 2)
    else Shows(last, Measured(active, turn.outcomeOf, |active|))
  }

  /** After the commit: one event a result and the turn's cost, then what follows. */
  function CommittedShows(h: seq<Message>, turn: Turn): seq<seq<Message>>
    requires h != [] && turn.CalledTools?
  {
    var n := |Active(turn.calls)|;
    if turn.throws.AtResult? && turn.throws.k < n then Shows(h, turn.throws.k + 3)
    else Shows(h, n + 1) + AfterResultsShows(h, turn)
  }

  /** A tool turn: one event a call and one a link before the commit. */
  function ToolShows(h: seq<Message>, turn: Turn): seq<seq<Message>>
    requires h != [] && turn.CalledTools?
  {
    var active := Active(turn.calls);
    if turn.throws.AtStart? && turn.throws.k < |active| then Shows(h, turn.throws.k + 3)
    else
      Shows(h, |active| + turn.links) + CommittedShows(h + ToolTurn(turn.text, active, turn.outcomeOf), turn)
  }

  /** Once the model has streamed: an error and `done`, or the turn's cost and what follows, or a tool turn. */
  function StreamedShows(h: seq<Message>, turn: Turn): seq<seq<Message>>
    requires h != []
  {
    match turn
    case StreamThrows(_) => Shows(h, 2)
    case Refused(_, _) => Shows(h, 1) + Shows(Last(h, TurnCommits(h, turn).0), 2)
    case Answered(_, _) => Shows(h, 1) + Shows(Last(h, TurnCommits(h, turn).0), 1)
    case CalledTools(_, _, _, _, _, _, _) => ToolShows(h, turn)
  }

  function TurnShows(h: seq<Message>, turn: Turn): seq<seq<Message>>
    requires h != []
  {
    Shows(h, turn.streamed) + StreamedShows(h, turn)
  }

  /** After `limit_reached` and the tokens: the summary's cost if it came or the error if one is due, `done`. */
  function ClosingShows(h: seq<Message>, synthesis: Synthesis): seq<seq<Message>> {
    match synthesis
    case Summarised(text, _) => if text != "" then Shows(h + [AI(text, [], None)], 2) else Shows(h, 1)
    case SynthesisFails(_, classified) => Shows(h, if classified then 2 else 1)
  }

  function ClosingCommits(h: seq<Message>, synthesis: Synthesis): seq<seq<Message>> {
    if synthesis.Summarised? && synthesis.text != "" then [h + [AI(synthesis.text, [], None)]] else []
  }

  function LimitShows(h: seq<Message>, synthesis: Synthesis): seq<seq<Message>> {
    Shows(h, 1) + Shows(h, synthesis.tokens) + ClosingShows(h, synthesis)
  }

  function LoopShows(h: seq<Message>, world: World, k: nat, maxIterations: nat): seq<seq<Message>>
    requires h != []
    decreases maxIterations - k
  {
    if k >= maxIterations then LimitShows(h, world.synthesis)
    else
      var (commits, goesOn) := TurnCommits(h, world.turns(k));
      TurnShows(h, world.turns(k)) + if goesOn then LoopShows(Last(h, commits), world, k + 1, maxIterations) else []
  }

  function RunShows(h: seq<Message>, userInput: string, world: World, maxIterations: nat): seq<seq<Message>>
    requires h != []
  {
    if world.setupThrows then []
    else if world.blocked then Shows(h, 2)
    else LoopShows(h + [Human(userInput, None)], world, 0, maxIterations)
  }

  lemma {:induction false} ShowsAt(h: seq<Message>, n: nat, i: nat)
    requires i < n
    ensures Shows(h, n)[i] == h
  {
    if i < n - 1 {
      ShowsAt(h, n - 1, i);
    }
  }

  /** How often the other turns yield, and the limit: the events streamed, then an error and `done`; or the cost, an
      error and `done`; or the cost and `done`. At the limit: that it was reached, the tokens of the summary, its cost
      or the error if there is one, and `done`. */
  lemma OtherTurnsAreShown(h: seq<Message>, turn: Turn, synthesis: Synthesis)
    requires h != []
    ensures turn.StreamThrows? ==> |TurnShows(h, turn)| == turn.streamed + 2
    ensures turn.Refused? ==> |TurnShows(h, turn)| == turn.streamed + 3
    ensures turn.Answered? ==> |TurnShows(h, turn)| == turn.streamed + 2
    ensures synthesis.Summarised? ==> |LimitShows(h, synthesis)| == synthesis.tokens + if synthesis.text != "" then 3 else 2
    ensures synthesis.SynthesisFails? ==> |LimitShows(h, synthesis)| == synthesis.tokens + if synthesis.classified then 3 else 2
  {
  }

  lemma ShownInParts(h: seq<Message>, g: seq<Message>, a: nat, b: nat, c: nat, rest: seq<seq<Message>>, i: nat)
    requires i < a + b + c
    ensures var all := Shows(h, a) + (Shows(h, b) + (Shows(g, c) + rest));
            |all| == a + b + c + |rest| && all[i] == if i < a + b then h else g
  {
    if i < a {
      ShowsAt(h, a, i);
    } else if i < a + b {
      ShowsAt(h, b, i - a);
    } else {
      ShowsAt(g, c, i - a - b);
    }
  }

  /** A tool turn that goes on yields once for each event the model streams, each call it starts, each link, each
      result, once for its cost and once for each summary; all before the results with the history as it was, the
      results and the cost with the whole turn in it. */
  lemma ToolTurnIsShown(h: seq<Message>, turn: Turn, i: nat)
    requires h != [] && GoesOn(turn)
    requires i <= turn.streamed + 2 * |Active(turn.calls)| + turn.links
    ensures var n, shown := |Active(turn.calls)|, TurnShows(h, turn);
            && |shown| == turn.streamed + n + turn.links + n + 1 + Measured(Active(turn.calls), turn.outcomeOf, n)
            && TurnCommits(h, turn).0 != []
            && shown[i] == if i < turn.streamed + n + turn.links then h else TurnCommits(h, turn).0[0]
  {
    var active := Active(turn.calls);
    var n, committed := |active|, h + ToolTurn(turn.text, active, turn.outcomeOf);
    ShownInParts(h, committed, turn.streamed, n + turn.links, n + 1, AfterResultsShows(committed, turn), i);
  }

  /** A stretch of a run that shows `all` was seen by a consumer who goes away at yield number `patience`:
      whole, or cut there and abandoned. */
  ghost predicate Seen(was: seq<seq<Message>>, now: seq<seq<Message>>, all: seq<seq<Message>>, patience: nat, abandoned: bool)
    requires |was| < patience
  {
    && (abandoned <==> |was| + |all| >= patience)
    && now == was + if abandoned then all[..patience - |was|] else all
  }

  lemma SeenNothing(was: seq<seq<Message>>, patience: nat)
    requires |was| < patience
    ensures Seen(was, was, [], patience, false)
  {
  }

  lemma SeenOn(was: seq<seq<Message>>, middle: seq<seq<Message>>, now: seq<seq<Message>>,
               a: seq<seq<Message>>, b: seq<seq<Message>>, patience: nat, abandoned: bool)
    requires |was| < patience && Seen(was, middle, a, patience, false) && Seen(middle, now, b, patience, abandoned)
    ensures Seen(was, now, a + b, patience, abandoned)
  {
    if abandoned {
      assert (a + b)[..patience - |was|] == a + b[..patience - |middle|];
      AppendAssociates(was, a, b[..patience - |middle|]);
    } else {
      AppendAssociates(was, a, b);
    }
  }

  lemma SeenEnough(was: seq<seq<Message>>, now: seq<seq<Message>>, a: seq<seq<Message>>, b: seq<seq<Message>>, patience: nat)
    requires |was| < patience && Seen(was, now, a, patience, true)
    ensures Seen(was, now, a + b, patience, true)
  {
    assert (a + b)[..patience - |was|] == a[..patience - |was|];
  }

  /** One turn more has been seen, or as much of it as the consumer stayed for. */
  lemma TurnSeen(was: seq<seq<Message>>, middle: seq<seq<Message>>, now: seq<seq<Message>>, shown: seq<seq<Message>>,
                 h: seq<Message>, world: World, k: nat, maxIterations: nat, patience: nat, abandoned: bool)
    requires |was| < patience && Seen(was, middle, shown, patience, false) && h != [] && k < maxIterations
    requires Seen(middle, now, TurnShows(h, world.turns(k)), patience, abandoned)
    ensures var turn := TurnShows(h, world.turns(k));
            var all := shown + LoopShows(h, world, k, maxIterations);
            var (commits, goesOn) := TurnCommits(h, world.turns(k));
            && Seen(was, now, shown + turn, patience, abandoned)
            && (abandoned || !goesOn ==> Seen(was, now, all, patience, abandoned))
            && (goesOn ==> shown + turn + LoopShows(Last(h, commits), world, k + 1, maxIterations) == all)
  {
    var turn := TurnShows(h, world.turns(k));
    var (commits, goesOn) := TurnCommits(h, world.turns(k));
    var rest := if goesOn then LoopShows(Last(h, commits), world, k + 1, maxIterations) else [];
    SeenOn(was, middle, now, shown, turn, patience, abandoned);
    AppendAssociates(shown, turn, rest);
    if abandoned {
      SeenEnough(was, now, shown + turn, rest, patience);
    }
  }

  /** The loop before iteration `k`: what it has committed and what it has shown, `shown`, go on to `full` and `all`. */
  ghost predicate Underway(h: seq<Message>, commits: seq<seq<Message>>, was: seq<seq<Message>>, seen: seq<seq<Message>>,
                           shown: seq<seq<Message>>, world: World, k: nat, maxIterations: nat,
                           full: seq<seq<Message>>, all: seq<seq<Message>>, patience: nat)
  {
    && h != [] && commits != [] && commits[|commits| - 1] == h && |was| < patience
    && commits + LoopCommits(h, world, k, maxIterations) == full
    && Seen(was, seen, shown, patience, false) && shown + LoopShows(h, world, k, maxIterations) == all
  }

  ghost predicate Ended(commits: seq<seq<Message>>, was: seq<seq<Message>>, seen: seq<seq<Message>>,
                        full: seq<seq<Message>>, all: seq<seq<Message>>, patience: nat, abandoned: bool)
    requires |was| < patience
  {
    commits <= full && (!abandoned ==> commits == full) && Seen(was, seen, all, patience, abandoned)
  }

  lemma TurnStep(h: seq<Message>, made: seq<seq<Message>>, was: seq<seq<Message>>, middle: seq<seq<Message>>,
                 shown: seq<seq<Message>>, world: World, k: nat, maxIterations: nat,
                 full: seq<seq<Message>>, all: seq<seq<Message>>, patience: nat,
                 commits: seq<seq<Message>>, seen: seq<seq<Message>>, abandoned: bool, goesOn: bool)
    requires k < maxIterations && |middle| < patience
    requires Underway(h, made, was, middle, shown, world, k, maxIterations, full, all, patience)
    requires Seen(middle, seen, TurnShows(h, world.turns(k)), patience, abandoned)
    requires var turn := TurnCommits(h, world.turns(k));
             && commits <= made + turn.0
             && (!abandoned ==> commits == made + turn.0 && goesOn == turn.1)
    ensures abandoned || !goesOn ==> Ended(commits, was, seen, full, all, patience, abandoned)
    ensures !abandoned && goesOn ==>
              commits != [] && Underway(commits[|commits| - 1], commits, was, seen, shown + TurnShows(h, world.turns(k)),
                                        world, k + 1, maxIterations, full, all, patience)
  {
    TurnTaken(h, made, commits, world, k, maxIterations, abandoned, goesOn);
    TurnSeen(was, middle, seen, shown, h, world, k, maxIterations, patience, abandoned);
    if !abandoned && goesOn {
      LastCommitted(h, made, TurnCommits(h, world.turns(k)).0);
    }
  }

  lemma LastCommitted(h: seq<Message>, made: seq<seq<Message>>, more: seq<seq<Message>>)
    requires made != [] && made[|made| - 1] == h
    ensures (made + more)[|made + more| - 1] == Last(h, more)
  {
  }

  // ---------------------------------------------------------------------------------------------
  // Every history the loop commits is one a provider accepts.

  ghost predicate Sendable(h: seq<Message>) {
    WellFormed(h) && |h| > 1 && h[1].Human?
  }

  ghost predicate AllSendable(hs: seq<seq<Message>>) {
    forall i {:trigger Sendable(hs[i])} :: 0 <= i < |hs| ==> Sendable(hs[i])
  }

  lemma AllAppend(a: seq<seq<Message>>, b: seq<seq<Message>>)
    requires AllSendable(a) && AllSendable(b)
    ensures AllSendable(a + b)
  {
    forall i | 0 <= i < |a + b|
      ensures Sendable((a + b)[i])
    {
      assert if i < |a| then Sendable(a[i]) else Sendable(b[i - |a|]);
    }
  }

  lemma LastSendable(h: seq<Message>, commits: seq<seq<Message>>)
    requires Sendable(h) && AllSendable(commits)
    ensures Sendable(Last(h, commits))
  {
    assert commits != [] ==> Sendable(commits[|commits| - 1]);
  }

  lemma {:induction false} ShowsSendable(h: seq<Message>, n: nat)
    requires Sendable(h)
    ensures AllSendable(Shows(h, n))
  {
    if n > 0 {
      ShowsSendable(h, n - 1);
      AllAppend(Shows(h, n - 1), [h]);
    }
  }

  lemma AppendSendable(h: seq<Message>, block: seq<Message>)
    requires Sendable(h) && IsBlock(block)
    ensures Sendable(h + block)
  {
    AppendBlock(h, block);
  }

  lemma {:induction false} HandlersKeepSendable(h: seq<Message>, active: seq<Call>, outcomeOf: Call -> ToolOutcome)
    requires Sendable(h)
    ensures AllSendable(HandlerCommits(h, active, outcomeOf))
    decreases |active|
  {
    if active != [] {
      match outcomeOf(active[0]).handler {
        case NoHandler => HandlersKeepSendable(h, active[1..], outcomeOf);
        case Compact(level, nextStep, summary) =>
          var next := Compacted(h, level, nextStep, summary);
          CompactionKeepsSendable(h, level, nextStep, summary);
          HandlersKeepSendable(next, active[1..], outcomeOf);
          AllAppend([next], HandlerCommits(next, active[1..], outcomeOf));
      }
    }
  }

  lemma CompactionKeepsSendable(h: seq<Message>, level: Level, nextStep: string, summary: Option<string>)
    requires Sendable(h)
    ensures Sendable(Compacted(h, level, nextStep, summary))
  {
    CompactionKeepsWellFormed(h, level, nextStep, summary);
    assert |Compacted(h, level, nextStep, summary)| > 1;
  }

  lemma AfterCommitKeepsSendable(h: seq<Message>, turn: Turn)
    requires Sendable(h) && turn.CalledTools?
    ensures AllSendable(AfterCommit(h, turn).0) && AllSendable(CommittedShows(h, turn))
  {
    var active := Active(turn.calls);
    if turn.throws.InHandler? && turn.throws.k < |active| {
      HandlersKeepSendable(h, active[..turn.throws.k], turn.outcomeOf);
    }
    HandlersKeepSendable(h, active, turn.outcomeOf);
    var last := Last(h, AfterResults(h, turn).0);
    LastSendable(h, AfterResults(h, turn).0);
    forall n: nat | true
      ensures AllSendable(Shows(h, n)) && AllSendable(Shows(last, n))
    {
      ShowsSendable(h, n);
      ShowsSendable(last, n);
    }
    AllAppend(Shows(h, |active| + 1), AfterResultsShows(h, turn));
  }

  lemma ToolTurnKeepsSendable(h: seq<Message>, turn: Turn)
    requires Sendable(h) && turn.CalledTools?
    ensures AllSendable(TurnCommits(h, turn).0) && AllSendable(ToolShows(h, turn))
  {
    var active := Active(turn.calls);
    var committed := h + ToolTurn(turn.text, active, turn.outcomeOf);
    AppendSendable(h, ToolTurn(turn.text, active, turn.outcomeOf));
    AfterCommitKeepsSendable(committed, turn);
    AllAppend([committed], AfterCommit(committed, turn).0);
    if turn.throws.AtStart? {
      ShowsSendable(h, turn.throws.k + 3);
    }
    ShowsSendable(h, |active| + turn.links);
    AllAppend(Shows(h, |active| + turn.links), CommittedShows(committed, turn));
  }

  lemma EndKeepsSendable(h: seq<Message>, text: string, kept: bool, events: nat)
    requires Sendable(h)
    ensures AllSendable(EndCommits(h, text, kept))
    ensures AllSendable(Shows(h, 1) + Shows(Last(h, EndCommits(h, text, kept)), events))
  {
    AppendSendable(h, [AI(text, [], None)]);
    ShowsSendable(h, 1);
    ShowsSendable(Last(h, EndCommits(h, text, kept)), events);
    AllAppend(Shows(h, 1), Shows(Last(h, EndCommits(h, text, kept)), events));
  }

  /** Every history one turn commits, and every history it shows, is one a provider accepts. */
  lemma TurnKeepsSendable(h: seq<Message>, turn: Turn)
    requires Sendable(h)
    ensures AllSendable(TurnCommits(h, turn).0) && AllSendable(TurnShows(h, turn))
  {
    match turn {
      case StreamThrows(_) => ShowsSendable(h, 2);
      case Refused(_, text) => EndKeepsSendable(h, text, text != "", 2);
      case Answered(_, text) => EndKeepsSendable(h, text, true, 1);
      case CalledTools(_, _, _, _, _, _, _) => ToolTurnKeepsSendable(h, turn);
    }
    ShowsSendable(h, turn.streamed);
    AllAppend(Shows(h, turn.streamed), StreamedShows(h, turn));
  }

  lemma LimitKeepsSendable(h: seq<Message>, synthesis: Synthesis)
    requires Sendable(h)
    ensures AllSendable(ClosingCommits(h, synthesis)) && AllSendable(LimitShows(h, synthesis))
  {
    if synthesis.Summarised? {
      AppendSendable(h, [AI(synthesis.text, [], None)]);
      ShowsSendable(h + [AI(synthesis.text, [], None)], 2);
    }
    ShowsSendable(h, 1);
    ShowsSendable(h, 2);
    ShowsSendable(h, synthesis.tokens);
    AllAppend(Shows(h, 1), Shows(h, synthesis.tokens));
    AllAppend(Shows(h, 1) + Shows(h, synthesis.tokens), ClosingShows(h, synthesis));
  }

  lemma {:induction false} LoopKeepsSendable(h: seq<Message>, world: World, k: nat, maxIterations: nat)
    requires Sendable(h)
    ensures AllSendable(LoopCommits(h, world, k, maxIterations)) && AllSendable(LoopShows(h, world, k, maxIterations))
    decreases maxIterations - k
  {
    if k >= maxIterations {
      LimitKeepsSendable(h, world.synthesis);
    } else {
      TurnKeepsSendable(h, world.turns(k));
      var (commits, goesOn) := TurnCommits(h, world.turns(k));
      if goesOn {
        var next := Last(h, commits);
        LastSendable(h, commits);
        LoopKeepsSendable(next, world, k + 1, maxIterations);
        AllAppend(commits, LoopCommits(next, world, k + 1, maxIterations));
        AllAppend(TurnShows(h, world.turns(k)), LoopShows(next, world, k + 1, maxIterations));
      }
    }
  }

  /** Whatever the model, the tools, compaction and the limit do, every history a run commits is the
      system prompt followed by complete blocks, the first of them the user's, and so is every history it
      shows once the user has spoken. */
  lemma RunCommitsAreSendable(h: seq<Message>, userInput: string, world: World, maxIterations: nat)
    requires WellFormed(h) && OpensWithHuman(h)
    ensures AllSendable(RunCommits(h, userInput, world, maxIterations))
    ensures !world.blocked ==> AllSendable(RunShows(h, userInput, world, maxIterations))
  {
    var asked := h + [Human(userInput, None)];
    AppendBlock(h, [Human(userInput, None)]);
    LoopKeepsSendable(asked, world, 0, maxIterations);
    AllAppend([asked], LoopCommits(asked, world, 0, maxIterations));
  }

  // ---------------------------------------------------------------------------------------------
  // The loop.

  type Positive = n: nat | n > 0 witness 1

  /** The history array of one run and the consumer pulling its events. The consumer abandons the run
      at its `patience`-th yield. `commits` records each history the run leaves between uninterrupted
      steps, `seen` the history standing at each yield. */
  class AgentRun {
    var history: MessageArray
    const patience: Positive
    var delivered: nat
    ghost var commits: seq<seq<Message>>
    ghost var seen: seq<seq<Message>>

    constructor (history: MessageArray, patience: Positive)
      ensures this.history == history && this.patience == patience
      ensures delivered == 0 && commits == [history.messages] && seen == []
    {
      this.history, this.patience, delivered := history, patience, 0;
      commits, seen := [history.messages], [];
    }

    /** What stands now is what was committed last. */
    ghost predicate Settled()
      reads this, history
    {
      && commits != [] && history.messages != [] && commits[|commits| - 1] == history.messages
      && delivered == |seen|
    }

    /** An abandoned run leaves the history it showed last. */
    ghost predicate LeftAsSeen()
      reads this, history
    {
      seen != [] && history.messages == seen[|seen| - 1]
    }

    /** Hand over one event. False when the consumer goes away at it. */
    method Yield() returns (stays: bool)
      requires Settled() && delivered < patience
      modifies this`delivered, this`seen
      ensures Settled() && (stays <==> delivered < patience)
      ensures Seen(old(seen), seen, Shows(history.messages, 1), patience, !stays)
      ensures LeftAsSeen()
    {
      assert Shows(history.messages, 1) == [history.messages];
      seen := seen + [history.messages];
      delivered := delivered + 1;
      stays := delivered < patience;
    }

    method YieldTimes(n: nat) returns (stays: bool)
      requires Settled() && delivered < patience
      modifies this`delivered, this`seen
      ensures Settled() && (stays <==> delivered < patience)
      ensures Seen(old(seen), seen, Shows(history.messages, n), patience, !stays)
      ensures !stays ==> LeftAsSeen()
    {
      stays := true;
      for i := 0 to n
        invariant Settled() && delivered < patience && stays
        invariant Seen(old(seen), seen, Shows(history.messages, i), patience, false)
      {
        ghost var middle := seen;
        stays := Yield();
        SeenOn(old(seen), middle, seen, Shows(history.messages, i), Shows(history.messages, 1), patience, !stays);
        ShowsAdd(history.messages, i, 1);
        if !stays {
          SeenEnough(old(seen), seen, Shows(history.messages, i + 1), Shows(history.messages, n - i - 1), patience);
          ShowsAdd(history.messages, i + 1, n - i - 1);
          return;
        }
      }
    }

    /** Push in one synchronous block: no consumer sees anything in between. */
    method Commit(messages: seq<Message>)
      requires Settled() && messages != []
      modifies this`commits, history
      ensures Settled() && history.messages == messages && commits == old(commits) + [messages]
    {
      history.messages := messages;
      commits := commits + [messages];
    }

    /** Push the assistant's message and one result per call, with no yield between. */
    method CommitToolTurn(text: string, active: seq<Call>, outcomeOf: Call -> ToolOutcome)
      requires Settled()
      modifies this`commits, history
      ensures Settled() && history.messages == old(history.messages) + ToolTurn(text, active, outcomeOf)
      ensures commits == old(commits) + [history.messages]
      ensures |history.messages| == |old(history.messages)| + 1 + |active|
      ensures history.messages[..|old(history.messages)|] == old(history.messages)
      ensures history.messages[|old(history.messages)|] == AI(text, active, None)
      ensures forall i :: 0 <= i < |active| ==>
                history.messages[|old(history.messages)| + 1 + i] == Tool(active[i].id, Text(outcomeOf(active[i]).result), None)
    {
      ToolTurnSays(text, active, outcomeOf);
      var turn := ToolTurn(text, active, outcomeOf);
      history.messages := history.messages + [AI(text, active, None)];
      for i := 0 to |active|
        invariant commits == old(commits)
        invariant history.messages == old(history.messages) + turn[..i + 1]
      {
        assert turn[..i + 2] == turn[..i + 1] + [turn[i + 1]];
        history.messages := history.messages + [Tool(active[i].id, Text(outcomeOf(active[i]).result), None)];
      }
      assert turn[..|active| + 1] == turn;
      commits := commits + [history.messages];
    }

    /** Run the signal handlers of a turn. A summary that throws is swallowed and changes nothing.
        Counts the model calls compaction measured. */
    method RunHandlers(active: seq<Call>, outcomeOf: Call -> ToolOutcome) returns (measured: nat)
      requires Settled()
      modifies this`commits, history
      ensures Settled()
      ensures commits == old(commits) + HandlerCommits(old(history.messages), active, outcomeOf)
      ensures measured == Measured(active, outcomeOf, |active|)
    {
      measured := 0;
      for i := 0 to |active|
        invariant Settled()
        invariant measured == Measured(active, outcomeOf, i)
        invariant commits + HandlerCommits(history.messages, active[i..], outcomeOf)
               == old(commits) + HandlerCommits(old(history.messages), active, outcomeOf)
      {
        assert active[i..][0] == active[i] && active[i..][1..] == active[i + 1..];
        match outcomeOf(active[i]).handler {
          case NoHandler =>
          case Compact(level, nextStep, summary) =>
            var threw := history.ApplyCompaction(level, nextStep, summary);
            commits := commits + [history.messages];
            if !level.Light? && !threw {
              measured := measured + 1;
            }
        }
      }
    }

    /** The whole run. It terminates because each iteration counts against the limit. */
    method Run(userInput: string, world: World, maxIterations: nat) returns (abandoned: bool)
      requires Settled() && delivered < patience
      modifies this`delivered, this`seen, this`commits, history
      ensures Settled() && (abandoned <==> delivered >= patience)
      ensures Seen(old(seen), seen, RunShows(old(history.messages), userInput, world, maxIterations), patience, abandoned)
      ensures abandoned ==> LeftAsSeen()
      ensures commits <= old(commits) + RunCommits(old(history.messages), userInput, world, maxIterations)
      ensures !abandoned ==> commits == old(commits) + RunCommits(old(history.messages), userInput, world, maxIterations)
    {
      if world.setupThrows {
        return false;
      }
      if world.blocked {
        var stays := YieldTimes(2);
        return !stays;
      }
      Commit(history.messages + [Human(userInput, None)]);
      AppendAssociates(old(commits), [history.messages], LoopCommits(history.messages, world, 0, maxIterations));
      abandoned := Loop(world, maxIterations);
    }

    method Loop(world: World, maxIterations: nat) returns (abandoned: bool)
      requires Settled() && delivered < patience
      modifies this`delivered, this`seen, this`commits, history
      ensures Settled() && (abandoned <==> delivered >= patience)
      ensures Seen(old(seen), seen, LoopShows(old(history.messages), world, 0, maxIterations), patience, abandoned)
      ensures abandoned ==> LeftAsSeen()
      ensures commits <= old(commits) + LoopCommits(old(history.messages), world, 0, maxIterations)
      ensures !abandoned ==> commits == old(commits) + LoopCommits(old(history.messages), world, 0, maxIterations)
    {
      ghost var full := commits + LoopCommits(history.messages, world, 0, maxIterations);
      ghost var all := LoopShows(history.messages, world, 0, maxIterations);
      ghost var was, shown: seq<seq<Message>> := seen, [];
      SeenNothing(seen, patience);
      var iterations := 0;
      while iterations < maxIterations
        invariant Settled() && delivered < patience && iterations <= maxIterations
        invariant Underway(history.messages, commits, was, seen, shown, world, iterations, maxIterations, full, all, patience)
      {
        ghost var before, made, middle := history.messages, commits, seen;
        var goesOn;
        abandoned, goesOn := TakeTurn(world.turns(iterations));
        TurnStep(before, made, was, middle, shown, world, iterations, maxIterations, full, all, patience,
                 commits, seen, abandoned, goesOn);
        if abandoned || !goesOn {
          return;
        }
        shown := shown + TurnShows(before, world.turns(iterations));
        iterations := iterations + 1;
      }
      ghost var before, middle := history.messages, seen;
      abandoned := ReachLimit(world.synthesis);
      SeenOn(was, middle, seen, shown, LimitShows(before, world.synthesis), patience, abandoned);
    }

    /** `limit_reached`, the synthesized summary, `done`. */
    method ReachLimit(synthesis: Synthesis) returns (abandoned: bool)
      requires Settled() && delivered < patience
      modifies this`delivered, this`seen, this`commits, history
      ensures Settled() && (abandoned <==> delivered >= patience)
      ensures Seen(old(seen), seen, LimitShows(old(history.messages), synthesis), patience, abandoned)
      ensures abandoned ==> LeftAsSeen()
      ensures commits <= old(commits) + ClosingCommits(old(history.messages), synthesis)
      ensures !abandoned ==> commits == old(commits) + ClosingCommits(old(history.messages), synthesis)
    {
      ghost var h, first := history.messages, Shows(history.messages, 1);
      ghost var tokens, closing := Shows(h, synthesis.tokens), ClosingShows(h, synthesis);
      var stays := Yield();
      if !stays {
        SeenEnough(old(seen), seen, first, tokens, patience);
        SeenEnough(old(seen), seen, first + tokens, closing, patience);
        return true;
      }
      ghost var middle := seen;
      stays := YieldTimes(synthesis.tokens);
      SeenOn(old(seen), middle, seen, first, tokens, patience, !stays);
      if !stays {
        SeenEnough(old(seen), seen, first + tokens, closing, patience);
        return true;
      }
      middle := seen;
      abandoned := Close(synthesis);
      SeenOn(old(seen), middle, seen, first + tokens, closing, patience, abandoned);
    }

    method Close(synthesis: Synthesis) returns (abandoned: bool)
      requires Settled() && delivered < patience
      modifies this`delivered, this`seen, this`commits, history
      ensures Settled() && (abandoned <==> delivered >= patience)
      ensures Seen(old(seen), seen, ClosingShows(old(history.messages), synthesis), patience, abandoned)
      ensures abandoned ==> LeftAsSeen()
      ensures commits <= old(commits) + ClosingCommits(old(history.messages), synthesis)
      ensures !abandoned ==> commits == old(commits) + ClosingCommits(old(history.messages), synthesis)
    {
      var due := false;
      match synthesis {
        case Summarised(text, _) =>
          if text != "" {
            Commit(history.messages + [AI(text, [], None)]);
            due := true;
          }
        case SynthesisFails(_, classified) =>
          due := classified;
      }
      var stays := YieldTimes(if due then 2 else 1);
      return !stays;
    }

    /** One model turn. The only suspension points before the commit are yields that leave history as it
        was; after it, yields that show all of the turn. */
    method TakeTurn(turn: Turn) returns (abandoned: bool, goesOn: bool)
      requires Settled() && delivered < patience
      modifies this`delivered, this`seen, this`commits, history
      ensures Settled() && (abandoned <==> delivered >= patience)
      ensures Seen(old(seen), seen, TurnShows(old(history.messages), turn), patience, abandoned)
      ensures abandoned ==> LeftAsSeen()
      ensures commits <= old(commits) + TurnCommits(old(history.messages), turn).0
      ensures !abandoned ==> commits == old(commits) + TurnCommits(old(history.messages), turn).0
                             && goesOn == TurnCommits(old(history.messages), turn).1
    {
      ghost var streamed, rest := Shows(history.messages, turn.streamed), StreamedShows(history.messages, turn);
      var stays := YieldTimes(turn.streamed);
      if !stays {
        SeenEnough(old(seen), seen, streamed, rest, patience);
        return true, false;
      }
      ghost var middle := seen;
      match turn {
        case StreamThrows(_) =>
          stays := YieldTimes(2);
          abandoned, goesOn := !stays, false;
        case Refused(_, text) =>
          abandoned := EndTurn(text, text != "", 2);
          goesOn := false;
        case Answered(_, text) =>
          abandoned := EndTurn(text, true, 1);
          goesOn := false;
        case CalledTools(_, _, _, _, _, _, _) =>
          abandoned, goesOn := TakeToolTurn(turn);
      }
      SeenOn(old(seen), middle, seen, streamed, rest, patience, abandoned);
    }

    /** The turn's cost, its text into the history, the last events. */
    method EndTurn(text: string, kept: bool, events: nat) returns (abandoned: bool)
      requires Settled() && delivered < patience
      modifies this`delivered, this`seen, this`commits, history
      ensures Settled() && (abandoned <==> delivered >= patience)
      ensures Seen(old(seen), seen, Shows(old(history.messages), 1)
                     + Shows(Last(old(history.messages), EndCommits(old(history.messages), text, kept)), events), patience, abandoned)
      ensures abandoned ==> LeftAsSeen()
      ensures commits <= old(commits) + EndCommits(old(history.messages), text, kept)
      ensures !abandoned ==> commits == old(commits) + EndCommits(old(history.messages), text, kept)
    {
      ghost var first := Shows(history.messages, 1);
      ghost var rest := Shows(Last(history.messages, EndCommits(history.messages, text, kept)), events);
      var stays := Yield();
      if !stays {
        SeenEnough(old(seen), seen, first, rest, patience);
        return true;
      }
      ghost var middle := seen;
      if kept {
        Commit(history.messages + [AI(text, [], None)]);
      }
      stays := YieldTimes(events);
      SeenOn(old(seen), middle, seen, first, rest, patience, !stays);
      return !stays;
    }

    method TakeToolTurn(turn: Turn) returns (abandoned: bool, goesOn: bool)
      requires Settled() && delivered < patience && turn.CalledTools?
      modifies this`delivered, this`seen, this`commits, history
      ensures Settled() && (abandoned <==> delivered >= patience)
      ensures Seen(old(seen), seen, ToolShows(old(history.messages), turn), patience, abandoned)
      ensures abandoned ==> LeftAsSeen()
      ensures commits <= old(commits) + TurnCommits(old(history.messages), turn).0
      ensures !abandoned ==> commits == old(commits) + TurnCommits(old(history.messages), turn).0
                             && goesOn == TurnCommits(old(history.messages), turn).1
    {
      var active := Deduplicate(turn.calls);
      if turn.throws.AtStart? && turn.throws.k < |active| {
        abandoned := Fail(turn.throws.k + 1);
        return abandoned, false;
      }
      abandoned, goesOn := RunTools(turn, active, history.messages + ToolTurn(turn.text, active, turn.outcomeOf));
    }

    /** The starts and the links, one event each, and then the commit. */
    method RunTools(turn: Turn, active: seq<Call>, ghost committed: seq<Message>) returns (abandoned: bool, goesOn: bool)
      requires Settled() && delivered < patience && turn.CalledTools? && active == Active(turn.calls)
      requires committed == history.messages + ToolTurn(turn.text, active, turn.outcomeOf)
      modifies this`delivered, this`seen, this`commits, history
      ensures Settled() && (abandoned <==> delivered >= patience)
      ensures Seen(old(seen), seen, Shows(old(history.messages), |active| + turn.links) + CommittedShows(committed, turn),
                   patience, abandoned)
      ensures abandoned ==> LeftAsSeen()
      ensures commits <= old(commits) + ([committed] + AfterCommit(committed, turn).0)
      ensures !abandoned ==> commits == old(commits) + ([committed] + AfterCommit(committed, turn).0)
                             && goesOn == AfterCommit(committed, turn).1
    {
      ghost var started := Shows(history.messages, |active| + turn.links);
      var stays := YieldTimes(|active| + turn.links);
      if !stays {
        SeenEnough(old(seen), seen, started, CommittedShows(committed, turn), patience);
        return true, false;
      }
      ghost var middle := seen;
      CommitToolTurn(turn.text, active, turn.outcomeOf);
      AppendAssociates(old(commits), [committed], AfterCommit(committed, turn).0);
      abandoned, goesOn := ShowResults(turn, active);
      SeenOn(old(seen), middle, seen, started, CommittedShows(committed, turn), patience, abandoned);
    }

    /** The results, one event each, and the turn's cost. */
    method ShowResults(turn: Turn, active: seq<Call>) returns (abandoned: bool, goesOn: bool)
      requires Settled() && delivered < patience && turn.CalledTools? && active == Active(turn.calls)
      modifies this`delivered, this`seen, this`commits, history
      ensures Settled() && (abandoned <==> delivered >= patience)
      ensures Seen(old(seen), seen, CommittedShows(old(history.messages), turn), patience, abandoned)
      ensures abandoned ==> LeftAsSeen()
      ensures commits <= old(commits) + AfterCommit(old(history.messages), turn).0
      ensures !abandoned ==> commits == old(commits) + AfterCommit(old(history.messages), turn).0
                             && goesOn == AfterCommit(old(history.messages), turn).1
    {
      if turn.throws.AtResult? && turn.throws.k < |active| {
        abandoned := Fail(turn.throws.k + 1);
        return abandoned, false;
      }
      ghost var results, rest := Shows(history.messages, |active| + 1), AfterResultsShows(history.messages, turn);
      var stays := YieldTimes(|active| + 1);
      if !stays {
        SeenEnough(old(seen), seen, results, rest, patience);
        return true, false;
      }
      ghost var middle := seen;
      abandoned, goesOn := FinishToolTurn(turn, active);
      SeenOn(old(seen), middle, seen, results, rest, patience, abandoned);
    }

    method AnyTerminal(active: seq<Call>, outcomeOf: Call -> ToolOutcome) returns (terminal: bool)
      ensures terminal <==> HasTerminal(active, outcomeOf)
    {
      for i := 0 to |active|
        invariant forall k :: 0 <= k < i ==> !outcomeOf(active[k]).terminalFailure
      {
        if outcomeOf(active[i]).terminalFailure {
          return true;
        }
      }
      return false;
    }

    /** What follows the results: the terminal exits, or the signal handlers. */
    method FinishToolTurn(turn: Turn, active: seq<Call>) returns (abandoned: bool, goesOn: bool)
      requires Settled() && delivered < patience && turn.CalledTools? && active == Active(turn.calls)
      modifies this`delivered, this`seen, this`commits, history
      ensures Settled() && (abandoned <==> delivered >= patience)
      ensures Seen(old(seen), seen, AfterResultsShows(old(history.messages), turn), patience, abandoned)
      ensures abandoned ==> LeftAsSeen()
      ensures commits <= old(commits) + AfterResults(old(history.messages), turn).0
      ensures !abandoned ==> commits == old(commits) + AfterResults(old(history.messages), turn).0
                             && goesOn == AfterResults(old(history.messages), turn).1
    {
      var terminal := AnyTerminal(active, turn.outcomeOf);
      if terminal {
        abandoned := Fail(0);
        return abandoned, false;
      }
      if turn.abortedAfter {
        var stays := Yield();
        return !stays, false;
      }
      abandoned, goesOn := HandleSignals(turn, active);
    }

    /** The handlers, up to one that throws if one does, and the cost of each summary they made. */
    method HandleSignals(turn: Turn, active: seq<Call>) returns (abandoned: bool, goesOn: bool)
      requires Settled() && delivered < patience && turn.CalledTools? && active == Active(turn.calls) && Goes(active, turn)
      modifies this`delivered, this`seen, this`commits, history
      ensures Settled() && (abandoned <==> delivered >= patience)
      ensures Seen(old(seen), seen, AfterResultsShows(old(history.messages), turn), patience, abandoned)
      ensures abandoned ==> LeftAsSeen()
      ensures commits <= old(commits) + AfterResults(old(history.messages), turn).0
      ensures !abandoned ==> commits == old(commits) + AfterResults(old(history.messages), turn).0
                             && goesOn == AfterResults(old(history.messages), turn).1
    {
      if turn.throws.InHandler? && turn.throws.k < |active| {
        var _ := RunHandlers(active[..turn.throws.k], turn.outcomeOf);
        abandoned := Fail(0);
        return abandoned, false;
      }
      var measured := RunHandlers(active, turn.outcomeOf);
      var stays := YieldTimes(measured);
      return !stays, true;
    }

    /** Some more events, then an error and `done`. */
    method Fail(events: nat) returns (abandoned: bool)
      requires Settled() && delivered < patience
      modifies this`delivered, this`seen
      ensures Settled() && (abandoned <==> delivered >= patience)
      ensures Seen(old(seen), seen, Shows(history.messages, events + 2), patience, abandoned)
      ensures abandoned ==> LeftAsSeen()
    {
      var stays := YieldTimes(events + 2);
      return !stays;
    }
  }

  // ---------------------------------------------------------------------------------------------
  // A conversation's life.

  datatype Session = Session(system: Message, userInput: string, world: World, maxIterations: nat, patience: Positive,
                             runError: Option<string>, reloaded: bool)

  function CutAt(all: seq<seq<Message>>, patience: nat): seq<seq<Message>> {
    if |all| >= patience then all[..patience] else all
  }

  function LeftAt(h: seq<Message>, all: seq<seq<Message>>, more: seq<seq<Message>>, patience: Positive): seq<Message> {
    if |all| >= patience then all[patience - 1] else Last(h, more)
  }

  /** The whole of what a run shows, or as much as its consumer stays for. */
  function ShownBy(h: seq<Message>, session: Session): seq<seq<Message>>
    requires h != []
  {
    CutAt(RunShows(h, session.userInput, session.world, session.maxIterations), session.patience)
  }

  /** The history a run leaves: the one standing where it was abandoned, or its last commit. */
  function LeftBy(h: seq<Message>, session: Session): seq<Message>
    requires h != []
  {
    LeftAt(h, RunShows(h, session.userInput, session.world, session.maxIterations),
           RunCommits(h, session.userInput, session.world, session.maxIterations), session.patience)
  }

  /** The history a run starts from. */
  function StartOf(h: seq<Message>, session: Session): (r: seq<Message>)
    ensures r != []
  {
    WithSystemPrompt(if session.reloaded then Serialize(h) else h, session.system)
  }

  function NotedBy(h: seq<Message>, session: Session): seq<Message> {
    if session.runError.Some? then WithErrorNote(h, session.runError.value) else h
  }

  /** The history after the first `n` sessions. */
  function HistoryAfter(sessions: seq<Session>, n: nat): seq<Message>
    requires n <= |sessions|
  {
    if n == 0 then []
    else NotedBy(LeftBy(StartOf(HistoryAfter(sessions, n - 1), sessions[n - 1]), sessions[n - 1]), sessions[n - 1])
  }

  /** The history standing at each yield of the first `n` sessions. */
  function ShownAfter(sessions: seq<Session>, n: nat): seq<seq<Message>>
    requires n <= |sessions|
  {
    if n == 0 then []
    else ShownAfter(sessions, n - 1) + ShownBy(StartOf(HistoryAfter(sessions, n - 1), sessions[n - 1]), sessions[n - 1])
  }

  /** A history the next run may start from. */
  ghost predicate Resumable(h: seq<Message>) {
    WellFormed(h) && OpensWithHuman(h)
  }

  ghost predicate AllResumable(hs: seq<seq<Message>>) {
    forall i {:trigger Resumable(hs[i])} :: 0 <= i < |hs| ==> Resumable(hs[i])
  }

  lemma SendableIsResumable(hs: seq<seq<Message>>)
    requires AllSendable(hs)
    ensures AllResumable(hs)
  {
    forall i | 0 <= i < |hs|
      ensures Resumable(hs[i])
    {
      assert Sendable(hs[i]);
    }
  }

  lemma {:induction false} ShowsResumable(h: seq<Message>, n: nat)
    requires Resumable(h)
    ensures AllResumable(Shows(h, n))
  {
    if n > 0 {
      ShowsResumable(h, n - 1);
      ResumableAppend(Shows(h, n - 1), [h]);
    }
  }

  lemma ResumableAppend(a: seq<seq<Message>>, b: seq<seq<Message>>)
    requires AllResumable(a) && AllResumable(b)
    ensures AllResumable(a + b)
  {
    forall i | 0 <= i < |a + b|
      ensures Resumable((a + b)[i])
    {
      assert if i < |a| then Resumable(a[i]) else Resumable(b[i - |a|]);
    }
  }

  /** Wherever a run ends or is abandoned, it has shown and it leaves histories the next run may start from. */
  lemma RunKeepsResumable(h: seq<Message>, session: Session)
    requires Resumable(h)
    ensures AllResumable(ShownBy(h, session)) && Resumable(LeftBy(h, session))
  {
    var all := RunShows(h, session.userInput, session.world, session.maxIterations);
    var more := RunCommits(h, session.userInput, session.world, session.maxIterations);
    RunCommitsAreSendable(h, session.userInput, session.world, session.maxIterations);
    ShowsResumable(h, 2);
    if !session.world.blocked {
      SendableIsResumable(all);
    }
    SendableIsResumable(more);
    CutIsResumable(all, session.patience);
    assert |all| >= session.patience ==> Resumable(all[session.patience - 1]);
    assert more != [] ==> Resumable(more[|more| - 1]);
  }

  lemma CutIsResumable(all: seq<seq<Message>>, n: nat)
    requires AllResumable(all)
    ensures n <= |all| ==> AllResumable(all[..n])
  {
    forall i | 0 <= i < n <= |all|
      ensures Resumable(all[..n][i])
    {
      assert Resumable(all[i]);
    }
  }

  /** Between runs too: a fresh prompt, a reload and a noted error keep what the next run needs. */
  lemma BetweenRuns(h: seq<Message>, session: Session)
    requires session.system.System? && (h == [] || Resumable(h))
    ensures Resumable(StartOf(h, session)) && (Resumable(h) ==> Resumable(NotedBy(h, session)))
    ensures StartOf(h, session)[0] == session.system && StartOf(h, session)[1..] == if h == [] then [] else h[1..]
    ensures Resumable(h) ==>
              NotedBy(h, session) == if session.runError.None? then h
                                     else h[..|h| - 1] + [h[|h| - 1].(note := session.runError)]
  {
    if h == [] {
      NewConversationWellFormed(session.system);
    } else {
      SaveReloadKeepsHistory(h, session.system);
      ErrorNoteKeepsWellFormed(h, if session.runError.Some? then session.runError.value else "");
    }
  }

  /** Over every sequence of runs, each abandoned at any yield: what is saved always answers every call, and
      so did the history at every yield of every run. */
  lemma {:induction false} ConversationIsWellFormed(sessions: seq<Session>, n: nat)
    requires n <= |sessions| && forall i :: 0 <= i < n ==> sessions[i].system.System?
    ensures AllResumable(ShownAfter(sessions, n)) && Blocks(Serialize(HistoryAfter(sessions, n)))
    ensures n > 0 ==> Resumable(HistoryAfter(sessions, n))
  {
    if n > 0 {
      var session := sessions[n - 1];
      var start := StartOf(HistoryAfter(sessions, n - 1), session);
      ConversationIsWellFormed(sessions, n - 1);
      BetweenRuns(HistoryAfter(sessions, n - 1), session);
      RunKeepsResumable(start, session);
      BetweenRuns(LeftBy(start, session), session);
      ResumableAppend(ShownAfter(sessions, n - 1), ShownBy(start, session));
    }
  }

  /** A conversation's life: the prompt refreshed before each run, the error noted after it, the history
      saved and reloaded between. */
  method Converse(sessions: seq<Session>) returns (history: MessageArray, ghost observed: seq<seq<Message>>)
    ensures history.messages == HistoryAfter(sessions, |sessions|)
    ensures observed == ShownAfter(sessions, |sessions|)
  {
    history := new MessageArray([]);
    observed := [];
    for i := 0 to |sessions|
      invariant fresh(history)
      invariant history.messages == HistoryAfter(sessions, i) && observed == ShownAfter(sessions, i)
    {
      var session := sessions[i];
      if session.reloaded {
        history := new MessageArray(Serialize(history.messages));
      }
      ghost var seen := RunSession(history, session);
      observed := observed + seen;
    }
  }

  /** One run, between a fresh prompt and the note of its error, if any. */
  method RunSession(history: MessageArray, session: Session) returns (ghost seen: seq<seq<Message>>)
    modifies history
    ensures var start := WithSystemPrompt(old(history.messages), session.system);
            seen == ShownBy(start, session) && history.messages == NotedBy(LeftBy(start, session), session)
  {
    history.SetSystemPrompt(session.system);
    seen := RunOnce(history, session);
    if session.runError.Some? {
      history.NoteRunError(session.runError.value);
    }
  }

  /** `all` is what the run of a session shows when nobody leaves, and `more` what it commits. */
  ghost predicate OfSession(h: seq<Message>, session: Session, all: seq<seq<Message>>, more: seq<seq<Message>>)
    requires h != []
  {
    && all == RunShows(h, session.userInput, session.world, session.maxIterations)
    && more == RunCommits(h, session.userInput, session.world, session.maxIterations)
  }

  /** The run of a session, from `h`: seen whole or cut, and committed whole unless it was abandoned. */
  ghost predicate Ran(h: seq<Message>, session: Session, commits: seq<seq<Message>>, seen: seq<seq<Message>>, abandoned: bool)
    requires h != []
  {
    && commits != [] && (abandoned ==> seen != [] && seen[|seen| - 1] == commits[|commits| - 1])
    && forall all, more {:trigger OfSession(h, session, all, more)} :: OfSession(h, session, all, more) ==>
         Seen([], seen, all, session.patience, abandoned) && (!abandoned ==> commits == [h] + more)
  }

  /** What a run that has ended or been abandoned shows and leaves. */
  lemma RunLeaves(h: seq<Message>, session: Session, commits: seq<seq<Message>>, seen: seq<seq<Message>>, abandoned: bool)
    requires h != [] && Ran(h, session, commits, seen, abandoned)
    ensures seen == ShownBy(h, session) && commits[|commits| - 1] == LeftBy(h, session)
  {
    var all := RunShows(h, session.userInput, session.world, session.maxIterations);
    var more := RunCommits(h, session.userInput, session.world, session.maxIterations);
    assert OfSession(h, session, all, more);
    LeavesAt(h, all, more, session.patience, commits, seen, abandoned);
  }

  lemma LeavesAt(h: seq<Message>, all: seq<seq<Message>>, more: seq<seq<Message>>, patience: Positive,
                 commits: seq<seq<Message>>, seen: seq<seq<Message>>, abandoned: bool)
    requires Seen([], seen, all, patience, abandoned) && commits != []
    requires !abandoned ==> commits == [h] + more
    requires abandoned ==> seen != [] && seen[|seen| - 1] == commits[|commits| - 1]
    ensures seen == CutAt(all, patience) && commits[|commits| - 1] == LeftAt(h, all, more, patience)
  {
    LastCommitted(h, [h], more);
  }

  method RunOnce(history: MessageArray, session: Session) returns (ghost seen: seq<seq<Message>>)
    requires history.messages != []
    modifies history
    ensures seen == ShownBy(old(history.messages), session)
    ensures history.messages == LeftBy(old(history.messages), session)
  {
    var run := new AgentRun(history, session.patience);
    var abandoned := RunToEnd(run, session);
    RunLeaves(old(history.messages), session, run.commits, run.seen, abandoned);
    seen := run.seen;
  }

  method RunToEnd(run: AgentRun, session: Session) returns (abandoned: bool)
    requires run.Settled() && run.delivered == 0 && run.commits == [run.history.messages] && run.patience == session.patience
    modifies run`delivered, run`seen, run`commits, run.history
    ensures run.Settled() && Ran(old(run.history.messages), session, run.commits, run.seen, abandoned)
  {
    abandoned := run.Run(session.userInput, session.world, session.maxIterations);
  }
}
