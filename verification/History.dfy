/** A conversation's message history and what makes it one a provider accepts: a system prompt, then
    complete blocks. A block is a human message, or an assistant message followed at once by exactly one
    result per tool call, in call order. */
module History {
  import opened Wrappers

  datatype Call = Call(id: string, name: string, args: string)

  datatype Content = Text(text: string) | Parts(parts: seq<string>)

  /** `note` is the run error stashed on a message's extra keys; no provider reads it. */
  datatype Message =
    | System(text: string, note: Option<string>)
    | Human(text: string, note: Option<string>)
    | AI(text: string, calls: seq<Call>, note: Option<string>)
    | Tool(callId: string, content: Content, note: Option<string>)

  predicate Answers(m: Message, c: Call) {
    m.Tool? && m.callId == c.id
  }

  predicate AnswersCalls(results: seq<Message>, calls: seq<Call>) {
    |results| == |calls| && forall i {:trigger Answers(results[i], calls[i])} :: 0 <= i < |calls| ==> Answers(results[i], calls[i])
  }

  /** How many messages the block starting with `m` takes. */
  function BlockLength(m: Message): nat {
    if m.AI? then 1 + |m.calls| else 1
  }

  predicate IsBlock(ms: seq<Message>) {
    && ms != []
    && (ms[0].Human? || ms[0].AI?)
    && |ms| == BlockLength(ms[0])
    && (ms[0].AI? ==> AnswersCalls(ms[1..], ms[0].calls))
  }

  predicate Blocks(ms: seq<Message>)
    decreases |ms|
  {
    ms == [] ||
    (BlockLength(ms[0]) <= |ms| && IsBlock(ms[..BlockLength(ms[0])]) && Blocks(ms[BlockLength(ms[0])..]))
  }

  /** A history the runner may send: system prompt first, then complete blocks. */
  predicate WellFormed(h: seq<Message>) {
    h != [] && h[0].System? && Blocks(h[1..])
  }

  /** The first message after the system prompt, if any, is the user's. */
  predicate OpensWithHuman(h: seq<Message>) {
    |h| > 1 ==> h[1].Human?
  }

  lemma BlocksCons(block: seq<Message>, rest: seq<Message>)
    requires IsBlock(block) && Blocks(rest)
    ensures Blocks(block + rest)
  {
    var n := BlockLength(block[0]);
    var all := block + rest;
    assert all[0] == block[0];
    assert all[..n] == block && all[n..] == rest;
  }

  lemma Regroup(a: seq<Message>, n: nat, b: seq<Message>)
    requires n <= |a|
    ensures a[..n] + (a[n..] + b) == a + b
  {
    assert a[..n] + a[n..] == a;
  }

  lemma {:induction false} BlocksAppend(a: seq<Message>, b: seq<Message>)
    requires Blocks(a) && Blocks(b)
    ensures Blocks(a + b)
    decreases |a|
  {
    if a == [] {
      assert a + b == b;
    } else {
      var n := BlockLength(a[0]);
      var block, rest := a[..n], a[n..];
      BlocksAppend(rest, b);
      BlocksCons(block, rest + b);
      Regroup(a, n, b);
    }
  }

  lemma OneBlock(block: seq<Message>)
    requires IsBlock(block)
    ensures Blocks(block)
  {
    var n := BlockLength(block[0]);
    assert block[..n] == block && block[n..] == [];
  }

  /** Appending a block to a well-formed history leaves one. */
  lemma AppendBlock(h: seq<Message>, block: seq<Message>)
    requires WellFormed(h) && IsBlock(block)
    ensures WellFormed(h + block)
    ensures OpensWithHuman(h) && (|h| > 1 || block[0].Human?) ==> OpensWithHuman(h + block)
  {
    OneBlock(block);
    BlocksAppend(h[1..], block);
    assert (h + block)[1..] == h[1..] + block;
  }

  /** An assistant message only ever starts a block, so cutting at one leaves complete blocks on both
      sides. */
  lemma {:induction false} CutAtAssistant(ms: seq<Message>, c: nat)
    requires Blocks(ms) && c < |ms| && ms[c].AI?
    ensures Blocks(ms[..c]) && Blocks(ms[c..])
    decreases |ms|
  {
    if c == 0 {
      assert ms[c..] == ms;
    } else {
      var n := BlockLength(ms[0]);
      NoAssistantInside(ms[..n], c);
      var block, rest := ms[..n], ms[n..];
      assert rest[c - n] == ms[c];
      CutAtAssistant(rest, c - n);
      BlocksCons(block, rest[..c - n]);
      assert rest[c - n..] == ms[c..];
      assert ms[..c] == block + rest[..c - n];
    }
  }

  lemma NoAssistantInside(block: seq<Message>, c: nat)
    requires IsBlock(block) && c > 0
    ensures c < |block| ==> !block[c].AI?
  {
    if c < |block| {
      assert block[c] == block[1..][c - 1];
      assert block[0].AI? ==> Answers(block[1..][c - 1], block[0].calls[c - 1]);
    }
  }

  /** Same shape: each message keeps its kind, its calls and the call it answers. */
  predicate SameShape(a: seq<Message>, b: seq<Message>) {
    |a| == |b| &&
    forall i :: 0 <= i < |a| ==>
      && (a[i].System? <==> b[i].System?)
      && (a[i].Human? <==> b[i].Human?)
      && (a[i].AI? <==> b[i].AI?) && (a[i].AI? ==> a[i].calls == b[i].calls)
      && (a[i].Tool? ==> a[i].callId == b[i].callId)
  }

  lemma {:induction false} ShapeKeepsBlocks(a: seq<Message>, b: seq<Message>)
    requires SameShape(a, b) && Blocks(a)
    ensures Blocks(b)
    decreases |a|
  {
    if a != [] {
      var n := BlockLength(a[0]);
      assert SameShape(a[n..], b[n..]);
      ShapeKeepsBlocks(a[n..], b[n..]);
      if a[0].AI? {
        var results, results' := a[..n][1..], b[..n][1..];
        forall i | 0 <= i < |a[0].calls|
          ensures Answers(results'[i], a[0].calls[i])
        {
          assert Answers(results[i], a[0].calls[i]);
          assert results[i] == a[i + 1] && results'[i] == b[i + 1];
        }
      }
    }
  }

  lemma ShapeKeepsWellFormed(a: seq<Message>, b: seq<Message>)
    requires SameShape(a, b) && WellFormed(a)
    ensures WellFormed(b) && (OpensWithHuman(a) ==> OpensWithHuman(b))
  {
    assert SameShape(a[1..], b[1..]);
    ShapeKeepsBlocks(a[1..], b[1..]);
  }

  // ---------------------------------------------------------------------------------------------
  // Between runs: saving, reloading, the current prompt, the error note.

  /** What is saved: the history without its system prompt. Records map one to one onto messages. */
  function Serialize(h: seq<Message>): seq<Message> {
    if h != [] && h[0].System? then h[1..] else h
  }

  function WithSystemPrompt(h: seq<Message>, system: Message): seq<Message> {
    if h != [] && h[0].System? then [system] + h[1..] else [system] + h
  }

  function WithErrorNote(h: seq<Message>, message: string): seq<Message> {
    if h == [] then h else h[..|h| - 1] + [h[|h| - 1].(note := Some(message))]
  }

  /** Saving, reloading and setting a fresh prompt changes the prompt and nothing else. */
  lemma SaveReloadKeepsHistory(h: seq<Message>, system: Message)
    requires WellFormed(h) && system.System?
    ensures var again := WithSystemPrompt(Serialize(h), system);
            WellFormed(again) && again[0] == system && again[1..] == h[1..] && WithSystemPrompt(h, system) == again
    ensures OpensWithHuman(h) ==> OpensWithHuman(WithSystemPrompt(Serialize(h), system))
  {
    var body := Serialize(h);
    if body != [] {
      assert IsBlock(body[..BlockLength(body[0])]);
    }
    assert ([system] + body)[1..] == body;
  }

  /** A brand-new conversation. */
  lemma NewConversationWellFormed(system: Message)
    requires system.System?
    ensures WithSystemPrompt([], system) == [system]
    ensures WellFormed(WithSystemPrompt([], system)) && OpensWithHuman(WithSystemPrompt([], system))
  {
    assert WithSystemPrompt([], system)[1..] == [];
  }

  lemma ErrorNoteKeepsWellFormed(h: seq<Message>, message: string)
    requires WellFormed(h)
    ensures WellFormed(WithErrorNote(h, message))
    ensures OpensWithHuman(h) ==> OpensWithHuman(WithErrorNote(h, message))
    ensures var noted, last := WithErrorNote(h, message), |h| - 1;
            && |noted| == |h| && noted[..last] == h[..last]
            && noted[last].note == Some(message) && noted[last].(note := h[last].note) == h[last]
  {
    assert SameShape(h, WithErrorNote(h, message));
    ShapeKeepsWellFormed(h, WithErrorNote(h, message));
  }
}

/** Context compaction: rewriting a history in place so that it stays one a provider accepts. */
module Compaction {
  import opened Wrappers
  import opened History

  datatype Level = Light | Medium | Hard

  const CLEARED := "[content cleared to save context]"
  const STRIPPABLE_TOOLS := {"file_read", "glob", "list_directory", "http_get", "execute_command"}
  const KEEP_RECENT := 6

  /** The name each call id was last used with. */
  function ToolNames(ms: seq<Message>): map<string, string> {
    if ms == [] then map[]
    else
      var last := ms[|ms| - 1];
      var names := ToolNames(ms[..|ms| - 1]);
      if last.AI? then names + CallNames(last.calls) else names
  }

  function CallNames(calls: seq<Call>): map<string, string> {
    if calls == [] then map[]
    else
      var last := calls[|calls| - 1];
      var names := CallNames(calls[..|calls| - 1]);
      if last.id != "" && last.name != "" then names[last.id := last.name] else names
  }

  predicate Strippable(m: Message, names: map<string, string>) {
    && m.Tool? && m.content.Text? && m.content.text != CLEARED
    && m.callId in names && names[m.callId] in STRIPPABLE_TOOLS
  }

  function Stripped(ms: seq<Message>): (r: seq<Message>)
    ensures |r| == |ms|
  {
    var names := ToolNames(ms);
    seq(|ms|, i requires 0 <= i < |ms| =>
      if Strippable(ms[i], names) then ms[i].(content := Text(CLEARED)) else ms[i])
  }

  /** Where the verbatim tail begins: the first assistant message among the last six, or the end. */
  function Cut(ms: seq<Message>): (c: nat)
    ensures c <= |ms| || c == 1
    ensures c >= 1 && c >= |ms| - KEEP_RECENT
    ensures c < |ms| ==> ms[c].AI?
    ensures forall i :: 1 <= i < c && |ms| - KEEP_RECENT <= i < |ms| ==> !ms[i].AI?
  {
    SnapForward(ms, if |ms| - KEEP_RECENT > 1 then |ms| - KEEP_RECENT else 1)
  }

  function SnapForward(ms: seq<Message>, from: nat): (c: nat)
    ensures c >= from && (c <= |ms| || c == from)
    ensures c < |ms| ==> ms[c].AI?
    ensures forall i :: from <= i < c && i < |ms| ==> !ms[i].AI?
    decreases |ms| - from
  {
    if from < |ms| && !ms[from].AI? then SnapForward(ms, from + 1) else from
  }

  function Brief(summary: string, nextStep: string): Message {
    Human(summary + "\n\nNext step: " + nextStep, None)
  }

  /** The history after compaction; a summary that could not be had leaves it untouched. */
  function Compacted(ms: seq<Message>, level: Level, nextStep: string, summary: Option<string>): (r: seq<Message>)
    requires ms != []
    ensures r != []
  {
    if level.Light? then Stripped(ms)
    else if summary.None? then ms
    else if level.Hard? || Cut(ms) >= |ms| then [ms[0], Brief(summary.value, nextStep)]
    else Stripped([ms[0], Human(summary.value, None)] + ms[Cut(ms)..])
  }

  lemma StrippedKeepsShape(ms: seq<Message>)
    ensures SameShape(ms, Stripped(ms))
  {}

  lemma {:induction false} StrippedSameNames(ms: seq<Message>, other: seq<Message>)
    requires SameShape(ms, other)
    ensures ToolNames(ms) == ToolNames(other)
  {
    if ms != [] {
      var n := |ms| - 1;
      assert SameShape(ms[..n], other[..n]);
      StrippedSameNames(ms[..n], other[..n]);
    }
  }

  /** Clearing a second time finds nothing left to clear. */
  lemma LightIsIdempotent(ms: seq<Message>)
    ensures Stripped(Stripped(ms)) == Stripped(ms)
  {
    StrippedKeepsShape(ms);
    StrippedSameNames(ms, Stripped(ms));
  }

  /** Call `j` gives the id `id` a name. */
  ghost predicate Gives(calls: seq<Call>, j: nat, id: string) {
    j < |calls| && calls[j].id == id != "" && calls[j].name != ""
  }

  ghost predicate IsLastGiving(calls: seq<Call>, j: nat, id: string) {
    Gives(calls, j, id) && forall l: nat :: Gives(calls, l, id) ==> l <= j
  }

  /** Call `j` of message `i` does. */
  ghost predicate NamesAt(ms: seq<Message>, i: nat, j: nat, id: string) {
    i < |ms| && ms[i].AI? && Gives(ms[i].calls, j, id)
  }

  /** `name` is what the last call that names `id` calls its tool. */
  ghost predicate NamedBy(ms: seq<Message>, id: string, name: string) {
    exists i: nat, j: nat :: IsLastNaming(ms, i, j, id) && ms[i].calls[j].name == name
  }

  ghost predicate IsLastNaming(ms: seq<Message>, i: nat, j: nat, id: string) {
    && NamesAt(ms, i, j, id)
    && forall k: nat, l: nat :: NamesAt(ms, k, l, id) ==> k < i || (k == i && l <= j)
  }

  lemma {:induction false} CallNamesAre(calls: seq<Call>, id: string)
    ensures id in CallNames(calls) <==> exists j: nat :: Gives(calls, j, id)
    ensures id in CallNames(calls) ==> exists j: nat :: IsLastGiving(calls, j, id) && calls[j].name == CallNames(calls)[id]
  {
    if calls != [] {
      var n := |calls| - 1;
      var before := calls[..n];
      CallNamesAre(before, id);
      forall j: nat | true
        ensures Gives(before, j, id) <==> j < n && Gives(calls, j, id)
      {}
      if Gives(calls, n, id) {
        assert IsLastGiving(calls, n, id);
      } else if id in CallNames(before) {
        var j: nat :| IsLastGiving(before, j, id) && before[j].name == CallNames(before)[id];
        assert IsLastGiving(calls, j, id) && calls[j] == before[j];
      }
    }
  }

  lemma NamesAtShorter(ms: seq<Message>, n: nat, i: nat, j: nat, id: string)
    requires n <= |ms|
    ensures NamesAt(ms[..n], i, j, id) <==> i < n && NamesAt(ms, i, j, id)
  {
  }

  /** The map of names holds, for each id, exactly the name its last call gives it. */
  lemma {:induction false} ToolNamesAre(ms: seq<Message>, id: string)
    ensures id in ToolNames(ms) <==> exists i: nat, j: nat :: NamesAt(ms, i, j, id)
    ensures id in ToolNames(ms) ==> NamedBy(ms, id, ToolNames(ms)[id])
  {
    if ms != [] {
      var n := |ms| - 1;
      ToolNamesAre(ms[..n], id);
      forall i: nat, j: nat | true
        ensures NamesAt(ms[..n], i, j, id) <==> i < n && NamesAt(ms, i, j, id)
      {
        NamesAtShorter(ms, n, i, j, id);
      }
      if ms[n].AI? {
        CallNamesAre(ms[n].calls, id);
        if id in CallNames(ms[n].calls) {
          var j: nat :| IsLastGiving(ms[n].calls, j, id) && ms[n].calls[j].name == CallNames(ms[n].calls)[id];
          assert IsLastNaming(ms, n, j, id);
        } else {
          NamedBefore(ms, n, id);
        }
      } else {
        NamedBefore(ms, n, id);
      }
    }
  }

  /** A last message that does not name `id` changes nothing about it. */
  lemma NamedBefore(ms: seq<Message>, n: nat, id: string)
    requires n + 1 == |ms| && forall j: nat :: !NamesAt(ms, n, j, id)
    requires forall i: nat, j: nat :: NamesAt(ms[..n], i, j, id) <==> i < n && NamesAt(ms, i, j, id)
    ensures forall name :: NamedBy(ms[..n], id, name) ==> NamedBy(ms, id, name)
    ensures (exists i: nat, j: nat :: NamesAt(ms, i, j, id)) <==> exists i: nat, j: nat :: NamesAt(ms[..n], i, j, id)
  {
    forall name | NamedBy(ms[..n], id, name)
      ensures NamedBy(ms, id, name)
    {
      var i: nat, j: nat :| IsLastNaming(ms[..n], i, j, id) && ms[..n][i].calls[j].name == name;
      assert IsLastNaming(ms, i, j, id);
    }
    forall i: nat, j: nat | NamesAt(ms, i, j, id)
      ensures NamesAt(ms[..n], i, j, id)
    {}
  }

  lemma NamedOnce(ms: seq<Message>, id: string, a: string, b: string)
    requires NamedBy(ms, id, a) && NamedBy(ms, id, b)
    ensures a == b
  {
    var i: nat, j: nat :| IsLastNaming(ms, i, j, id) && ms[i].calls[j].name == a;
    var k: nat, l: nat :| IsLastNaming(ms, k, l, id) && ms[k].calls[l].name == b;
    assert NamesAt(ms, i, j, id) && NamesAt(ms, k, l, id);
  }

  /** `m` is a text result whose call, as last named in `ms`, was to one of the strippable tools. */
  ghost predicate Clears(ms: seq<Message>, m: Message) {
    m.Tool? && m.content.Text? && exists name :: NamedBy(ms, m.callId, name) && name in STRIPPABLE_TOOLS
  }

  /** Clearing outputs, light or medium: exactly the text results of strippable tools are cleared, and
      everything else stays as it was. */
  lemma StripClearsExactly(ms: seq<Message>, k: nat)
    requires k < |ms|
    ensures Stripped(ms)[k] == if Clears(ms, ms[k]) then ms[k].(content := Text(CLEARED)) else ms[k]
  {
    if ms[k].Tool? {
      var id := ms[k].callId;
      ToolNamesAre(ms, id);
      if Clears(ms, ms[k]) {
        var name :| NamedBy(ms, id, name) && name in STRIPPABLE_TOOLS;
        var i: nat, j: nat :| IsLastNaming(ms, i, j, id) && ms[i].calls[j].name == name;
        assert NamesAt(ms, i, j, id);
        NamedOnce(ms, id, name, ToolNames(ms)[id]);
      }
    }
  }

  /** Light clears the outputs of the strippable tools and touches nothing else. */
  lemma LightKeepsTheRest(ms: seq<Message>, nextStep: string, summary: Option<string>)
    requires ms != []
    ensures var r := Compacted(ms, Light, nextStep, summary);
            |r| == |ms| &&
            forall k :: 0 <= k < |ms| ==> r[k] == if Clears(ms, ms[k]) then ms[k].(content := Text(CLEARED)) else ms[k]
  {
    forall k | 0 <= k < |ms|
      ensures Stripped(ms)[k] == if Clears(ms, ms[k]) then ms[k].(content := Text(CLEARED)) else ms[k]
    {
      StripClearsExactly(ms, k);
    }
  }

  /** Medium keeps the prompt, says the summary, and keeps its tail message by message, apart from the outputs
      that the tail's own calls show to be of strippable tools. */
  lemma MediumKeepsTail(ms: seq<Message>, nextStep: string, summary: string)
    requires ms != [] && ms[0].System? && Cut(ms) < |ms|
    ensures var r, tail := Compacted(ms, Medium, nextStep, Some(summary)), ms[Cut(ms)..];
            && |r| == 2 + |tail| && r[0] == ms[0] && r[1] == Human(summary, None)
            && forall k :: 0 <= k < |tail| ==>
                 r[2 + k] == if Clears(tail, tail[k]) then tail[k].(content := Text(CLEARED)) else tail[k]
  {
    var tail := ms[Cut(ms)..];
    var head := [ms[0], Human(summary, None)];
    var kept := head + tail;
    StripClearsExactly(kept, 0);
    StripClearsExactly(kept, 1);
    forall k | 0 <= k < |tail|
      ensures Stripped(kept)[2 + k] == if Clears(tail, tail[k]) then tail[k].(content := Text(CLEARED)) else tail[k]
    {
      assert kept[2 + k] == tail[k];
      StripClearsExactly(kept, 2 + k);
      SilentHead(head, tail, tail[k]);
    }
  }

  /** What the assistant has not said names no tool. */
  lemma SilentHead(head: seq<Message>, tail: seq<Message>, m: Message)
    requires forall i :: 0 <= i < |head| ==> !head[i].AI?
    ensures Clears(head + tail, m) <==> Clears(tail, m)
  {
    if m.Tool? {
      var all, n, id := head + tail, |head|, m.callId;
      forall i: nat, j: nat | true
        ensures NamesAt(all, n + i, j, id) <==> NamesAt(tail, i, j, id)
        ensures NamesAt(all, i, j, id) ==> i >= n
      {}
      forall name | NamedBy(all, id, name)
        ensures NamedBy(tail, id, name)
      {
        var i: nat, j: nat :| IsLastNaming(all, i, j, id) && all[i].calls[j].name == name;
        assert NamesAt(all, i, j, id);
        LastInTail(head, tail, i - n, j, id);
      }
      forall name | NamedBy(tail, id, name)
        ensures NamedBy(all, id, name)
      {
        var i: nat, j: nat :| IsLastNaming(tail, i, j, id) && tail[i].calls[j].name == name;
        LastInTail(head, tail, i, j, id);
      }
    }
  }

  lemma LastInTail(head: seq<Message>, tail: seq<Message>, i: nat, j: nat, id: string)
    requires forall i :: 0 <= i < |head| ==> !head[i].AI?
    ensures IsLastNaming(head + tail, |head| + i, j, id) <==> IsLastNaming(tail, i, j, id)
    ensures i < |tail| ==> (head + tail)[|head| + i] == tail[i]
  {
    var all, n := head + tail, |head|;
    forall k: nat, l: nat | true
      ensures NamesAt(all, n + k, l, id) <==> NamesAt(tail, k, l, id)
      ensures NamesAt(all, k, l, id) ==> k >= n
    {}
    if IsLastNaming(tail, i, j, id) {
      forall k: nat, l: nat | NamesAt(all, k, l, id)
        ensures k < n + i || (k == n + i && l <= j)
      {
        assert NamesAt(all, n + (k - n), l, id);
        assert NamesAt(tail, k - n, l, id);
      }
    }
    if IsLastNaming(all, n + i, j, id) {
      forall k: nat, l: nat | NamesAt(tail, k, l, id)
        ensures k < i || (k == i && l <= j)
      {
        assert NamesAt(all, n + k, l, id);
      }
    }
  }

  /** A summary that could not be had leaves the history as it was. */
  lemma FailedSummaryKeepsAll(ms: seq<Message>, level: Level, nextStep: string)
    requires ms != [] && !level.Light?
    ensures Compacted(ms, level, nextStep, None) == ms
  {
  }

  /** Where nothing is kept, by choice or because no assistant message starts a tail, the prompt stays and one
      message opens with the summary and closes with the next step. */
  lemma BriefCarriesBoth(ms: seq<Message>, level: Level, nextStep: string, summary: string)
    requires ms != [] && (level.Hard? || (level.Medium? && Cut(ms) == |ms|))
    ensures var r := Compacted(ms, level, nextStep, Some(summary));
            && |r| == 2 && r[0] == ms[0] && r[1].Human? && r[1].note.None?
            && summary <= r[1].text && |nextStep| <= |r[1].text| - |summary|
            && r[1].text[|r[1].text| - |nextStep|..] == nextStep
  {
    assert Brief(summary, nextStep).text == summary + ("\n\nNext step: " + nextStep);
  }

  /** Every level leaves a well-formed history that still opens with a human message, whether or not the
      summary could be had. */
  lemma CompactionKeepsWellFormed(ms: seq<Message>, level: Level, nextStep: string, summary: Option<string>)
    requires WellFormed(ms)
    ensures WellFormed(Compacted(ms, level, nextStep, summary))
    ensures OpensWithHuman(ms) ==> OpensWithHuman(Compacted(ms, level, nextStep, summary))
  {
    if level.Light? {
      StrippedKeepsShape(ms);
      ShapeKeepsWellFormed(ms, Stripped(ms));
    } else if summary.Some? {
      var c := Cut(ms);
      if level.Hard? || c >= |ms| {
        var brief := Brief(summary.value, nextStep);
        assert [ms[0], brief][1..] == [brief];
        OneBlock([brief]);
      } else {
        var human := Human(summary.value, None);
        var kept := [ms[0], human] + ms[c..];
        MediumSplits(ms);
        OneBlock([human]);
        BlocksAppend([human], ms[c..]);
        assert kept[1..] == [human] + ms[c..];
        StrippedKeepsShape(kept);
        ShapeKeepsWellFormed(kept, Stripped(kept));
      }
    }
  }

  /** The head that medium summarises and the tail it keeps are both made of complete blocks. */
  lemma MediumSplits(ms: seq<Message>)
    requires WellFormed(ms) && Cut(ms) < |ms|
    ensures Blocks(ms[1..Cut(ms)]) && Blocks(ms[Cut(ms)..])
  {
    var c := Cut(ms);
    assert ms[1..][c - 1] == ms[c];
    CutAtAssistant(ms[1..], c - 1);
    assert ms[1..][..c - 1] == ms[1..c];
    assert ms[1..][c - 1..] == ms[c..];
  }

  /** A history that opens with a human message is never lengthened, and medium leaves at most eight
      messages: the prompt, the brief, and a tail that starts at an assistant message. */
  lemma CompactionSize(ms: seq<Message>, level: Level, nextStep: string, summary: Option<string>)
    requires WellFormed(ms) && |ms| > 1 && OpensWithHuman(ms)
    ensures |Compacted(ms, level, nextStep, summary)| <= |ms|
    ensures level.Medium? && summary.Some? ==> |Compacted(ms, level, nextStep, summary)| <= 2 + KEEP_RECENT
    ensures level.Medium? && summary.Some? && |Compacted(ms, level, nextStep, summary)| > 2 ==>
              Compacted(ms, level, nextStep, summary)[2].AI?
  {
    assert !ms[1].AI?;
  }

  /** When compaction with a summary leaves more messages than there were, for any history at all: if only the
      prompt was there; and for medium also if the assistant speaks first and the whole history is tail. */
  lemma LengthensIff(ms: seq<Message>, level: Level, nextStep: string, summary: string)
    requires ms != []
    ensures |Compacted(ms, level, nextStep, Some(summary))| > |ms| <==>
            !level.Light? && (|ms| == 1 || (level.Medium? && |ms| <= 1 + KEEP_RECENT && ms[1].AI?))
  {
    if level.Medium? && Cut(ms) < |ms| {
      assert |Compacted(ms, level, nextStep, Some(summary))| == 2 + |ms| - Cut(ms);
    }
  }

  // ---------------------------------------------------------------------------------------------
  // In place.

  class MessageArray {
    var messages: seq<Message>

    constructor (messages: seq<Message>)
      ensures this.messages == messages
    {
      this.messages := messages;
    }

    method ToolNameByCallId() returns (names: map<string, string>)
      ensures names == ToolNames(messages)
    {
      names := map[];
      for i := 0 to |messages|
        invariant names == ToolNames(messages[..i])
      {
        assert messages[..i + 1][..i] == messages[..i];
        if messages[i].AI? {
          var calls := messages[i].calls;
          ghost var before := names;
          for j := 0 to |calls|
            invariant names == before + CallNames(calls[..j])
          {
            assert calls[..j + 1][..j] == calls[..j];
            if calls[j].id != "" && calls[j].name != "" {
              names := names[calls[j].id := calls[j].name];
            }
          }
          assert calls[..|calls|] == calls;
        }
      }
      assert messages[..|messages|] == messages;
    }

    method StripToolOutputs()
      modifies this
      ensures messages == Stripped(old(messages))
    {
      var names := ToolNameByCallId();
      for i := 0 to |messages|
        invariant |messages| == |old(messages)|
        invariant names == ToolNames(old(messages))
        invariant forall k :: 0 <= k < i ==> messages[k] == Stripped(old(messages))[k]
        invariant forall k :: i <= k < |messages| ==> messages[k] == old(messages)[k]
      {
        if Strippable(messages[i], names) {
          messages := messages[i := messages[i].(content := Text(CLEARED))];
        }
      }
    }

    /** `summary` is what the model answered, or nothing when the call threw: then nothing has changed. */
    method ApplyCompaction(level: Level, nextStep: string, summary: Option<string>) returns (threw: bool)
      requires messages != []
      modifies this
      ensures messages == Compacted(old(messages), level, nextStep, summary)
      ensures threw <==> !level.Light? && summary.None?
    {
      if level.Light? {
        StripToolOutputs();
        return false;
      }
      var system := messages[0];
      if level.Hard? {
        if summary.None? {
          return true;
        }
        messages := [system, Brief(summary.value, nextStep)];
        return false;
      }
      var cut := if |messages| - KEEP_RECENT > 1 then |messages| - KEEP_RECENT else 1;
      while cut < |messages| && !messages[cut].AI?
        invariant cut >= 1 && SnapForward(messages, cut) == Cut(messages)
        decreases |messages| - cut
      {
        cut := cut + 1;
      }
      if summary.None? {
        return true;
      }
      if cut >= |messages| {
        messages := [system, Brief(summary.value, nextStep)];
        return false;
      }
      messages := [system, Human(summary.value, None)] + messages[cut..];
      StripToolOutputs();
      return false;
    }

    method SetSystemPrompt(system: Message)
      modifies this
      ensures messages == WithSystemPrompt(old(messages), system)
    {
      if |messages| > 0 && messages[0].System? {
        messages := messages[0 := system];
        assert messages == [system] + old(messages)[1..];
      } else {
        messages := [system] + messages;
      }
    }

    method NoteRunError(message: string)
      modifies this
      ensures messages == WithErrorNote(old(messages), message)
    {
      if |messages| == 0 {
        return;
      }
      var last := |messages| - 1;
      messages := messages[last := messages[last].(note := Some(message))];
    }
  }
}
