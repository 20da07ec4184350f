/** One model turn read off its stream: the tokens it yields while it runs, and the tool calls put together
    from deltas that arrive cut up and interleaved. */
module ModelTurn {
  import opened Wrappers
  import opened Sequences

  /** One tool-call delta. An absent or empty field adds nothing; an absent index means the first slot. */
  datatype Delta = Delta(index: Option<nat>, id: string, name: string, args: string)

  datatype Chunk<!Refusal> = Chunk(tokens: seq<string>, reasoning: seq<string>, refusal: Option<Refusal>, deltas: seq<Delta>)

  datatype TurnEvent = Token(content: string) | Reasoning(content: string)

  datatype Partial = Partial(id: string, name: string, args: string)

  datatype ResolvedToolCall<!Args> = ResolvedToolCall(id: string, name: string, args: Args)

  function Slot(d: Delta): nat {
    if d.index.Some? then d.index.value else 0
  }

  /** The deltas of one slot, in order of arrival. */
  function OfSlot(deltas: seq<Delta>, slot: nat): seq<Delta> {
    if deltas == [] then []
    else
      var n := |deltas| - 1;
      OfSlot(deltas[..n], slot) + OneOfSlot(deltas[n], slot)
  }

  function OneOfSlot(d: Delta, slot: nat): seq<Delta> {
    if Slot(d) == slot then [d] else []
  }

  /** What the deltas of one slot add up to: the last id given, the names and the arguments joined. */
  function Joined(deltas: seq<Delta>): Partial {
    if deltas == [] then Partial("", "", "")
    else
      var n := |deltas| - 1;
      Add(Joined(deltas[..n]), deltas[n])
  }

  function Add(p: Partial, d: Delta): Partial {
    Partial(if d.id != "" then d.id else p.id, p.name + d.name, p.args + d.args)
  }

  /** Every slot that got a delta holds exactly what its own deltas add up to. */
  ghost predicate Accumulates(partials: map<nat, Partial>, deltas: seq<Delta>) {
    forall slot: nat ::
      && (slot in partials <==> OfSlot(deltas, slot) != [])
      && (slot in partials ==> partials[slot] == Joined(OfSlot(deltas, slot)))
  }

  lemma AccumulateOne(partials: map<nat, Partial>, deltas: seq<Delta>, d: Delta)
    requires Accumulates(partials, deltas)
    ensures var before := if Slot(d) in partials then partials[Slot(d)] else Partial("", "", "");
            Accumulates(partials[Slot(d) := Add(before, d)], deltas + [d])
  {
    var before := if Slot(d) in partials then partials[Slot(d)] else Partial("", "", "");
    var after := partials[Slot(d) := Add(before, d)];
    assert (deltas + [d])[..|deltas|] == deltas;
    forall slot: nat
      ensures && (slot in after <==> OfSlot(deltas + [d], slot) != [])
              && (slot in after ==> after[slot] == Joined(OfSlot(deltas + [d], slot)))
    {
      var was := OfSlot(deltas, slot);
      assert OfSlot(deltas + [d], slot) == if Slot(d) == slot then was + [d] else was;
      assert (was + [d])[..|was|] == was;
    }
  }

  /** A delta without an index belongs to the first slot. */
  predicate InSlot(d: Delta, slot: nat) {
    d.index == Some(slot) || (d.index.None? && slot == 0)
  }

  /** The names, and the arguments, of one slot, joined in order of arrival. */
  function NamesOf(deltas: seq<Delta>, slot: nat, n: nat): string
    requires n <= |deltas|
  {
    if n == 0 then "" else NamesOf(deltas, slot, n - 1) + if InSlot(deltas[n - 1], slot) then deltas[n - 1].name else ""
  }

  function ArgsOf(deltas: seq<Delta>, slot: nat, n: nat): string
    requires n <= |deltas|
  {
    if n == 0 then "" else ArgsOf(deltas, slot, n - 1) + if InSlot(deltas[n - 1], slot) then deltas[n - 1].args else ""
  }

  /** Delta `k` gives the slot its id: the last of its deltas that carries one. */
  ghost predicate GivesId(deltas: seq<Delta>, slot: nat, n: nat, k: nat)
    requires n <= |deltas|
  {
    && k < n && InSlot(deltas[k], slot) && deltas[k].id != ""
    && forall j :: k < j < n && InSlot(deltas[j], slot) ==> deltas[j].id == ""
  }

  lemma OfSlotNext(deltas: seq<Delta>, slot: nat, n: nat)
    requires n < |deltas|
    ensures OfSlot(deltas[..n + 1], slot) == OfSlot(deltas[..n], slot) + OneOfSlot(deltas[n], slot)
    ensures OneOfSlot(deltas[n], slot) == if InSlot(deltas[n], slot) then [deltas[n]] else []
  {
    assert deltas[..n + 1][..n] == deltas[..n];
  }

  lemma JoinedNext(deltas: seq<Delta>, d: Delta)
    ensures Joined(deltas + [d]) == Add(Joined(deltas), d)
  {
    assert (deltas + [d])[..|deltas|] == deltas;
  }

  /** What the first `n` deltas make of a slot. */
  function SlotAfter(deltas: seq<Delta>, slot: nat, n: nat): Partial
    requires n <= |deltas|
  {
    Joined(OfSlot(deltas[..n], slot))
  }

  lemma SlotNext(deltas: seq<Delta>, slot: nat, n: nat)
    requires n < |deltas|
    ensures SlotAfter(deltas, slot, n + 1) ==
            if InSlot(deltas[n], slot) then Add(SlotAfter(deltas, slot, n), deltas[n]) else SlotAfter(deltas, slot, n)
  {
    var before := OfSlot(deltas[..n], slot);
    OfSlotNext(deltas, slot, n);
    if InSlot(deltas[n], slot) {
      JoinedNext(before, deltas[n]);
    } else {
      assert before + [] == before;
    }
  }

  lemma {:induction false} SlotTextIs(deltas: seq<Delta>, slot: nat, n: nat)
    requires n <= |deltas|
    ensures SlotAfter(deltas, slot, n).name == NamesOf(deltas, slot, n)
    ensures SlotAfter(deltas, slot, n).args == ArgsOf(deltas, slot, n)
  {
    if n > 0 {
      var last := n - 1;
      SlotTextIs(deltas, slot, last);
      SlotNext(deltas, slot, last);
      if !InSlot(deltas[last], slot) {
        assert NamesOf(deltas, slot, last) + "" == NamesOf(deltas, slot, last);
        assert ArgsOf(deltas, slot, last) + "" == ArgsOf(deltas, slot, last);
      }
    }
  }

  lemma {:induction false} SlotIdIs(deltas: seq<Delta>, slot: nat, n: nat)
    requires n <= |deltas|
    ensures SlotAfter(deltas, slot, n).id == "" <==>
            forall k :: 0 <= k < n && InSlot(deltas[k], slot) ==> deltas[k].id == ""
    ensures forall k: nat :: GivesId(deltas, slot, n, k) ==> SlotAfter(deltas, slot, n).id == deltas[k].id
  {
    if n > 0 {
      var last := n - 1;
      SlotIdIs(deltas, slot, last);
      SlotNext(deltas, slot, last);
      forall k: nat | GivesId(deltas, slot, n, k)
        ensures SlotAfter(deltas, slot, n).id == deltas[k].id
      {
        assert k < last ==> GivesId(deltas, slot, last, k);
      }
    }
  }

  lemma {:induction false} SlotIsEmptyIff(deltas: seq<Delta>, slot: nat, n: nat)
    requires n <= |deltas|
    ensures OfSlot(deltas[..n], slot) == [] <==> forall k :: 0 <= k < n ==> !InSlot(deltas[k], slot)
  {
    if n > 0 {
      SlotIsEmptyIff(deltas, slot, n - 1);
      OfSlotNext(deltas, slot, n - 1);
    }
  }

  /** Each slot holds, told from the deltas alone: the last id it was given, its names joined, its arguments
      joined; and there is a slot exactly where a delta belongs. */
  lemma PartialsAre(partials: map<nat, Partial>, deltas: seq<Delta>, slot: nat)
    requires Accumulates(partials, deltas)
    ensures slot in partials <==> exists d :: d in deltas && InSlot(d, slot)
    ensures slot in partials ==>
              && partials[slot].name == NamesOf(deltas, slot, |deltas|)
              && partials[slot].args == ArgsOf(deltas, slot, |deltas|)
              && (partials[slot].id == "" <==> forall d :: d in deltas && InSlot(d, slot) ==> d.id == "")
              && forall k: nat :: GivesId(deltas, slot, |deltas|, k) ==> partials[slot].id == deltas[k].id
  {
    SlotTextIs(deltas, slot, |deltas|);
    PartialIs(partials, deltas, slot);
    SlotIdIs(deltas, slot, |deltas|);
    SlotIsEmptyIff(deltas, slot, |deltas|);
  }

  lemma PartialIs(partials: map<nat, Partial>, deltas: seq<Delta>, slot: nat)
    requires Accumulates(partials, deltas)
    ensures slot in partials <==> OfSlot(deltas[..|deltas|], slot) != []
    ensures slot in partials ==> partials[slot] == SlotAfter(deltas, slot, |deltas|)
  {
    assert deltas[..|deltas|] == deltas;
    assert slot in partials <==> OfSlot(deltas, slot) != [];
  }

  function AllDeltas<Refusal>(chunks: seq<Chunk<Refusal>>): seq<Delta> {
    if chunks == [] then [] else AllDeltas(chunks[..|chunks| - 1]) + chunks[|chunks| - 1].deltas
  }

  function TokensOf(tokens: seq<string>): seq<TurnEvent> {
    seq(|tokens|, i requires 0 <= i < |tokens| => Token(tokens[i]))
  }

  function ReasoningOf(reasoning: seq<string>): seq<TurnEvent> {
    seq(|reasoning|, i requires 0 <= i < |reasoning| => Reasoning(reasoning[i]))
  }

  /** Everything a stream yields while it runs. */
  function AllEvents<Refusal>(chunks: seq<Chunk<Refusal>>): seq<TurnEvent> {
    if chunks == [] then []
    else
      var n := |chunks| - 1;
      AllEvents(chunks[..n]) + TokensOf(chunks[n].tokens) + ReasoningOf(chunks[n].reasoning)
  }

  function Text(events: seq<TurnEvent>): string {
    if events == [] then ""
    else
      var n := |events| - 1;
      Text(events[..n]) + if events[n].Token? then events[n].content else ""
  }

  /** The first refusal a chunk carries. */
  function FirstRefusal<Refusal>(chunks: seq<Chunk<Refusal>>): Option<Refusal> {
    if chunks == [] then None
    else
      var before := FirstRefusal(chunks[..|chunks| - 1]);
      if before.Some? then before else chunks[|chunks| - 1].refusal
  }

  /** What was yielded as tokens, and as reasoning, piece by piece. */
  function TokensYielded(events: seq<TurnEvent>): seq<string> {
    if events == [] then []
    else
      var n := |events| - 1;
      TokensYielded(events[..n]) + if events[n].Token? then [events[n].content] else []
  }

  function ReasoningYielded(events: seq<TurnEvent>): seq<string> {
    if events == [] then []
    else
      var n := |events| - 1;
      ReasoningYielded(events[..n]) + if events[n].Reasoning? then [events[n].content] else []
  }

  lemma {:induction false} YieldedAppend(a: seq<TurnEvent>, b: seq<TurnEvent>)
    ensures TokensYielded(a + b) == TokensYielded(a) + TokensYielded(b)
    ensures ReasoningYielded(a + b) == ReasoningYielded(a) + ReasoningYielded(b)
  {
    if b == [] {
      assert a + b == a;
    } else {
      var n := |b| - 1;
      YieldedAppend(a, b[..n]);
      AppendLast(a, b);
    }
  }

  lemma {:induction false} YieldedOfPieces(pieces: seq<string>)
    ensures TokensYielded(TokensOf(pieces)) == pieces && ReasoningYielded(TokensOf(pieces)) == []
    ensures TokensYielded(ReasoningOf(pieces)) == [] && ReasoningYielded(ReasoningOf(pieces)) == pieces
  {
    if pieces != [] {
      var n := |pieces| - 1;
      YieldedOfPieces(pieces[..n]);
      assert TokensOf(pieces)[..n] == TokensOf(pieces[..n]);
      assert ReasoningOf(pieces)[..n] == ReasoningOf(pieces[..n]);
      assert pieces == pieces[..n] + [pieces[n]];
    }
  }

  /** All the text, and all the reasoning, the chunks of a stream carry. */
  function AllTokens<Refusal>(chunks: seq<Chunk<Refusal>>): seq<string> {
    if chunks == [] then [] else AllTokens(chunks[..|chunks| - 1]) + chunks[|chunks| - 1].tokens
  }

  function AllReasoning<Refusal>(chunks: seq<Chunk<Refusal>>): seq<string> {
    if chunks == [] then [] else AllReasoning(chunks[..|chunks| - 1]) + chunks[|chunks| - 1].reasoning
  }

  /** A turn yields the text and the reasoning of its stream, each piece once and in order. */
  lemma {:induction false} EverythingIsYielded<Refusal>(chunks: seq<Chunk<Refusal>>)
    ensures TokensYielded(AllEvents(chunks)) == AllTokens(chunks)
    ensures ReasoningYielded(AllEvents(chunks)) == AllReasoning(chunks)
  {
    if chunks != [] {
      var n := |chunks| - 1;
      var before, tokens, reasoning := AllEvents(chunks[..n]), TokensOf(chunks[n].tokens), ReasoningOf(chunks[n].reasoning);
      EverythingIsYielded(chunks[..n]);
      YieldedOfPieces(chunks[n].tokens);
      YieldedOfPieces(chunks[n].reasoning);
      YieldedAppend(before, tokens);
      YieldedAppend(before + tokens, reasoning);
    }
  }

  function JoinAll(pieces: seq<string>): string {
    if pieces == [] then "" else JoinAll(pieces[..|pieces| - 1]) + pieces[|pieces| - 1]
  }

  lemma {:induction false} TextJoinsTokens(events: seq<TurnEvent>)
    ensures Text(events) == JoinAll(TokensYielded(events))
  {
    if events != [] {
      var n := |events| - 1;
      TextJoinsTokens(events[..n]);
      if events[n].Token? {
        var before := TokensYielded(events[..n]);
        assert (before + [events[n].content])[..|before|] == before;
      } else {
        assert TokensYielded(events[..n]) + [] == TokensYielded(events[..n]);
      }
    }
  }

  /** Chunk by chunk: a later chunk adds after everything before it, its text first. */
  lemma {:induction false} EventsInOrder<Refusal>(before: seq<Chunk<Refusal>>, chunk: Chunk<Refusal>)
    ensures AllEvents(before + [chunk]) == AllEvents(before) + (TokensOf(chunk.tokens) + ReasoningOf(chunk.reasoning))
  {
    assert (before + [chunk])[..|before|] == before;
    AppendAssociates(AllEvents(before), TokensOf(chunk.tokens), ReasoningOf(chunk.reasoning));
  }

  /** The refusal of a turn is the first its stream carries. */
  lemma {:induction false} RefusalIsFirst<Refusal>(chunks: seq<Chunk<Refusal>>)
    ensures FirstRefusal(chunks).None? <==> forall k :: 0 <= k < |chunks| ==> chunks[k].refusal.None?
    ensures forall k :: 0 <= k < |chunks| && chunks[k].refusal.Some? && (forall j :: 0 <= j < k ==> chunks[j].refusal.None?) ==>
              FirstRefusal(chunks) == chunks[k].refusal
  {
    if chunks != [] {
      var n := |chunks| - 1;
      RefusalIsFirst(chunks[..n]);
      assert forall k :: 0 <= k < n ==> chunks[..n][k] == chunks[k];
    }
  }

  lemma TextOfOneMore(events: seq<TurnEvent>, e: TurnEvent)
    ensures Text(events + [e]) == Text(events) + if e.Token? then e.content else ""
  {
    assert (events + [e])[..|events|] == events;
  }

  lemma PiecesNext(pieces: seq<string>, j: nat)
    requires j < |pieces|
    ensures TokensOf(pieces[..j + 1]) == TokensOf(pieces[..j]) + [Token(pieces[j])]
    ensures ReasoningOf(pieces[..j + 1]) == ReasoningOf(pieces[..j]) + [Reasoning(pieces[j])]
  {
  }

  method YieldTokens(tokens: seq<string>, before: seq<TurnEvent>, textBefore: string)
    returns (events: seq<TurnEvent>, fullText: string)
    requires textBefore == Text(before)
    ensures fullText == Text(events) && events == before + TokensOf(tokens)
  {
    events, fullText := before, textBefore;
    for j := 0 to |tokens|
      invariant fullText == Text(events) && events == before + TokensOf(tokens[..j])
    {
      TextOfOneMore(events, Token(tokens[j]));
      PiecesNext(tokens, j);
      fullText := fullText + tokens[j];
      events := events + [Token(tokens[j])];
    }
    assert tokens[..|tokens|] == tokens;
  }

  method YieldReasoning(reasoning: seq<string>, before: seq<TurnEvent>) returns (events: seq<TurnEvent>)
    ensures Text(events) == Text(before) && events == before + ReasoningOf(reasoning)
  {
    events := before;
    for j := 0 to |reasoning|
      invariant Text(events) == Text(before) && events == before + ReasoningOf(reasoning[..j])
    {
      TextOfOneMore(events, Reasoning(reasoning[j]));
      PiecesNext(reasoning, j);
      events := events + [Reasoning(reasoning[j])];
    }
    assert reasoning[..|reasoning|] == reasoning;
  }

  method AddDeltas(before: map<nat, Partial>, ghost seen: seq<Delta>, deltas: seq<Delta>) returns (partials: map<nat, Partial>)
    requires Accumulates(before, seen)
    ensures Accumulates(partials, seen + deltas)
  {
    partials := before;
    assert seen + deltas[..0] == seen;
    for j := 0 to |deltas|
      invariant Accumulates(partials, seen + deltas[..j])
    {
      var d := deltas[j];
      AccumulateOne(partials, seen + deltas[..j], d);
      assert seen + deltas[..j] + [d] == seen + deltas[..j + 1];
      var p := if Slot(d) in partials then partials[Slot(d)] else Partial("", "", "");
      if d.id != "" {
        p := p.(id := d.id);
      }
      p := p.(name := p.name + d.name);
      p := p.(args := p.args + d.args);
      partials := partials[Slot(d) := p];
    }
    assert deltas[..|deltas|] == deltas;
  }

  lemma NextChunk<Refusal>(chunks: seq<Chunk<Refusal>>, i: nat)
    requires i < |chunks|
    ensures AllEvents(chunks[..i + 1]) ==
            AllEvents(chunks[..i]) + TokensOf(chunks[i].tokens) + ReasoningOf(chunks[i].reasoning)
    ensures AllDeltas(chunks[..i + 1]) == AllDeltas(chunks[..i]) + chunks[i].deltas
    ensures FirstRefusal(chunks[..i + 1]) ==
            if FirstRefusal(chunks[..i]).Some? then FirstRefusal(chunks[..i]) else chunks[i].refusal
  {
    assert chunks[..i + 1][..i] == chunks[..i];
  }

  /** Reads a whole stream. The full text is exactly what was yielded as tokens, and each slot holds what
      its deltas add up to, however they were spread over chunks. */
  method ReadTurn<Refusal>(chunks: seq<Chunk<Refusal>>)
    returns (events: seq<TurnEvent>, fullText: string, partials: map<nat, Partial>, refusal: Option<Refusal>)
    ensures events == AllEvents(chunks) && fullText == Text(events)
    ensures Accumulates(partials, AllDeltas(chunks))
    ensures refusal == FirstRefusal(chunks)
  {
    events, fullText, partials, refusal := [], "", map[], None;
    for i := 0 to |chunks|
      invariant events == AllEvents(chunks[..i]) && fullText == Text(events)
      invariant Accumulates(partials, AllDeltas(chunks[..i]))
      invariant refusal == FirstRefusal(chunks[..i])
    {
      NextChunk(chunks, i);
      events, fullText := YieldTokens(chunks[i].tokens, events, fullText);
      events := YieldReasoning(chunks[i].reasoning, events);
      if refusal.None? {
        refusal := chunks[i].refusal;
      }
      partials := AddDeltas(partials, AllDeltas(chunks[..i]), chunks[i].deltas);
    }
    assert chunks[..|chunks|] == chunks;
  }

  // ---------------------------------------------------------------------------------------------
  // Assembling the calls.

  /** The calls of the slots below `bound`, in slot order. Arguments that do not parse become empty ones;
      a call without an id gets a fresh one. */
  function Calls<Args>(partials: map<nat, Partial>, bound: nat, parse: string -> Option<Args>, empty: Args,
                       mint: nat -> string): seq<ResolvedToolCall<Args>>
  {
    if bound == 0 then []
    else
      var slot := bound - 1;
      Calls(partials, slot, parse, empty, mint)
      + if slot in partials && partials[slot].name != "" then [CallOf(partials[slot], slot, parse, empty, mint)] else []
  }

  function CallOf<Args>(p: Partial, slot: nat, parse: string -> Option<Args>, empty: Args, mint: nat -> string): ResolvedToolCall<Args> {
    var parsed := parse(if p.args != "" then p.args else "{}");
    ResolvedToolCall(if p.id != "" then p.id else mint(slot), p.name, if parsed.Some? then parsed.value else empty)
  }

  method AssembleToolCalls<Args>(partials: map<nat, Partial>, bound: nat, parse: string -> Option<Args>, empty: Args,
                                 mint: nat -> string) returns (calls: seq<ResolvedToolCall<Args>>)
    requires forall slot :: slot in partials ==> slot < bound
    ensures calls == Calls(partials, bound, parse, empty, mint)
  {
    calls := [];
    for slot := 0 to bound
      invariant calls == Calls(partials, slot, parse, empty, mint)
    {
      if slot in partials && partials[slot].name != "" {
        calls := calls + [CallOf(partials[slot], slot, parse, empty, mint)];
      }
    }
  }

  /** Every call has a name and an id its result can be paired by, and only named slots make calls. */
  lemma {:induction false} CallsAreUsable<Args>(partials: map<nat, Partial>, bound: nat, parse: string -> Option<Args>,
                                                empty: Args, mint: nat -> string)
    requires forall slot :: mint(slot) != ""
    ensures forall c :: c in Calls(partials, bound, parse, empty, mint) ==> c.id != "" && c.name != ""
    ensures forall c :: c in Calls(partials, bound, parse, empty, mint) ==>
              exists slot :: 0 <= slot < bound && slot in partials && c == CallOf(partials[slot], slot, parse, empty, mint)
  {
    if bound > 0 {
      CallsAreUsable(partials, bound - 1, parse, empty, mint);
    }
  }

  /** How many slots below `bound` have a name. */
  function NamedBelow(partials: map<nat, Partial>, bound: nat): nat {
    if bound == 0 then 0
    else NamedBelow(partials, bound - 1) + if bound - 1 in partials && partials[bound - 1].name != "" then 1 else 0
  }

  /** The slot's own name and id, or a fresh id if it was given none; its arguments as they parse, empty if they do
      not, and those of no text at all if it has none. */
  ghost predicate IsCallOf<Args>(c: ResolvedToolCall<Args>, p: Partial, slot: nat, parse: string -> Option<Args>,
                                 empty: Args, mint: nat -> string)
  {
    && c.name == p.name
    && (p.id != "" ==> c.id == p.id) && (p.id == "" ==> c.id == mint(slot))
    && (p.args != "" && parse(p.args).Some? ==> c.args == parse(p.args).value)
    && (p.args == "" && parse("{}").Some? ==> c.args == parse("{}").value)
    && ((p.args != "" && parse(p.args).None?) || (p.args == "" && parse("{}").None?) ==> c.args == empty)
  }

  /** One call for each slot that has a name, in slot order, and no other. */
  lemma {:induction false} CallsAreOfSlots<Args>(partials: map<nat, Partial>, bound: nat, parse: string -> Option<Args>,
                                                 empty: Args, mint: nat -> string)
    ensures |Calls(partials, bound, parse, empty, mint)| == NamedBelow(partials, bound)
    ensures forall slot {:trigger CallAt(partials, bound, parse, empty, mint, slot)} :: 0 <= slot < bound ==>
              CallAt(partials, bound, parse, empty, mint, slot)
  {
    if bound > 0 {
      var last := bound - 1;
      CallsAreOfSlots(partials, last, parse, empty, mint);
      forall slot | 0 <= slot < bound
        ensures CallAt(partials, bound, parse, empty, mint, slot)
      {
        if slot < last {
          assert CallAt(partials, last, parse, empty, mint, slot);
        }
      }
    }
  }

  ghost predicate CallAt<Args>(partials: map<nat, Partial>, bound: nat, parse: string -> Option<Args>, empty: Args,
                               mint: nat -> string, slot: nat)
  {
    slot in partials && partials[slot].name != "" ==>
      var calls := Calls(partials, bound, parse, empty, mint);
      NamedBelow(partials, slot) < |calls| && IsCallOf(calls[NamedBelow(partials, slot)], partials[slot], slot, parse, empty, mint)
  }

  // ---------------------------------------------------------------------------------------------
  // How the provider cuts and interleaves its deltas does not matter.

  /** Two streams that give every slot the same deltas leave the same partial calls. */
  lemma InterleavingDoesNotMatter(p: map<nat, Partial>, q: map<nat, Partial>, a: seq<Delta>, b: seq<Delta>)
    requires Accumulates(p, a) && Accumulates(q, b)
    requires forall slot: nat :: OfSlot(a, slot) == OfSlot(b, slot)
    ensures p == q
  {
    forall slot: nat
      ensures slot in p <==> slot in q
      ensures slot in p ==> p[slot] == q[slot]
    {
      assert OfSlot(a, slot) == OfSlot(b, slot);
    }
  }

  lemma {:induction false} OfSlotAppend(a: seq<Delta>, b: seq<Delta>, slot: nat)
    ensures OfSlot(a + b, slot) == OfSlot(a, slot) + OfSlot(b, slot)
  {
    if b == [] {
      assert a + b == a;
    } else {
      var n := |b| - 1;
      OfSlotAppend(a, b[..n], slot);
      AppendLast(a, b);
      AppendAssociates(OfSlot(a, slot), OfSlot(b[..n], slot), OneOfSlot(b[n], slot));
    }
  }

  function Merge(p: Partial, q: Partial): Partial {
    Partial(if q.id != "" then q.id else p.id, p.name + q.name, p.args + q.args)
  }

  lemma {:induction false} JoinedAppend(a: seq<Delta>, b: seq<Delta>)
    ensures Joined(a + b) == Merge(Joined(a), Joined(b))
  {
    if b == [] {
      assert a + b == a;
    } else {
      var n := |b| - 1;
      JoinedAppend(a, b[..n]);
      AppendLast(a, b);
      MergeThenAdd(Joined(a), Joined(b[..n]), b[n]);
    }
  }

  lemma MergeThenAdd(p: Partial, q: Partial, d: Delta)
    ensures Merge(p, Add(q, d)) == Add(Merge(p, q), d)
  {
    AppendAssociates(p.name, q.name, d.name);
    AppendAssociates(p.args, q.args, d.args);
  }

  /** Cutting one delta in two changes nothing, wherever its text is cut and whatever deltas of other
      slots come in between. */
  lemma CuttingDoesNotMatter(p: map<nat, Partial>, q: map<nat, Partial>, before: seq<Delta>, between: seq<Delta>,
                             after: seq<Delta>, whole: Delta, first: Delta, second: Delta)
    requires Slot(first) == Slot(second) == Slot(whole)
    requires whole.name == first.name + second.name && whole.args == first.args + second.args
    requires whole.id == if second.id != "" then second.id else first.id
    requires OfSlot(between, Slot(whole)) == []
    requires Accumulates(p, before + [whole] + between + after)
    requires Accumulates(q, before + [first] + between + [second] + after)
    ensures p == q
  {
    forall slot: nat
      ensures slot in p <==> slot in q
      ensures slot in p ==> p[slot] == q[slot]
    {
      CutAtSlot(before, between, after, whole, first, second, slot);
    }
  }

  lemma CutAtSlot(before: seq<Delta>, between: seq<Delta>, after: seq<Delta>, whole: Delta, first: Delta, second: Delta,
                  slot: nat)
    requires Slot(first) == Slot(second) == Slot(whole)
    requires whole.name == first.name + second.name && whole.args == first.args + second.args
    requires whole.id == if second.id != "" then second.id else first.id
    requires OfSlot(between, Slot(whole)) == []
    ensures var a, b := before + [whole] + between + after, before + [first] + between + [second] + after;
            && (OfSlot(a, slot) == [] <==> OfSlot(b, slot) == [])
            && Joined(OfSlot(a, slot)) == Joined(OfSlot(b, slot))
  {
    AppendAssociates(before + [first] + between, [second], after);
    Around(before, whole, between, after, slot);
    Around(before, first, between, [second] + after, slot);
    OneDelta(second, slot);
    OfSlotAppend([second], after, slot);
    if slot == Slot(whole) {
      AppendAssociates(OfSlot(before, slot) + [first], [second], OfSlot(after, slot));
      JoinedCut(OfSlot(before, slot), OfSlot(after, slot), whole, first, second);
    } else {
      assert [] + OfSlot(after, slot) == OfSlot(after, slot);
    }
  }

  /** The deltas of a slot around one delta, when none of its own slot follow directly. */
  lemma Around(before: seq<Delta>, d: Delta, between: seq<Delta>, rest: seq<Delta>, slot: nat)
    requires OfSlot(between, Slot(d)) == []
    ensures OfSlot(before + [d] + between + rest, slot) ==
            if slot == Slot(d) then OfSlot(before, slot) + [d] + OfSlot(rest, slot)
            else OfSlot(before, slot) + OfSlot(between, slot) + OfSlot(rest, slot)
  {
    UpTo(before, d, between, slot);
    OfSlotAppend(before + [d] + between, rest, slot);
  }

  lemma UpTo(before: seq<Delta>, d: Delta, between: seq<Delta>, slot: nat)
    requires OfSlot(between, Slot(d)) == []
    ensures OfSlot(before + [d] + between, slot) ==
            if slot == Slot(d) then OfSlot(before, slot) + [d] else OfSlot(before, slot) + OfSlot(between, slot)
  {
    OneDelta(d, slot);
    OfSlotAppend(before + [d], between, slot);
    OfSlotAppend(before, [d], slot);
  }

  lemma JoinedCut(x: seq<Delta>, z: seq<Delta>, whole: Delta, first: Delta, second: Delta)
    requires whole.name == first.name + second.name && whole.args == first.args + second.args
    requires whole.id == if second.id != "" then second.id else first.id
    ensures Joined(x + [whole] + z) == Joined(x + [first] + [second] + z)
  {
    JoinedAppend(x + [whole], z);
    JoinedAppend(x + [first] + [second], z);
    var n := |x|;
    assert (x + [whole])[..n] == x;
    assert (x + [first] + [second])[..n + 1] == x + [first];
    assert (x + [first])[..n] == x;
    var p := Joined(x);
    assert p.name + whole.name == p.name + first.name + second.name;
    assert p.args + whole.args == p.args + first.args + second.args;
  }

  lemma OneDelta(d: Delta, slot: nat)
    ensures OfSlot([d], slot) == if Slot(d) == slot then [d] else []
    ensures Joined([d]) == Partial(d.id, d.name, d.args)
  {
    assert [d][..0] == [];
  }
}

/** One batch of tool calls: each settles in its own time, the results are collected in call order, and
    the link queue is settled by the last. */
module ToolDispatch {
  import opened Wrappers
  import opened HandOffs

  class Dispatch<Link(==), R> {
    const links: LinkQueue<Link>
    var results: seq<Option<R>>

    ghost predicate Valid()
      reads this, links
    {
      && links.Valid()
      && (links.done <==> forall i :: 0 <= i < |results| ==> results[i].Some?)
    }

    function Collected(): seq<R>
      reads this
      requires forall i :: 0 <= i < |results| ==> results[i].Some?
    {
      seq(|results|, i requires 0 <= i < |results| && results[i].Some? reads this => results[i].value)
    }

    /** A batch holds one call at least. */
    constructor (calls: nat)
      requires calls > 0
      ensures Valid() && fresh(links) && links.emitted == []
      ensures results == seq(calls, i => None)
    {
      links := new LinkQueue();
      results := seq(calls, i => None);
      new;
      assert results[0].None?;
    }

    /** Tool `i` has settled, by a result or by the text of its error. */
    method Complete(i: nat, result: R)
      requires Valid() && i < |results| && results[i].None?
      modifies this, links
      ensures Valid() && results == old(results)[i := Some(result)]
      ensures links.emitted == old(links.emitted) && links.delivered == old(links.delivered)
      ensures links.done ==> links.settledAt == |links.emitted|
    {
      assert !links.done;
      results := results[i := Some(result)];
      if forall k :: 0 <= k < |results| ==> results[k].Some? {
        links.Settle();
      }
    }
  }

  /** What happens while a batch runs: a tool emits a link, tool `i` settles, or the agent loop asks for the
      next link. */
  datatype BatchAction<Link> = Emits(link: Link) | Settles(i: nat) | Asks

  /** The links emitted in the first `n` actions. */
  function LinksOf<Link>(actions: seq<BatchAction<Link>>, n: nat): seq<Link>
    requires n <= |actions|
  {
    if n == 0 then []
    else LinksOf(actions, n - 1) + if actions[n - 1].Emits? then [actions[n - 1].link] else []
  }

  lemma {:induction false} LinksGrow<Link>(actions: seq<BatchAction<Link>>, m: nat, n: nat)
    requires m <= n <= |actions|
    ensures LinksOf(actions, m) <= LinksOf(actions, n)
  {
    if m < n {
      LinksGrow(actions, m, n - 1);
    }
  }

  predicate HasSettled<Link>(actions: seq<BatchAction<Link>>, n: nat, i: nat)
    requires n <= |actions|
  {
    exists k :: 0 <= k < n && actions[k] == Settles(i)
  }

  /** Every one of `calls` tools has settled in the first `n` actions. */
  predicate AllSettled<Link>(actions: seq<BatchAction<Link>>, n: nat, calls: nat)
    requires n <= |actions|
  {
    forall i: nat :: i < calls ==> HasSettled(actions, n, i)
  }

  lemma SettledOnce<Link>(actions: seq<BatchAction<Link>>, n: nat, i: nat)
    requires n < |actions|
    ensures HasSettled(actions, n + 1, i) <==> HasSettled(actions, n, i) || actions[n] == Settles(i)
  {
  }

  lemma StaysSettled<Link>(actions: seq<BatchAction<Link>>, m: nat, n: nat, calls: nat)
    requires m <= n <= |actions| && AllSettled(actions, m, calls)
    ensures AllSettled(actions, n, calls)
  {
    forall i: nat | i < calls
      ensures HasSettled(actions, n, i)
    {
      assert HasSettled(actions, m, i);
    }
  }

  /** The batch after `n` actions: each tool's place is filled once it has settled, the links emitted are those
      of the actions, and once all have settled none emitted before is beyond the mark. */
  ghost predicate Reflects<Link, R>(results: seq<Option<R>>, answers: seq<R>, emitted: seq<Link>, done: bool, settledAt: nat,
                                    actions: seq<BatchAction<Link>>, n: nat)
    requires n <= |actions|
  {
    && |results| == |answers| && emitted == LinksOf(actions, n)
    && (forall i :: 0 <= i < |answers| ==> results[i] == if HasSettled(actions, n, i) then Some(answers[i]) else None)
    && (done <==> AllSettled(actions, n, |answers|))
    && (done ==> forall m: nat :: m <= n && !AllSettled(actions, m, |answers|) ==> |LinksOf(actions, m)| <= settledAt)
  }

  lemma StillReflects<Link, R>(results: seq<Option<R>>, answers: seq<R>, emitted: seq<Link>, done: bool, settledAt: nat,
                               actions: seq<BatchAction<Link>>, n: nat)
    requires n < |actions| && Reflects(results, answers, emitted, done, settledAt, actions, n)
    requires actions[n].Settles? ==> HasSettled(actions, n, actions[n].i) || actions[n].i >= |answers|
    ensures Reflects(results, answers, LinksOf(actions, n + 1), done, settledAt, actions, n + 1)
  {
    SameSettled(actions, n, |answers|);
    if done {
      StaysSettled(actions, n, n + 1, |answers|);
    }
  }

  lemma SameSettled<Link>(actions: seq<BatchAction<Link>>, n: nat, calls: nat)
    requires n < |actions|
    requires actions[n].Settles? ==> HasSettled(actions, n, actions[n].i) || actions[n].i >= calls
    ensures forall i: nat :: i < calls ==> (HasSettled(actions, n + 1, i) <==> HasSettled(actions, n, i))
    ensures AllSettled(actions, n + 1, calls) <==> AllSettled(actions, n, calls)
  {
    forall i: nat | i < calls
      ensures HasSettled(actions, n + 1, i) <==> HasSettled(actions, n, i)
    {
      SettledOnce(actions, n, i);
    }
    if AllSettled(actions, n, calls) {
      StaysSettled(actions, n, n + 1, calls);
    }
  }

  lemma SettlingReflects<Link, R>(results: seq<Option<R>>, answers: seq<R>, emitted: seq<Link>, done: bool, settledAt: nat,
                                  actions: seq<BatchAction<Link>>, n: nat, done': bool, settledAt': nat)
    requires n < |actions| && Reflects(results, answers, emitted, done, settledAt, actions, n) && !done
    requires actions[n].Settles? && actions[n].i < |answers|
    requires var results' := results[actions[n].i := Some(answers[actions[n].i])];
             done' <==> forall i :: 0 <= i < |results'| ==> results'[i].Some?
    requires done' ==> settledAt' == |emitted|
    ensures Reflects(results[actions[n].i := Some(answers[actions[n].i])], answers, LinksOf(actions, n + 1), done', settledAt',
                     actions, n + 1)
  {
    var results' := results[actions[n].i := Some(answers[actions[n].i])];
    forall i | 0 <= i < |answers|
      ensures results'[i] == if HasSettled(actions, n + 1, i) then Some(answers[i]) else None
    {
      SettledOnce(actions, n, i);
    }
    if done' {
      var next := n + 1;
      forall i: nat | i < |answers|
        ensures HasSettled(actions, next, i)
      {
        assert results'[i].Some?;
      }
    }
    forall m: nat | m <= n
      ensures |LinksOf(actions, m)| <= |emitted|
    {
      LinksGrow(actions, m, n);
    }
  }

  /** However the tools' results, their links and the consumer's requests interleave: results come in call
      order once all have settled; what comes out is what was emitted, in order, and every link emitted before
      the last tool settled comes out before the end. */
  method DispatchTools<Link(==), R>(answers: seq<R>, actions: seq<BatchAction<Link>>)
    returns (collected: seq<R>, settled: bool, out: seq<Link>)
    requires |answers| > 0
    ensures settled <==> AllSettled(actions, |actions|, |answers|)
    ensures settled ==> collected == answers
    ensures out <= LinksOf(actions, |actions|)
    ensures settled ==> forall m: nat :: m <= |actions| && !AllSettled(actions, m, |answers|) ==> LinksOf(actions, m) <= out
  {
    var batch := new Dispatch<Link, R>(|answers|);
    out := [];
    for k := 0 to |actions|
      invariant batch.Valid() && fresh(batch) && fresh(batch.links)
      invariant batch.links.delivered == out
      invariant Reflects(batch.results, answers, batch.links.emitted, batch.links.done, batch.links.settledAt, actions, k)
    {
      out := Act(batch, answers, actions, k, out);
    }
    settled := batch.links.done;
    collected := if settled then batch.Collected() else [];
    if settled && !batch.links.consumer.Finished? {
      var rest := batch.links.DrainAfterSettle();
      out := out + rest;
    }
    forall m: nat | settled && m <= |actions| && !AllSettled(actions, m, |answers|)
      ensures LinksOf(actions, m) <= out
    {
      LinksGrow(actions, m, |actions|);
    }
  }

  /** One action. */
  method Act<Link(==), R>(batch: Dispatch<Link, R>, answers: seq<R>, actions: seq<BatchAction<Link>>, k: nat, out: seq<Link>)
    returns (out': seq<Link>)
    requires batch.Valid() && k < |actions| && batch.links.delivered == out
    requires Reflects(batch.results, answers, batch.links.emitted, batch.links.done, batch.links.settledAt, actions, k)
    modifies batch, batch.links
    ensures batch.Valid() && batch.links.delivered == out'
    ensures Reflects(batch.results, answers, batch.links.emitted, batch.links.done, batch.links.settledAt, actions, k + 1)
  {
    out' := out;
    match actions[k] {
      case Emits(link) =>
        StillReflects(batch.results, answers, batch.links.emitted, batch.links.done, batch.links.settledAt, actions, k);
        batch.links.Emit(link);
      case Settles(i) =>
        if i < |answers| && batch.results[i].None? {
          ghost var results, emitted, done, mark := batch.results, batch.links.emitted, batch.links.done, batch.links.settledAt;
          batch.Complete(i, answers[i]);
          SettlingReflects(results, answers, emitted, done, mark, actions, k, batch.links.done, batch.links.settledAt);
        } else {
          StillReflects(batch.results, answers, batch.links.emitted, batch.links.done, batch.links.settledAt, actions, k);
        }
      case Asks =>
        StillReflects(batch.results, answers, batch.links.emitted, batch.links.done, batch.links.settledAt, actions, k);
        if batch.links.consumer.Idle? || batch.links.consumer.Woken? {
          var item := batch.links.Step();
          if item.Some? {
            out' := out + [item.value];
          }
        }
    }
  }
}
