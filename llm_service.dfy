/** The sentence sequencer of the LLM service: model tokens are collected in
    `sentence_buffer`, every completed sentence is emitted as an `llmreply`
    event carrying the next `partialResponseIndex`, and the undelimited tail
    waits for more tokens or for the end-of-stream flush. Tool `say` texts
    are emitted without an index. */
module LlmServices {
  import opened Common
  import opened Sentences
  import opened CallContexts

  /** The arguments of one `llmreply` event: the reply dictionary and the
      interaction count passed beside it. */
  datatype LlmReply = LlmReply(partialResponseIndex: Option<nat>, partialResponse: string, interactionCount: int)

  /** The sequencer's part of the service state. */
  datatype Sequencer = Sequencer(buffer: string, index: nat)

  /** A state reached and the `llmreply` events emitted on the way. */
  datatype Emission = Emission(after: Sequencer, replies: seq<LlmReply>)

  /** The events for `sentences`, stripped, indexed from `first` on. */
  function IndexedReplies(sentences: seq<string>, first: nat, interactionCount: int): seq<LlmReply>
    decreases |sentences|
  {
    if sentences == [] then []
    else [LlmReply(Some(first), Strip(sentences[0]), interactionCount)]
         + IndexedReplies(sentences[1..], first + 1, interactionCount)
  }

  /** One event per sentence, the `k`-th carrying index `first + k` and the
      `k`-th sentence stripped. */
  lemma {:induction false} IndexedRepliesSpec(sentences: seq<string>, first: nat, interactionCount: int)
    ensures var r := IndexedReplies(sentences, first, interactionCount);
      && |r| == |sentences|
      && forall k :: 0 <= k < |r| ==>
           r[k] == LlmReply(Some(first + k), Strip(sentences[k]), interactionCount)
    decreases |sentences|
  {
    if sentences != [] {
      IndexedRepliesSpec(sentences[1..], first + 1, interactionCount);
      var r := IndexedReplies(sentences, first, interactionCount);
      forall k | 0 < k < |r|
        ensures r[k] == LlmReply(Some(first + k), Strip(sentences[k]), interactionCount)
      {
        assert r[k] == IndexedReplies(sentences[1..], first + 1, interactionCount)[k - 1];
      }
    }
  }

  /** `emit_complete_sentences(text, interaction_count)` on the state `s`. */
  function EmitStep(s: Sequencer, text: string, interactionCount: int): Emission
  {
    var g := Segment(s.buffer + text);
    Emission(Sequencer(g.tail, s.index + |g.sentences|), IndexedReplies(g.sentences, s.index, interactionCount))
  }

  /** The end-of-stream flush: a tail with text is emitted, stripped, under
      the current index, and the buffer is cleared. The index is not
      incremented, so the next sentence reuses it. */
  function FlushStep(s: Sequencer, interactionCount: int): Emission
  {
    if HasText(s.buffer) then
      Emission(Sequencer("", s.index), [LlmReply(Some(s.index), Strip(s.buffer), interactionCount)])
    else
      Emission(s, [])
  }

  /** The content tokens of one streamed completion fed one by one to
      `emit_complete_sentences`. */
  function StreamTokens(s: Sequencer, tokens: seq<string>, interactionCount: int): Emission
    decreases |tokens|
  {
    if tokens == [] then Emission(s, [])
    else
      var n := |tokens| - 1;
      var before := StreamTokens(s, tokens[..n], interactionCount);
      var step := EmitStep(before.after, tokens[n], interactionCount);
      Emission(step.after, before.replies + step.replies)
  }

  /** A streamed completion: its tokens, then the flush. */
  function Respond(s: Sequencer, tokens: seq<string>, interactionCount: int): Emission
  {
    var streamed := StreamTokens(s, tokens, interactionCount);
    var flushed := FlushStep(streamed.after, interactionCount);
    Emission(flushed.after, streamed.replies + flushed.replies)
  }

  /** `emit_complete_sentences` emits one event per terminator in the buffer
      followed by `text`, with consecutive indices from the current one; the
      index grows by that count; each event carries its sentence stripped. */
  lemma {:induction false} EmitCountsTerminators(s: Sequencer, text: string, interactionCount: int)
    ensures var e := EmitStep(s, text, interactionCount);
      && |e.replies| == CountTerminators(s.buffer + text)
      && e.after.index == s.index + CountTerminators(s.buffer + text)
      && (forall k :: 0 <= k < |e.replies| ==> e.replies[k].partialResponseIndex == Some(s.index + k))
      && (forall k :: 0 <= k < |e.replies| ==>
            e.replies[k].partialResponse == Strip(Segment(s.buffer + text).sentences[k])
            && e.replies[k].interactionCount == interactionCount)
  {
    SegmentSpec(s.buffer + text);
    IndexedRepliesSpec(Segment(s.buffer + text).sentences, s.index, interactionCount);
  }

  /** Nothing is lost or invented: the emitted sentences, unstripped,
      followed by the new buffer are the old buffer followed by `text`; each
      emitted sentence ends with its only terminator, and the new buffer holds
      no terminator. */
  lemma {:induction false} EmitConservesText(s: Sequencer, text: string, interactionCount: int)
    ensures var e := EmitStep(s, text, interactionCount);
      var complete := Segment(s.buffer + text).sentences;
      && Concat(complete) + e.after.buffer == s.buffer + text
      && (forall k :: 0 <= k < |complete| ==> IsSentence(complete[k]))
      && NoTerminator(e.after.buffer)
  {
    SegmentSpec(s.buffer + text);
  }

  lemma {:induction false} IndexedRepliesAppend(p: seq<string>, q: seq<string>, first: nat, interactionCount: int)
    ensures IndexedReplies(p + q, first, interactionCount)
         == IndexedReplies(p, first, interactionCount) + IndexedReplies(q, first + |p|, interactionCount)
    decreases |p|
  {
    if p == [] {
      assert p + q == q;
    } else {
      assert (p + q)[1..] == p[1..] + q;
      IndexedRepliesAppend(p[1..], q, first + 1, interactionCount);
    }
  }

  /** How the model's text is cut into tokens does not matter: emitting `a`
      and then `b` gives the same events and the same state as emitting
      `a + b` at once. */
  lemma {:induction false} EmitIgnoresChunking(s: Sequencer, a: string, b: string, interactionCount: int)
    ensures var first := EmitStep(s, a, interactionCount);
      var second := EmitStep(first.after, b, interactionCount);
      Emission(second.after, first.replies + second.replies) == EmitStep(s, a + b, interactionCount)
  {
    var x := s.buffer + a;
    assert s.buffer + (a + b) == x + b;
    SegmentAppend(x, b);
    IndexedRepliesAppend(Segment(x).sentences, Segment(Segment(x).tail + b).sentences, s.index, interactionCount);
  }

  /** Streaming tokens one by one is emitting their concatenation at once. */
  lemma {:induction false} StreamIsOneEmit(s: Sequencer, tokens: seq<string>, interactionCount: int)
    requires NoTerminator(s.buffer)
    ensures StreamTokens(s, tokens, interactionCount) == EmitStep(s, Concat(tokens), interactionCount)
    decreases |tokens|
  {
    if tokens == [] {
      assert s.buffer + Concat(tokens) == s.buffer;
      NoTerminatorSplitsToItself(s.buffer);
    } else {
      var n := |tokens| - 1;
      StreamIsOneEmit(s, tokens[..n], interactionCount);
      EmitIgnoresChunking(s, Concat(tokens[..n]), tokens[n], interactionCount);
      assert tokens == tokens[..n] + [tokens[n]];
      ConcatSnoc(tokens[..n], tokens[n]);
    }
  }

  /** Streaming one more token of `tokens`. */
  lemma StreamTokensPrefix(s: Sequencer, tokens: seq<string>, i: nat, interactionCount: int)
    requires i < |tokens|
    ensures var before := StreamTokens(s, tokens[..i], interactionCount);
      var step := EmitStep(before.after, tokens[i], interactionCount);
      StreamTokens(s, tokens[..i + 1], interactionCount) == Emission(step.after, before.replies + step.replies)
  {
    assert tokens[..i + 1][..i] == tokens[..i];
  }

  /** Text without terminators is its own tail and has no complete sentence. */
  lemma {:induction false} NoTerminatorSplitsToItself(t: string)
    requires NoTerminator(t)
    ensures Segment(t) == Segmentation([], t)
  {
    FirstTerminatorSpec(t);
    if FirstTerminator(t).Some? {
      assert IsTerminator(t[FirstTerminator(t).value]);
    }
  }

  lemma ScenarioTokensJoin()
    ensures Concat(["Hello", " there.", " How are you", "?"]) == "Hello there." + " How are you?"
  {
    var tokens := ["Hello", " there.", " How are you", "?"];
    assert Concat(tokens[3..]) == "?" + Concat([]);
    assert Concat(tokens[2..]) == " How are you" + "?";
    assert Concat(tokens[1..]) == " there." + " How are you?";
  }

  /** Two complete sentences and nothing after them. */
  lemma TwoSentences(first: string, second: string)
    requires IsSentence(first) && IsSentence(second)
    ensures Segment(first + second) == Segmentation([first, second], "")
  {
    SegmentOfSentence(second, "");
    assert second + "" == second;
    assert Segment("") == Segmentation([], "");
    SegmentOfSentence(first, second);
  }

  lemma ScenarioStrips()
    ensures Strip("Hello there.") == "Hello there."
    ensures Strip(" How are you?") == "How are you?"
  {
  }

  lemma ScenarioSentences()
    ensures IsSentence("Hello there.") && IsSentence(" How are you?")
  {
  }

  /** Tokens that join into two complete sentences emit both, in order, under
      indices 0 and 1 from a fresh sequencer, and leave nothing buffered. */
  lemma TwoSentencesStreamed(tokens: seq<string>, first: string, second: string, interactionCount: int)
    requires Concat(tokens) == first + second
    requires IsSentence(first) && IsSentence(second)
    ensures StreamTokens(Sequencer("", 0), tokens, interactionCount)
         == Emission(Sequencer("", 2), [LlmReply(Some(0), Strip(first), interactionCount),
                                        LlmReply(Some(1), Strip(second), interactionCount)])
  {
    var s := Sequencer("", 0);
    StreamIsOneEmit(s, tokens, interactionCount);
    TwoSentences(first, second);
    assert s.buffer + (first + second) == first + second;
    IndexedRepliesSpec([first, second], 0, interactionCount);
  }

  /** Feeding "Hello", " there.", " How are you", "?" to a fresh sequencer
      emits "Hello there." under index 0, then "How are you?" under index 1,
      and leaves nothing buffered. */
  lemma HelloThereScenario(interactionCount: int)
    ensures StreamTokens(Sequencer("", 0), ["Hello", " there.", " How are you", "?"], interactionCount)
         == Emission(Sequencer("", 2), [LlmReply(Some(0), "Hello there.", interactionCount),
                                        LlmReply(Some(1), "How are you?", interactionCount)])
  {
    ScenarioTokensJoin();
    ScenarioSentences();
    ScenarioStrips();
    TwoSentencesStreamed(["Hello", " there.", " How are you", "?"], "Hello there.", " How are you?", interactionCount);
  }

  lemma {:induction false} IndexedRepliesSnoc(sentences: seq<string>, last: string, first: nat, interactionCount: int)
    ensures IndexedReplies(sentences + [last], first, interactionCount)
         == IndexedReplies(sentences, first, interactionCount)
            + [LlmReply(Some(first + |sentences|), Strip(last), interactionCount)]
  {
    IndexedRepliesAppend(sentences, [last], first, interactionCount);
    assert [last][1..] == [];
  }

  /** The flush emits the tail, stripped, exactly when the tail holds text,
      and then empties the buffer; a blank tail is left in place and nothing
      is emitted. The index does not move: the flushed tail carries the index
      the state still holds afterwards. */
  lemma {:induction false} FlushSpec(s: Sequencer, interactionCount: int)
    ensures var f := FlushStep(s, interactionCount);
      && f.after.index == s.index
      && (|f.replies| == 1 <==> HasText(s.buffer))
      && |f.replies| <= 1
      && (!HasText(s.buffer) ==> f == Emission(s, []))
      && (HasText(s.buffer) ==>
            && f.after.buffer == ""
            && f.replies[0] == LlmReply(Some(f.after.index), Strip(s.buffer), interactionCount))
  {
  }

  /** Consequence of the flush not advancing the index: when a turn ends with
      a flushed tail, the first sentence of the next turn is emitted under the
      same index as that tail. */
  lemma {:induction false} NextTurnReusesFlushedIndex(s: Sequencer, text: string, interactionCount: int, nextCount: int)
    requires HasText(s.buffer)
    requires CountTerminators(text) > 0
    ensures var f := FlushStep(s, interactionCount);
      var next := EmitStep(f.after, text, nextCount);
      |next.replies| > 0 && next.replies[0].partialResponseIndex == f.replies[0].partialResponseIndex
  {
    var f := FlushStep(s, interactionCount);
    assert f.after.buffer + text == text;
    EmitCountsTerminators(f.after, text, nextCount);
  }

  /** The indexed events of a whole completion are numbered consecutively
      from the starting index. */
  lemma {:induction false} RespondNumbersConsecutively(s: Sequencer, tokens: seq<string>, interactionCount: int)
    requires NoTerminator(s.buffer)
    ensures var r := Respond(s, tokens, interactionCount);
      forall k :: 0 <= k < |r.replies| ==> r.replies[k].partialResponseIndex == Some(s.index + k)
  {
    var streamed := StreamTokens(s, tokens, interactionCount);
    var flushed := FlushStep(streamed.after, interactionCount);
    StreamIsOneEmit(s, tokens, interactionCount);
    EmitCountsTerminators(s, Concat(tokens), interactionCount);
    FlushSpec(streamed.after, interactionCount);
    var r := Respond(s, tokens, interactionCount);
    assert r.replies == streamed.replies + flushed.replies;
    forall k | 0 <= k < |r.replies| ensures r.replies[k].partialResponseIndex == Some(s.index + k) {
      if k < |streamed.replies| {
        assert r.replies[k] == streamed.replies[k];
      } else {
        assert r.replies[k] == flushed.replies[0];
      }
    }
  }

  /** A whole streamed completion from a state whose buffer holds no
      terminator: one indexed event per terminator in the buffer and the
      tokens, plus one for the flushed tail if it holds text, numbered
      consecutively from the current index; the index grows by the number of
      terminators only; and afterwards the buffer holds no terminator and no
      text. */
  lemma {:induction false} RespondSpec(s: Sequencer, tokens: seq<string>, interactionCount: int)
    requires NoTerminator(s.buffer)
    ensures var r := Respond(s, tokens, interactionCount);
      var n := CountTerminators(s.buffer + Concat(tokens));
      && (|r.replies| == n || |r.replies| == n + 1)
      && (forall k :: 0 <= k < |r.replies| ==> r.replies[k].partialResponseIndex == Some(s.index + k))
      && r.after.index == s.index + n
      && NoTerminator(r.after.buffer)
      && !HasText(r.after.buffer)
  {
    var streamed := StreamTokens(s, tokens, interactionCount);
    StreamIsOneEmit(s, tokens, interactionCount);
    EmitCountsTerminators(s, Concat(tokens), interactionCount);
    EmitConservesText(s, Concat(tokens), interactionCount);
    FlushSpec(streamed.after, interactionCount);
    RespondNumbersConsecutively(s, tokens, interactionCount);
  }

  /** The LLM service's sequencer state, its conversation history and the
      `llmreply` events it has emitted. */
  class LlmService {
    var systemMessage: Option<string>
    var initialMessage: Option<string>
    var userContext: seq<ChatEntry>
    var partialResponseIndex: nat
    var sentenceBuffer: string
    /** Every `llmreply` event emitted so far, in order. */
    ghost var replies: seq<LlmReply>

    ghost function State(): Sequencer
      reads this
    {
      Sequencer(sentenceBuffer, partialResponseIndex)
    }

    /** The buffer only ever holds an undelimited tail. */
    ghost predicate Valid()
      reads this
    {
      NoTerminator(sentenceBuffer)
    }

    /** `AbstractLLMService(context)`: the greeting history, index 0 and an
        empty buffer. */
    constructor (context: CallContext)
      ensures systemMessage == context.systemMessage && initialMessage == context.initialMessage
      ensures userContext == Greeting(context.initialMessage)
      ensures partialResponseIndex == 0 && sentenceBuffer == "" && replies == []
      ensures Valid()
    {
      systemMessage := context.systemMessage;
      initialMessage := context.initialMessage;
      userContext := Greeting(context.initialMessage);
      partialResponseIndex := 0;
      sentenceBuffer := "";
      replies := [];
    }

    /** `set_call_context(context)`: the history restarts from the greeting
        of the new context, whose messages the service adopts; the context is
        handed back holding that same history, as the source shares the list
        object with it. The sequencer is left as it was. */
    method SetCallContext(context: CallContext) returns (shared: CallContext)
      modifies this`systemMessage, this`initialMessage, this`userContext
      ensures userContext == Greeting(context.initialMessage)
      ensures systemMessage == context.systemMessage && initialMessage == context.initialMessage
      ensures shared == context.(userContext := userContext)
    {
      userContext := Greeting(context.initialMessage);
      shared := context.(userContext := userContext);
      systemMessage := context.systemMessage;
      initialMessage := context.initialMessage;
    }

    /** `reset()`: the index returns to 0. The sentence buffer is not
        cleared; a completion always ends with it blank, so this matters
        only for a completion still streaming, which is not modelled. */
    method Reset()
      modifies this`partialResponseIndex
      ensures partialResponseIndex == 0
    {
      partialResponseIndex := 0;
    }

    /** `emit_complete_sentences(text, interaction_count)`: moves to the
        state `EmitStep` gives and emits its events. */
    method EmitCompleteSentences(text: string, interactionCount: int)
      modifies this`sentenceBuffer, this`partialResponseIndex, this`replies
      ensures var e := EmitStep(old(State()), text, interactionCount);
        State() == e.after && replies == old(replies) + e.replies
      ensures Valid()
    {
      sentenceBuffer := sentenceBuffer + text;
      var sentences := SplitIntoSentences(sentenceBuffer);
      ghost var g := Segment(sentenceBuffer);
      var complete := sentences[..|sentences| - 1];
      assert complete == g.sentences;
      ghost var first := partialResponseIndex;
      for k := 0 to |complete|
        invariant partialResponseIndex == first + k
        invariant replies == old(replies) + IndexedReplies(complete[..k], first, interactionCount)
      {
        IndexedRepliesSnoc(complete[..k], complete[k], first, interactionCount);
        assert complete[..k + 1] == complete[..k] + [complete[k]];
        replies := replies + [LlmReply(Some(partialResponseIndex), Strip(complete[k]), interactionCount)];
        partialResponseIndex := partialResponseIndex + 1;
      }
      assert complete[..|complete|] == complete;
      sentenceBuffer := if sentences != [] then sentences[|sentences| - 1] else "";
      SegmentPieces(old(sentenceBuffer) + text);
    }

    /** The end-of-stream flush: moves to the state `FlushStep` gives and
        emits its event, if any. */
    method Flush(interactionCount: int)
      modifies this`sentenceBuffer, this`replies
      ensures var f := FlushStep(old(State()), interactionCount);
        State() == f.after && replies == old(replies) + f.replies
      ensures old(Valid()) ==> Valid()
    {
      var stripped := Strip(sentenceBuffer);
      if stripped != [] {
        replies := replies + [LlmReply(Some(partialResponseIndex), stripped, interactionCount)];
        sentenceBuffer := "";
      }
    }

    /** A tool call's spoken text: emitted at once without an index, and
        recorded as an assistant turn of the history. */
    method SayToolResult(say: string, interactionCount: int)
      modifies this`replies, this`userContext
      ensures replies == old(replies) + [LlmReply(None, say, interactionCount)]
      ensures userContext == old(userContext) + [ChatEntry("assistant", Some(say), None)]
    {
      replies := replies + [LlmReply(None, say, interactionCount)];
      userContext := userContext + [ChatEntry("assistant", Some(say), None)];
    }

    /** The streaming loop of `completion`: every content token goes
        through `emit_complete_sentences` and is collected into the full
        response text. */
    method StreamResponse(tokens: seq<string>, interactionCount: int) returns (completeResponse: string)
      requires Valid()
      modifies this`sentenceBuffer, this`partialResponseIndex, this`replies
      ensures var r := StreamTokens(old(State()), tokens, interactionCount);
        State() == r.after && replies == old(replies) + r.replies
      ensures completeResponse == Concat(tokens)
      ensures Valid()
    {
      completeResponse := "";
      ghost var start := State();
      for i := 0 to |tokens|
        invariant State() == StreamTokens(start, tokens[..i], interactionCount).after
        invariant replies == old(replies) + StreamTokens(start, tokens[..i], interactionCount).replies
        invariant completeResponse == Concat(tokens[..i])
        invariant Valid()
      {
        ghost var before := StreamTokens(start, tokens[..i], interactionCount);
        ghost var step := EmitStep(before.after, tokens[i], interactionCount);
        completeResponse := completeResponse + tokens[i];
        EmitCompleteSentences(tokens[i], interactionCount);
        assert replies == old(replies) + (before.replies + step.replies);
        StreamTokensPrefix(start, tokens, i, interactionCount);
        ConcatPrefix(tokens, i);
      }
      assert tokens[..|tokens|] == tokens;
    }

    /** `completion(text, interaction_count, role, name)` with the model's
        streamed content given as `tokens`: the prompt joins the history, the
        tokens are streamed, the tail is flushed, and the whole response joins
        the history as the assistant's turn. */
    method Completion(text: string, interactionCount: int, role: string, name: string, tokens: seq<string>)
      requires Valid()
      modifies this`sentenceBuffer, this`partialResponseIndex, this`replies, this`userContext
      ensures var r := Respond(old(State()), tokens, interactionCount);
        State() == r.after && replies == old(replies) + r.replies
      ensures userContext == old(userContext)
        + [ChatEntry(role, Some(text), Some(name)), ChatEntry("assistant", Some(Concat(tokens)), None)]
      ensures Valid()
    {
      userContext := userContext + [ChatEntry(role, Some(text), Some(name))];
      var completeResponse := StreamResponse(tokens, interactionCount);
      Flush(interactionCount);
      userContext := userContext + [ChatEntry("assistant", Some(completeResponse), None)];
    }
  }
}
