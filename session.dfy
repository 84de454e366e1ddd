/** One call's media session: the closures and the message loop of
    `websocket_endpoint` in app.py. The session owns the stream service, the
    LLM service and the transcription service of the call, keeps the labels
    of audio marks the telephony side has not yet acknowledged, counts
    conversational turns, and interrupts playback when the caller speaks
    over it. Every handler runs to completion before the next one starts. */
module Sessions {
  import opened Common
  import opened Transport
  import StreamServices
  import LlmServices
  import TranscriptionServices
  import CallRegistries
  import CallContexts
  import Sentences

  /** An inbound websocket message, by its `event` field. */
  datatype InboundMessage =
    | Start(streamSid: string, callSid: string)
    | MediaIn(payload: string)
    | MarkIn(name: Label)
    | Stop
    | Other(event: string)

  /** `marks.remove(mark)` for a mark that is present, and no change for
      one that is not: the first occurrence is dropped. */
  function RemoveFirst(marks: seq<Label>, mark: Label): seq<Label>
    decreases |marks|
  {
    if marks == [] then []
    else if marks[0] == mark then marks[1..]
    else [marks[0]] + RemoveFirst(marks[1..], mark)
  }

  /** Removing at the first occurrence `i` of `mark`. */
  lemma {:induction false} RemoveFirstAt(marks: seq<Label>, mark: Label, i: nat)
    requires i < |marks| && marks[i] == mark && mark !in marks[..i]
    ensures RemoveFirst(marks, mark) == marks[..i] + marks[i + 1..]
    decreases i
  {
    if i > 0 {
      assert marks[0] in marks[..i];
      assert marks[1..][..i - 1] == marks[1..i];
      RemoveFirstAt(marks[1..], mark, i - 1);
      assert marks[..i] + marks[i + 1..] == [marks[0]] + (marks[1..][..i - 1] + marks[1..][i..]);
    }
  }

  /** An unknown mark leaves the marks as they are. */
  lemma {:induction false} RemoveUnknown(marks: seq<Label>, mark: Label)
    requires mark !in marks
    ensures RemoveFirst(marks, mark) == marks
    decreases |marks|
  {
    if marks != [] {
      assert mark !in marks[1..];
      RemoveUnknown(marks[1..], mark);
    }
  }

  /** A known mark loses exactly one occurrence and nothing else changes
      in number; an unknown one changes nothing. */
  lemma {:induction false} RemoveFirstSpec(marks: seq<Label>, mark: Label)
    ensures mark !in marks ==> RemoveFirst(marks, mark) == marks
    ensures mark in marks ==> |RemoveFirst(marks, mark)| == |marks| - 1
    ensures multiset(RemoveFirst(marks, mark)) == multiset(marks) - multiset{mark}
    decreases |marks|
  {
    if mark !in marks {
      RemoveUnknown(marks, mark);
      assert multiset(marks)[mark] == 0;
    } else if marks[0] == mark {
      assert marks == [mark] + marks[1..];
    } else {
      var rest := marks[1..];
      assert marks == [marks[0]] + rest;
      assert mark in rest;
      RemoveFirstSpec(rest, mark);
      assert multiset(RemoveFirst(marks, mark)) == multiset{marks[0]} + multiset(RemoveFirst(rest, mark));
    }
  }

  /** The marks of a session: strictly increasing, and all of them issued
      already by the stream's mark counter. Labels are therefore distinct. */
  ghost predicate MarksIssued(marks: seq<Label>, nextLabel: Label)
  {
    && (forall i, j :: 0 <= i < j < |marks| ==> marks[i] < marks[j])
    && (forall i :: 0 <= i < |marks| ==> marks[i] < nextLabel)
  }

  /** A mark acknowledged after its audio was sent removes exactly that
      mark: sending and then acknowledging a fresh mark restores the marks. */
  lemma {:induction false} AckOfFreshMarkRestores(marks: seq<Label>, nextLabel: Label)
    requires MarksIssued(marks, nextLabel)
    ensures RemoveFirst(marks + [nextLabel], nextLabel) == marks
  {
    RemoveFirstAt(marks + [nextLabel], nextLabel, |marks|);
    assert (marks + [nextLabel])[..|marks|] == marks;
  }

  /** Acknowledging a mark keeps the marks issued and ordered. */
  lemma {:induction false} RemoveFirstKeepsIssued(marks: seq<Label>, mark: Label, nextLabel: Label)
    requires MarksIssued(marks, nextLabel)
    ensures MarksIssued(RemoveFirst(marks, mark), nextLabel)
  {
    if mark in marks {
      var i :| 0 <= i < |marks| && marks[i] == mark;
      assert mark !in marks[..i] by {
        forall j | 0 <= j < i ensures marks[j] != mark {
          assert marks[j] < marks[i];
        }
      }
      RemoveFirstAt(marks, mark, i);
      RemoveAtKeepsIssued(marks, i, nextLabel);
    } else {
      RemoveUnknown(marks, mark);
    }
  }

  lemma RemoveAtKeepsIssued(marks: seq<Label>, i: nat, nextLabel: Label)
    requires MarksIssued(marks, nextLabel) && i < |marks|
    ensures MarksIssued(marks[..i] + marks[i + 1..], nextLabel)
  {
    var r := marks[..i] + marks[i + 1..];
    assert forall k :: 0 <= k < |r| ==> r[k] == marks[if k < i then k else k + 1];
  }

  /** The labels a `buffer` call returns extend the marks in order. */
  lemma {:induction false} FreshLabelsKeepIssued(marks: seq<Label>, nextLabel: Label, n: nat)
    requires MarksIssued(marks, nextLabel)
    ensures MarksIssued(marks + StreamServices.LabelRun(nextLabel, n), nextLabel + n)
  {
  }

  /** The index of the first `stop`, or the number of messages if none. */
  function FirstStop(msgs: seq<InboundMessage>): (r: nat)
    ensures r <= |msgs|
    decreases |msgs|
  {
    if msgs == [] then 0
    else if msgs[0].Stop? then 0
    else 1 + FirstStop(msgs[1..])
  }

  /** Everything before the first `stop` is something else, and the first
      `stop` is where `FirstStop` points. */
  lemma {:induction false} FirstStopSpec(msgs: seq<InboundMessage>)
    ensures forall k :: 0 <= k < FirstStop(msgs) ==> !msgs[k].Stop?
    ensures FirstStop(msgs) < |msgs| ==> msgs[FirstStop(msgs)].Stop?
    decreases |msgs|
  {
    if msgs != [] && !msgs[0].Stop? {
      FirstStopSpec(msgs[1..]);
      forall k | 0 < k < FirstStop(msgs) ensures !msgs[k].Stop? {
        assert msgs[k] == msgs[1..][k - 1];
      }
    }
  }

  /** How many messages the processor takes before it stops: up to and
      including the first `stop`, or all of them. */
  function Processed(msgs: seq<InboundMessage>): (r: nat)
    ensures r <= |msgs|
  {
    if FirstStop(msgs) < |msgs| then FirstStop(msgs) + 1 else |msgs|
  }

  /** The marks after acknowledgements `msgs`, other messages leaving them
      alone. */
  function ApplyAcks(marks: seq<Label>, msgs: seq<InboundMessage>): seq<Label>
    decreases |msgs|
  {
    if msgs == [] then marks
    else
      var n := |msgs| - 1;
      var before := ApplyAcks(marks, msgs[..n]);
      if msgs[n].MarkIn? then RemoveFirst(before, msgs[n].name) else before
  }

  /** Acknowledgements only ever remove marks. */
  lemma {:induction false} AcksOnlyRemove(marks: seq<Label>, msgs: seq<InboundMessage>)
    ensures multiset(ApplyAcks(marks, msgs)) <= multiset(marks)
    decreases |msgs|
  {
    if msgs != [] {
      var n := |msgs| - 1;
      AcksOnlyRemove(marks, msgs[..n]);
      if msgs[n].MarkIn? {
        RemoveFirstSpec(ApplyAcks(marks, msgs[..n]), msgs[n].name);
      }
    }
  }

  /** Consequence of the end-of-stream flush not advancing the index, with
      the stream left as it is between turns (no barge-in). A turn whose text
      ends in an undelimited tail emits that tail under the index `n` the
      sequencer still holds; once its audio has played the stream awaits
      `n + 1`. The next turn's first sentence is then emitted under `n`
      again, and its audio is stored in the stream's buffer below the awaited
      index instead of being played. */
  lemma {:induction false} FlushedTailWithholdsNextSentence(
    s: LlmServices.Sequencer, tokens: seq<string>, interactionCount: int,
    text: string, nextCount: int, withheld: map<int, StreamServices.Payload>, audio: StreamServices.Payload)
    requires Sentences.NoTerminator(s.buffer)
    requires HasText(LlmServices.StreamTokens(s, tokens, interactionCount).after.buffer)
    requires Sentences.CountTerminators(text) > 0
    ensures var turn := LlmServices.Respond(s, tokens, interactionCount);
      var next := LlmServices.EmitStep(turn.after, text, nextCount);
      && |turn.replies| > 0 && |next.replies| > 0
      && turn.replies[|turn.replies| - 1].partialResponseIndex == Some(turn.after.index)
      && next.replies[0].partialResponseIndex == Some(turn.after.index)
      && StreamServices.Submit(turn.after.index + 1, withheld, Some(turn.after.index), audio)
         == StreamServices.Delivery(turn.after.index + 1, withheld[turn.after.index := audio], [])
  {
    var streamed := LlmServices.StreamTokens(s, tokens, interactionCount);
    var flushed := LlmServices.FlushStep(streamed.after, interactionCount);
    var turn := LlmServices.Respond(s, tokens, interactionCount);
    LlmServices.FlushSpec(streamed.after, interactionCount);
    assert turn.replies == streamed.replies + flushed.replies;
    assert turn.replies[|turn.replies| - 1] == flushed.replies[0];
    LlmServices.NextTurnReusesFlushedIndex(streamed.after, text, interactionCount, nextCount);
    StreamServices.OtherIndexStored(turn.after.index + 1, withheld, turn.after.index, audio);
  }

  /** The per-call state of `websocket_endpoint`. */
  class Session {
    const ws: Socket
    const stream: StreamServices.StreamService
    const llm: LlmServices.LlmService
    const transcription: TranscriptionServices.TranscriptionService
    /** The process-wide `call_contexts`. */
    const registry: CallRegistries.CallRegistry
    /** The deque of labels of marks not yet acknowledged, oldest first. */
    var marks: seq<Label>
    var interactionCount: int

    ghost predicate Valid()
      reads this, stream, llm
    {
      && stream.ws == ws
      && llm.Valid()
      && MarksIssued(marks, stream.nextLabel)
    }

    /** The set-up of `websocket_endpoint`: fresh services for the call, an
        LLM service on an empty context, no marks and turn 0. */
    constructor (socket: Socket, contexts: CallRegistries.CallRegistry)
      ensures ws == socket && registry == contexts
      ensures fresh(stream) && fresh(llm) && fresh(transcription)
      ensures marks == [] && interactionCount == 0
      ensures stream.expectedAudioIndex == 0 && stream.audioBuffer == map[] && stream.nextLabel == 0
      ensures llm.partialResponseIndex == 0 && llm.sentenceBuffer == ""
      ensures transcription.finalResult == "" && !transcription.speechFinal
      ensures Valid()
    {
      ws := socket;
      registry := contexts;
      llm := new LlmServices.LlmService(CallContexts.NewCallContext());
      stream := new StreamServices.StreamService(socket);
      transcription := new TranscriptionServices.TranscriptionService();
      marks := [];
      interactionCount := 0;
    }

    /** `handle_audio_sent(mark_label)`: the mark joins the end of the
        marks. */
    method HandleAudioSent(markLabel: Label)
      modifies this`marks
      ensures marks == old(marks) + [markLabel]
    {
      marks := marks + [markLabel];
    }

    /** The `mark` branch of the message processor: an acknowledged mark is
        removed at its first occurrence; an unknown one is ignored. */
    method HandleMark(mark: Label)
      requires Valid()
      modifies this`marks
      ensures marks == RemoveFirst(old(marks), mark)
      ensures Valid()
    {
      RemoveFirstKeepsIssued(marks, mark, stream.nextLabel);
      if mark in marks {
        var i := 0;
        while marks[i] != mark
          invariant 0 <= i < |marks|
          invariant mark in marks[i..]
          invariant mark !in marks[..i]
          decreases |marks| - i
        {
          assert marks[i..] == [marks[i]] + marks[i + 1..];
          assert marks[..i + 1] == marks[..i] + [marks[i]];
          i := i + 1;
        }
        RemoveFirstAt(marks, mark, i);
        marks := marks[..i] + marks[i + 1..];
      } else {
        RemoveFirstSpec(marks, mark);
      }
    }

    /** `handle_speech(response_index, audio, ...)`: the chunk goes to the
        stream's `buffer`, and the mark of every `audiosent` event it
        raises joins the marks in order. */
    method HandleSpeech(responseIndex: Option<int>, audio: StreamServices.Payload) returns (labels: seq<Label>)
      requires Valid()
      modifies this`marks, stream`expectedAudioIndex, stream`audioBuffer, stream`nextLabel, ws
      ensures var d := StreamServices.Submit(old(stream.expectedAudioIndex), old(stream.audioBuffer), responseIndex, audio);
        && stream.expectedAudioIndex == d.expected && stream.audioBuffer == d.withheld
        && ws.sent == old(ws.sent) + StreamServices.Transmissions(stream.streamSid, d.sent, old(stream.nextLabel))
        && labels == StreamServices.LabelRun(old(stream.nextLabel), |d.sent|)
      ensures marks == old(marks) + labels
      ensures Valid()
    {
      labels := stream.Buffer(responseIndex, audio);
      FreshLabelsKeepIssued(marks, old(stream.nextLabel), |labels|);
      for k := 0 to |labels|
        modifies this`marks
        invariant marks == old(marks) + labels[..k]
      {
        assert labels[..k + 1] == labels[..k] + [labels[k]];
        HandleAudioSent(labels[k]);
      }
      assert labels[..|labels|] == labels;
    }

    /** `handle_utterance(text, stream_sid)`: interim speech while marks are
        outstanding sends one `clear` for the stream and resets the stream
        buffer and the LLM index; otherwise nothing happens. The marks are
        not cleared either way, and the LLM's sentence buffer is kept. */
    method HandleUtterance(text: string, streamSid: Option<string>)
      requires Valid()
      modifies ws, stream`expectedAudioIndex, stream`audioBuffer, llm`partialResponseIndex
      ensures |marks| > 0 && HasText(text) ==>
        && ws.sent == old(ws.sent) + [Clear(streamSid)]
        && stream.expectedAudioIndex == 0 && stream.audioBuffer == map[]
        && llm.partialResponseIndex == 0
      ensures !(|marks| > 0 && HasText(text)) ==>
        && ws.sent == old(ws.sent)
        && stream.expectedAudioIndex == old(stream.expectedAudioIndex) && stream.audioBuffer == old(stream.audioBuffer)
        && llm.partialResponseIndex == old(llm.partialResponseIndex)
      ensures Valid()
    {
      var stripped := Strip(text);
      if |marks| > 0 && stripped != [] {
        ws.SendJson(Clear(streamSid));
        stream.Reset();
        llm.Reset();
      }
    }

    /** `handle_transcription(text)`: an empty turn is ignored; any other
        runs one completion under the current turn number, `tokens` being
        the model's streamed content, and then counts the turn. */
    method HandleTranscription(text: string, tokens: seq<string>)
      requires Valid()
      modifies this`interactionCount, llm`sentenceBuffer, llm`partialResponseIndex, llm`replies, llm`userContext
      ensures text == "" ==> interactionCount == old(interactionCount) && unchanged(llm)
      ensures text != "" ==> interactionCount == old(interactionCount) + 1
      ensures text != "" ==>
        var r := LlmServices.Respond(old(llm.State()), tokens, old(interactionCount));
        llm.State() == r.after && llm.replies == old(llm.replies) + r.replies
      ensures text != "" ==>
        llm.userContext == old(llm.userContext)
          + [CallContexts.ChatEntry("user", Some(text), Some("user")),
             CallContexts.ChatEntry("assistant", Some(Sentences.Concat(tokens)), None)]
      ensures Valid()
    {
      if text == "" {
        return;
      }
      llm.Completion(text, interactionCount, "user", "user", tokens);
      interactionCount := interactionCount + 1;
    }

    /** The session's turn handler ran on `text` with the model's content
        `tokens`: `HandleTranscription`'s outcome, with the socket and the
        stream untouched. The replies are not passed on to speech synthesis
        here, so their audio and marks are not part of the turn. */
    twostate predicate TurnHandled(text: string, tokens: seq<string>)
      reads this, ws, stream, llm
    {
      && ws.sent == old(ws.sent)
      && stream.expectedAudioIndex == old(stream.expectedAudioIndex) && stream.audioBuffer == old(stream.audioBuffer)
      && (text == "" ==>
            && interactionCount == old(interactionCount)
            && llm.State() == old(llm.State()) && llm.replies == old(llm.replies)
            && llm.userContext == old(llm.userContext))
      && (text != "" ==>
            && interactionCount == old(interactionCount) + 1
            && var r := LlmServices.Respond(old(llm.State()), tokens, old(interactionCount));
            && llm.State() == r.after && llm.replies == old(llm.replies) + r.replies
            && llm.userContext == old(llm.userContext)
                 + [CallContexts.ChatEntry("user", Some(text), Some("user")),
                    CallContexts.ChatEntry("assistant", Some(Sentences.Concat(tokens)), None)])
    }

    /** The session's barge-in handler ran on `text`: `HandleUtterance`'s
        outcome, with the turn count and everything of the LLM service but
        its index untouched. */
    twostate predicate UtteranceHandled(text: string, streamSid: Option<string>)
      reads this, ws, stream, llm
    {
      && interactionCount == old(interactionCount)
      && llm.sentenceBuffer == old(llm.sentenceBuffer) && llm.replies == old(llm.replies)
      && llm.userContext == old(llm.userContext)
      && (|marks| > 0 && HasText(text) ==>
            && ws.sent == old(ws.sent) + [Clear(streamSid)]
            && stream.expectedAudioIndex == 0 && stream.audioBuffer == map[]
            && llm.partialResponseIndex == 0)
      && (!(|marks| > 0 && HasText(text)) ==>
            && ws.sent == old(ws.sent)
            && stream.expectedAudioIndex == old(stream.expectedAudioIndex) && stream.audioBuffer == old(stream.audioBuffer)
            && llm.partialResponseIndex == old(llm.partialResponseIndex))
    }

    /** No handler of the session ran. */
    twostate predicate NothingHandled()
      reads this, ws, stream, llm
    {
      && ws.sent == old(ws.sent)
      && stream.expectedAudioIndex == old(stream.expectedAudioIndex) && stream.audioBuffer == old(stream.audioBuffer)
      && interactionCount == old(interactionCount)
      && llm.State() == old(llm.State()) && llm.replies == old(llm.replies)
      && llm.userContext == old(llm.userContext)
    }

    /** A recogniser result reaching `transcription_service`: its handler
        runs, and the event it emits, if any, runs the session's handler
        registered for it: a `transcription` the turn handler, an
        `utterance` the barge-in handler. `tokens` is the model's content for
        a turn this result completes. */
    method HearResult(result: TranscriptionServices.SttResult, tokens: seq<string>)
      requires Valid()
      modifies transcription`finalResult, transcription`speechFinal, transcription`events
      modifies ws, stream`expectedAudioIndex, stream`audioBuffer
      modifies this`interactionCount, llm`sentenceBuffer, llm`partialResponseIndex, llm`replies, llm`userContext
      ensures var step := TranscriptionServices.OnResult(
          TranscriptionServices.Segmenter(old(transcription.finalResult), old(transcription.speechFinal)),
          result, transcription.streamSid);
        && transcription.State() == step.after && transcription.events == old(transcription.events) + step.events
        && |step.events| <= 1
        && (step.events == [] ==> NothingHandled())
        && (step.events != [] && step.events[0].Transcription? ==> TurnHandled(step.events[0].text, tokens))
        && (step.events != [] && step.events[0].Utterance? ==>
              UtteranceHandled(step.events[0].text, step.events[0].streamSid))
      ensures marks == old(marks)
      ensures Valid()
    {
      TranscriptionServices.OnResultEmitsAtMostOne(transcription.State(), result, transcription.streamSid);
      var emitted := transcription.HandleTranscription(result);
      if emitted != [] {
        match emitted[0]
        case Transcription(t) => HandleTranscription(t, tokens);
        case Utterance(t, sid) => HandleUtterance(t, sid);
      }
    }

    /** An utterance-end signal reaching `transcription_service`: an open
        turn, even an empty one, is emitted and runs the session's turn
        handler, which ignores it when empty; after the end of speech
        nothing happens. This is how a turn the recogniser never marked
        final reaches the LLM service. */
    method HearUtteranceEnd(tokens: seq<string>)
      requires Valid()
      modifies transcription`finalResult, transcription`speechFinal, transcription`events
      modifies this`interactionCount, llm`sentenceBuffer, llm`partialResponseIndex, llm`replies, llm`userContext
      ensures var step := TranscriptionServices.OnUtteranceEnd(
          TranscriptionServices.Segmenter(old(transcription.finalResult), old(transcription.speechFinal)));
        transcription.State() == step.after && transcription.events == old(transcription.events) + step.events
      ensures old(transcription.speechFinal) ==> NothingHandled()
      ensures !old(transcription.speechFinal) ==> TurnHandled(old(transcription.finalResult), tokens)
      ensures marks == old(marks)
      ensures Valid()
    {
      var emitted := transcription.HandleUtteranceEnd();
      if emitted != [] {
        HandleTranscription(emitted[0].text, tokens);
      }
    }

    /** One pass of the message processor's loop; `env` is the process
        environment. `start` attaches the call's context (a fresh inbound one
        for an unknown call, the one `/start_call` registered otherwise) and
        installs its messages in the LLM service, which shares its history
        with the registered context; `mark` acknowledges a mark, `stop` ends
        the loop, and anything else changes nothing here. */
    method ProcessMessage(msg: InboundMessage, env: map<string, string>) returns (stop: bool)
      requires Valid()
      modifies this`marks, registry, llm`systemMessage, llm`initialMessage, llm`userContext
      modifies stream`streamSid, transcription`streamSid
      ensures stop <==> msg.Stop?
      ensures msg.MarkIn? ==> marks == RemoveFirst(old(marks), msg.name)
      ensures !msg.MarkIn? ==> marks == old(marks)
      ensures msg.Start? ==>
        && msg.callSid in registry.contexts
        && registry.contexts.Keys == old(registry.contexts).Keys + {msg.callSid}
        && stream.streamSid == msg.streamSid && transcription.streamSid == Some(msg.streamSid)
        && llm.userContext == CallContexts.Greeting(llm.initialMessage)
        && registry.contexts == old(registry.contexts)[msg.callSid := registry.contexts[msg.callSid]]
        && registry.contexts[msg.callSid].userContext == llm.userContext
        && llm.systemMessage == registry.contexts[msg.callSid].systemMessage
        && llm.initialMessage == registry.contexts[msg.callSid].initialMessage
      ensures msg.Start? && msg.callSid !in old(registry.contexts) ==>
        registry.contexts[msg.callSid]
          == CallRegistries.InboundContext(msg.callSid, CallRegistries.Get(env, "SYSTEM_MESSAGE"), CallRegistries.Get(env, "INITIAL_MESSAGE"))
               .(userContext := llm.userContext)
      ensures msg.Start? && msg.callSid in old(registry.contexts) ==>
        registry.contexts[msg.callSid] == old(registry.contexts)[msg.callSid].(userContext := llm.userContext)
      ensures !msg.Start? ==>
        && unchanged(registry) && unchanged(llm`systemMessage, llm`initialMessage, llm`userContext)
        && unchanged(stream`streamSid, transcription`streamSid)
      ensures Valid()
    {
      stop := false;
      match msg
      case Start(streamSid, callSid) =>
        var context := registry.Attach(callSid, env);
        var shared := llm.SetCallContext(context);
        registry.Share(callSid, shared);
        stream.SetStreamSid(streamSid);
        transcription.SetStreamSid(streamSid);
      case MediaIn(payload) =>
      case MarkIn(mark) =>
        HandleMark(mark);
      case Stop =>
        stop := true;
      case Other(event) =>
    }

    /** `message_processor()` over the messages `msgs`: they are handled in
        order up to and including the first `stop`; the marks are those left
        by the acknowledgements among them, and every call started among
        them is registered. */
    method MessageProcessor(msgs: seq<InboundMessage>, env: map<string, string>) returns (processed: nat)
      requires Valid()
      modifies this`marks, registry, llm`systemMessage, llm`initialMessage, llm`userContext
      modifies stream`streamSid, transcription`streamSid
      ensures processed == Processed(msgs)
      ensures marks == ApplyAcks(old(marks), msgs[..processed])
      ensures old(registry.contexts).Keys <= registry.contexts.Keys
      ensures forall k :: 0 <= k < processed && msgs[k].Start? ==> msgs[k].callSid in registry.contexts
      ensures Valid()
    {
      FirstStopSpec(msgs);
      processed := 0;
      while processed < |msgs|
        invariant processed <= FirstStop(msgs)
        invariant marks == ApplyAcks(old(marks), msgs[..processed])
        invariant old(registry.contexts).Keys <= registry.contexts.Keys
        invariant forall k :: 0 <= k < processed && msgs[k].Start? ==> msgs[k].callSid in registry.contexts
        invariant Valid()
        decreases |msgs| - processed
      {
        var stop := ProcessMessage(msgs[processed], env);
        assert msgs[..processed + 1][..processed] == msgs[..processed];
        processed := processed + 1;
        if stop {
          return;
        }
      }
    }
  }
}
