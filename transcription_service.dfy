/** The transcript segmenter of `TranscriptionService`: speech-to-text
    results, each abstracted to `(is_final, speech_final, text)`, accumulate
    in `final_result` until the recogniser marks the end of speech or an
    utterance-end signal arrives; finished turns leave as `transcription`
    events and interim speech as `utterance` events, the barge-in trigger. */
module TranscriptionServices {
  import opened Common

  /** The events the service emits: `transcription(text)` and
      `utterance(text, stream_sid)`. */
  datatype TranscriptEvent =
    | Transcription(text: string)
    | Utterance(text: string, streamSid: Option<string>)

  /** One recogniser result: `result.is_final`, `result.speech_final` and
      the first alternative's transcript (`""` when there is none). */
  datatype SttResult = SttResult(isFinal: bool, speechFinal: bool, text: string)

  /** The two fields the handlers update. */
  datatype Segmenter = Segmenter(finalResult: string, speechFinal: bool)

  datatype Step = Step(after: Segmenter, events: seq<TranscriptEvent>)

  /** `handle_transcription(result)` on the state `s`. A final result with
      text is appended after one space; a `speech_final` one then ends the
      turn. Interim text is reported at once; blank text is ignored. */
  function OnResult(s: Segmenter, r: SttResult, streamSid: Option<string>): Step
  {
    if r.isFinal && HasText(r.text) then
      var accumulated := s.finalResult + " " + r.text;
      if r.speechFinal then Step(Segmenter("", true), [Transcription(accumulated)])
      else Step(Segmenter(accumulated, false), [])
    else if HasText(r.text) then Step(s, [Utterance(r.text, streamSid)])
    else Step(s, [])
  }

  /** `handle_utterance_end()` on the state `s`: an open turn is emitted as
      it stands, even when nothing was collected. */
  function OnUtteranceEnd(s: Segmenter): Step
  {
    if !s.speechFinal then Step(Segmenter("", true), [Transcription(s.finalResult)])
    else Step(s, [])
  }

  /** Several results handled in order. */
  function Run(s: Segmenter, results: seq<SttResult>, streamSid: Option<string>): Step
    decreases |results|
  {
    if results == [] then Step(s, [])
    else
      var n := |results| - 1;
      var before := Run(s, results[..n], streamSid);
      var step := OnResult(before.after, results[n], streamSid);
      Step(step.after, before.events + step.events)
  }

  /** The text a turn's final fragments accumulate to: each one preceded by
      a space. */
  function Spaced(texts: seq<string>): string
    decreases |texts|
  {
    if texts == [] then ""
    else Spaced(texts[..|texts| - 1]) + " " + texts[|texts| - 1]
  }

  /** A final fragment with text that does not end the speech is appended
      after a space and keeps the turn open; nothing is emitted. */
  lemma FinalFragmentAccumulates(s: Segmenter, text: string, streamSid: Option<string>)
    requires HasText(text)
    ensures OnResult(s, SttResult(true, false, text), streamSid)
         == Step(Segmenter(s.finalResult + " " + text, false), [])
  {
  }

  /** A final fragment with text that ends the speech emits exactly one
      `transcription` holding everything accumulated, this fragment
      included, and empties the accumulator. */
  lemma SpeechFinalEmitsTurn(s: Segmenter, text: string, streamSid: Option<string>)
    requires HasText(text)
    ensures var step := OnResult(s, SttResult(true, true, text), streamSid);
      && step.after == Segmenter("", true)
      && step.events == [Transcription(s.finalResult + " " + text)]
  {
  }

  /** Interim text is reported as one `utterance` with the stream id and
      changes nothing. */
  lemma InterimReportsUtterance(s: Segmenter, speechFinal: bool, text: string, streamSid: Option<string>)
    requires HasText(text)
    ensures OnResult(s, SttResult(false, speechFinal, text), streamSid) == Step(s, [Utterance(text, streamSid)])
  {
  }

  /** Blank text, final or not, emits nothing and changes nothing. */
  lemma {:induction false} BlankResultIgnored(s: Segmenter, r: SttResult, streamSid: Option<string>)
    requires AllWhitespace(r.text)
    ensures OnResult(s, r, streamSid) == Step(s, [])
  {
    StripSpec(r.text);
  }

  /** A result emits at most one event, and a `transcription` only when the
      result is final with text and ends the speech. */
  lemma OnResultEmitsAtMostOne(s: Segmenter, r: SttResult, streamSid: Option<string>)
    ensures var step := OnResult(s, r, streamSid);
      && |step.events| <= 1
      && (|step.events| == 1 && step.events[0].Transcription? <==> r.isFinal && r.speechFinal && HasText(r.text))
      && (|step.events| == 1 && step.events[0].Utterance? <==> !r.isFinal && HasText(r.text))
  {
  }

  /** An utterance end emits the open turn as it stands, even an empty
      one, and nothing once the speech has ended; a second end in a row
      changes nothing. */
  lemma UtteranceEndTwice(s: Segmenter)
    ensures var first := OnUtteranceEnd(s);
      var second := OnUtteranceEnd(first.after);
      && first.events == (if s.speechFinal then [] else [Transcription(s.finalResult)])
      && |first.events| + |second.events| <= 1
      && second == Step(first.after, [])
      && first.after == Segmenter(if s.speechFinal then s.finalResult else "", true)
  {
  }

  /** Final results for `texts` that do not end the speech. */
  function OpenFragments(texts: seq<string>): (r: seq<SttResult>)
    ensures |r| == |texts|
    decreases |texts|
  {
    if texts == [] then []
    else OpenFragments(texts[..|texts| - 1]) + [SttResult(true, false, texts[|texts| - 1])]
  }

  /** Final fragments that do not end the speech only accumulate, each
      after a space. */
  lemma {:induction false} OpenFragmentsAccumulate(s: Segmenter, texts: seq<string>, streamSid: Option<string>)
    requires forall k :: 0 <= k < |texts| ==> HasText(texts[k])
    ensures var r := Run(s, OpenFragments(texts), streamSid);
      && r.events == []
      && r.after.finalResult == s.finalResult + Spaced(texts)
      && (texts != [] ==> !r.after.speechFinal)
      && (texts == [] ==> r.after == s)
    decreases |texts|
  {
    if texts == [] {
      assert s.finalResult + "" == s.finalResult;
    } else {
      var n := |texts| - 1;
      var results := OpenFragments(texts);
      assert HasText(texts[n]);
      assert forall k :: 0 <= k < n ==> texts[..n][k] == texts[k];
      OpenFragmentsAccumulate(s, texts[..n], streamSid);
      var before := Run(s, OpenFragments(texts[..n]), streamSid);
      assert results[..n] == OpenFragments(texts[..n]);
      FinalFragmentAccumulates(before.after, texts[n], streamSid);
      var r := Run(s, results, streamSid);
      assert r == Step(Segmenter(before.after.finalResult + " " + texts[n], false), before.events);
      calc {
        r.after.finalResult;
        (s.finalResult + Spaced(texts[..n])) + " " + texts[n];
        s.finalResult + (Spaced(texts[..n]) + " " + texts[n]);
        s.finalResult + Spaced(texts);
      }
    }
  }

  /** A turn spoken as final fragments, the last of which ends the speech:
      exactly one `transcription` is emitted, holding what was already
      accumulated followed by every fragment after a space, and the
      accumulator is left empty. */
  lemma {:induction false} TurnEmitsJoinedFragments(s: Segmenter, opening: seq<string>, last: string, streamSid: Option<string>)
    requires forall k :: 0 <= k < |opening| ==> HasText(opening[k])
    requires HasText(last)
    ensures Run(s, OpenFragments(opening) + [SttResult(true, true, last)], streamSid)
         == Step(Segmenter("", true), [Transcription(s.finalResult + Spaced(opening) + " " + last)])
  {
    var results := OpenFragments(opening) + [SttResult(true, true, last)];
    assert results[..|opening|] == OpenFragments(opening);
    OpenFragmentsAccumulate(s, opening, streamSid);
  }

  /** Two final fragments, the second ending the speech: one
      `transcription` of both, each after a space. */
  lemma TwoFragmentTurn(s: Segmenter, first: string, second: string, streamSid: Option<string>)
    requires HasText(first) && HasText(second)
    ensures Run(s, [SttResult(true, false, first), SttResult(true, true, second)], streamSid)
         == Step(Segmenter("", true), [Transcription(s.finalResult + " " + first + " " + second)])
  {
    var results := [SttResult(true, false, first), SttResult(true, true, second)];
    assert results[..1] == [results[0]];
    assert results[..1][..0] == [];
    assert Run(s, results[..1], streamSid) == Step(Segmenter(s.finalResult + " " + first, false), []);
  }

  lemma ScenarioFragmentsHaveText()
    ensures HasText("I need help") && HasText(" with my order.")
  {
    StripSpec("I need help");
    assert !IsWhitespace("I need help"[0]);
    StripSpec(" with my order.");
    assert !IsWhitespace(" with my order."[1]);
  }

  lemma ScenarioJoin()
    ensures "" + " " + "I need help" + " " + " with my order." == " I need help  with my order."
  {
  }

  /** "I need help" (final, speech continues) then " with my order." (final,
      speech ends) from the initial state: one `transcription` whose text
      puts a space before each fragment, which makes two spaces before
      "with", and the accumulator is left empty. */
  lemma NeedHelpScenario(streamSid: Option<string>)
    ensures Run(Segmenter("", false),
                [SttResult(true, false, "I need help"), SttResult(true, true, " with my order.")], streamSid)
         == Step(Segmenter("", true), [Transcription(" I need help  with my order.")])
  {
    ScenarioFragmentsHaveText();
    TwoFragmentTurn(Segmenter("", false), "I need help", " with my order.", streamSid);
    ScenarioJoin();
  }

  /** The service: the segmenter fields, the stream id it reports utterances
      under, and the events it has emitted. */
  class TranscriptionService {
    var finalResult: string
    var speechFinal: bool
    var streamSid: Option<string>
    /** Every event emitted so far, in order. */
    ghost var events: seq<TranscriptEvent>

    ghost function State(): Segmenter
      reads this
    {
      Segmenter(finalResult, speechFinal)
    }

    /** `TranscriptionService()`: nothing accumulated, no speech ended yet,
        no stream id. */
    constructor ()
      ensures finalResult == "" && !speechFinal && streamSid.None? && events == []
    {
      finalResult := "";
      speechFinal := false;
      streamSid := None;
      events := [];
    }

    method SetStreamSid(streamId: string)
      modifies this`streamSid
      ensures streamSid == Some(streamId)
    {
      streamSid := Some(streamId);
    }

    /** `get_stream_sid()`: the last id given to `set_stream_sid`, if any. */
    method GetStreamSid() returns (r: Option<string>)
      ensures r == streamSid
    {
      r := streamSid;
    }

    /** `handle_transcription(result)`: moves to the state `OnResult` gives
        and emits its events, which are returned for the handlers to run. */
    method HandleTranscription(result: SttResult) returns (emitted: seq<TranscriptEvent>)
      modifies this`finalResult, this`speechFinal, this`events
      ensures var step := OnResult(old(State()), result, streamSid);
        State() == step.after && emitted == step.events && events == old(events) + emitted
    {
      emitted := [];
      var text := result.text;
      var stripped := Strip(text);
      if result.isFinal && stripped != [] {
        finalResult := finalResult + " " + text;
        if result.speechFinal {
          speechFinal := true;
          emitted := [Transcription(finalResult)];
          events := events + emitted;
          finalResult := "";
        } else {
          speechFinal := false;
        }
      } else {
        if stripped != [] {
          emitted := [Utterance(text, streamSid)];
          events := events + emitted;
        }
      }
    }

    /** `handle_utterance_end()`: moves to the state `OnUtteranceEnd` gives
        and emits its event, if any, which is returned for the handlers to
        run. */
    method HandleUtteranceEnd() returns (emitted: seq<TranscriptEvent>)
      modifies this`finalResult, this`speechFinal, this`events
      ensures var step := OnUtteranceEnd(old(State()));
        State() == step.after && emitted == step.events && events == old(events) + emitted
    {
      emitted := [];
      if !speechFinal {
        emitted := [Transcription(finalResult)];
        events := events + emitted;
        finalResult := "";
        speechFinal := true;
        return;
      } else {
        return;
      }
    }
  }
}
