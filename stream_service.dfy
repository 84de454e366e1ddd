/** services/stream_service.py: the ordered audio delivery buffer.

    Synthesized chunks carry the index of the sentence they speak and may
    arrive in any order; the buffer plays them to the websocket strictly in
    index order. `Drain` and `Submit` are the buffer's behaviour as values;
    the class `StreamService` is the object the source mutates, and each of
    its methods is proved to move between the states those functions give. */
module StreamServices {
  import opened Common
  import opened Transport

  /** A base64 audio payload, passed through untouched. */
  type Payload = string

  /** The buffer's state after an operation (`expected_audio_index` and the
      withheld `audio_buffer`) together with the payloads it sent, in order. */
  datatype Delivery = Delivery(expected: nat, withheld: map<int, Payload>, sent: seq<Payload>)

  /** The `while expected_audio_index in audio_buffer` loop: while the
      awaited index is withheld, send that chunk, delete its key and await
      the next index. */
  function Drain(expected: nat, withheld: map<int, Payload>): Delivery
    decreases |withheld|
  {
    if expected in withheld then
      var smaller := withheld - {expected};
      assert |smaller| < |withheld| by {
        assert smaller.Keys == withheld.Keys - {expected};
      }
      var rest := Drain(expected + 1, smaller);
      Delivery(rest.expected, rest.withheld, [withheld[expected]] + rest.sent)
    else
      Delivery(expected, withheld, [])
  }

  /** The drain sends the contiguous run of withheld chunks starting at
      `expected`, in index order, one per index it moves past; it removes
      exactly the keys it sent; and it stops at the first index not withheld. */
  lemma {:induction false} DrainSendsContiguousRun(expected: nat, withheld: map<int, Payload>)
    ensures var d := Drain(expected, withheld);
      && d.expected == expected + |d.sent|
      && (forall i :: expected <= i < d.expected ==> i in withheld && d.sent[i - expected] == withheld[i])
      && d.expected !in d.withheld
      && (forall i :: i in d.withheld <==> i in withheld && !(expected <= i < d.expected))
      && (forall i :: i in d.withheld ==> d.withheld[i] == withheld[i])
    decreases |withheld|
  {
    if expected in withheld {
      var smaller := withheld - {expected};
      assert smaller.Keys == withheld.Keys - {expected};
      var rest := Drain(expected + 1, smaller);
      DrainSendsContiguousRun(expected + 1, smaller);
      var d := Drain(expected, withheld);
      assert d.sent == [withheld[expected]] + rest.sent;
      forall i | expected <= i < d.expected
        ensures i in withheld && d.sent[i - expected] == withheld[i]
      {
        if i > expected {
          assert i in smaller;
          assert d.sent[i - expected] == rest.sent[i - (expected + 1)];
        }
      }
    }
  }

  /** One turn of the drain loop: sending the chunk at `expected` and
      draining from the next index is the whole drain. */
  lemma {:induction false} DrainUnfold(expected: nat, withheld: map<int, Payload>)
    requires expected in withheld
    ensures var d := Drain(expected, withheld);
            var rest := Drain(expected + 1, withheld - {expected});
            d.expected == rest.expected && d.withheld == rest.withheld
            && d.sent == [withheld[expected]] + rest.sent
  {
  }

  /** Partway through a drain towards `target`: the payloads `done` were
      sent, and draining from (`expected`, `withheld`) completes it. */
  ghost predicate DrainsTo(target: Delivery, expected: nat, withheld: map<int, Payload>, done: seq<Payload>)
  {
    var d := Drain(expected, withheld);
    d.expected == target.expected && d.withheld == target.withheld && done + d.sent == target.sent
  }

  /** Sending the awaited chunk and moving to the next index keeps the
      drain on course, and shrinks the withheld map. */
  lemma {:induction false} DrainsToStep(target: Delivery, expected: nat, withheld: map<int, Payload>, done: seq<Payload>)
    requires expected in withheld && DrainsTo(target, expected, withheld, done)
    ensures DrainsTo(target, expected + 1, withheld - {expected}, done + [withheld[expected]])
    ensures |withheld - {expected}| < |withheld|
  {
    assert (withheld - {expected}).Keys == withheld.Keys - {expected};
    DrainUnfold(expected, withheld);
    var rest := Drain(expected + 1, withheld - {expected});
    assert done + ([withheld[expected]] + rest.sent) == (done + [withheld[expected]]) + rest.sent;
  }

  /** `buffer(index, audio)` on the state (`expected`, `withheld`). */
  function Submit(expected: nat, withheld: map<int, Payload>, index: Option<int>, audio: Payload): Delivery
  {
    match index
    case None => Delivery(expected, withheld, [audio])
    case Some(i) =>
      if i == expected then
        var rest := Drain(expected + 1, withheld);
        Delivery(rest.expected, rest.withheld, [audio] + rest.sent)
      else
        Delivery(expected, withheld[i := audio], [])
  }

  /** An unindexed chunk (the greeting, a tool's `say` text) is sent at once
      and the ordering state is left exactly as it was. */
  lemma {:induction false} UnindexedBypasses(expected: nat, withheld: map<int, Payload>, audio: Payload)
    ensures Submit(expected, withheld, None, audio) == Delivery(expected, withheld, [audio])
  {
  }

  /** The chunk the buffer waits for is sent first, followed by every
      contiguous withheld chunk in increasing index order; each of those keys
      is removed, no other key is, and afterwards the index the buffer waits
      for is not withheld. */
  lemma {:induction false} ExpectedChunkDrains(expected: nat, withheld: map<int, Payload>, audio: Payload)
    ensures var d := Submit(expected, withheld, Some(expected), audio);
      && |d.sent| >= 1 && d.sent[0] == audio
      && d.expected == expected + |d.sent|
      && (forall i :: expected < i < d.expected ==> i in withheld && d.sent[i - expected] == withheld[i])
      && (forall i :: i in d.withheld <==> i in withheld && !(expected < i < d.expected))
      && (forall i :: i in d.withheld ==> d.withheld[i] == withheld[i])
      && d.expected !in d.withheld
  {
    var rest := Drain(expected + 1, withheld);
    DrainSendsContiguousRun(expected + 1, withheld);
    var d := Submit(expected, withheld, Some(expected), audio);
    assert d.sent == [audio] + rest.sent;
    forall i | expected < i < d.expected
      ensures i in withheld && d.sent[i - expected] == withheld[i]
    {
      assert d.sent[i - expected] == rest.sent[i - (expected + 1)];
    }
  }

  /** Any other index, lower than the awaited one included, is stored under
      that index (replacing an earlier chunk there); nothing is sent. */
  lemma {:induction false} OtherIndexStored(expected: nat, withheld: map<int, Payload>, i: int, audio: Payload)
    requires i != expected
    ensures Submit(expected, withheld, Some(i), audio) == Delivery(expected, withheld[i := audio], [])
  {
  }

  /** The awaited index moves only by sending indexed chunks, by exactly
      their number: an unindexed chunk is sent without moving it, a stored
      chunk neither is sent nor moves it. */
  lemma {:induction false} ExpectedAdvancesBySent(expected: nat, withheld: map<int, Payload>, index: Option<int>, audio: Payload)
    ensures var d := Submit(expected, withheld, index, audio);
      d.expected == expected + (if index.Some? then |d.sent| else 0)
  {
    if index.Some? && index.value == expected {
      DrainSendsContiguousRun(expected + 1, withheld);
    }
  }

  /** While every submitted index is at least the awaited one, every withheld
      key stays strictly above the awaited index. */
  lemma {:induction false} KeysStayAboveExpected(expected: nat, withheld: map<int, Payload>, index: Option<int>, audio: Payload)
    requires forall i :: i in withheld ==> i > expected
    requires index.Some? ==> index.value >= expected
    ensures var d := Submit(expected, withheld, index, audio);
      forall i :: i in d.withheld ==> i > d.expected
  {
    var d := Submit(expected, withheld, index, audio);
    if index.Some? && index.value == expected {
      var rest := Drain(expected + 1, withheld);
      DrainSendsContiguousRun(expected + 1, withheld);
      forall i | i in d.withheld ensures i > d.expected {
        assert i in withheld && !(expected + 1 <= i < rest.expected);
      }
    }
  }

  /** The source keeps no turn identity: after a reset, a late chunk of the
      superseded turn carrying index 1 is withheld, and is played right after
      the new turn's chunk 0. */
  lemma StaleChunkPlaysAfterReset(stale: Payload, current: Payload)
    ensures var first := Submit(0, map[], Some(1), stale);
            var second := Submit(first.expected, first.withheld, Some(0), current);
            first.sent == [] && second.sent == [current, stale]
  {
    var first := Submit(0, map[], Some(1), stale);
    assert first.withheld == map[1 := stale];
    assert first.withheld - {1} == map[];
    assert Drain(2, map[]).sent == [];
    assert Drain(1, first.withheld).sent == [stale];
  }

  /** A chunk stored below the awaited index is never played: whatever is
      submitted next, its key stays withheld (with its payload, unless the
      same index is submitted again) and the awaited index stays above it.
      Only `reset`, which empties the map, discards it. */
  lemma {:induction false} LowerIndexStaysWithheld(expected: nat, withheld: map<int, Payload>, i: int, index: Option<int>, audio: Payload)
    requires i < expected && i in withheld
    ensures var d := Submit(expected, withheld, index, audio);
      && i in d.withheld && i < d.expected
      && (index != Some(i) ==> d.withheld[i] == withheld[i])
  {
    if index.Some? && index.value == expected {
      DrainSendsContiguousRun(expected + 1, withheld);
    }
  }

  /** The messages `send_audio` puts on the websocket for `payloads`, the
      first using mark label `firstLabel`: per payload one `media` message
      then one `mark` message with the next label. */
  function Transmissions(sid: string, payloads: seq<Payload>, firstLabel: Label): (r: seq<WsMessage>)
    ensures |r| == 2 * |payloads|
    decreases |payloads|
  {
    if payloads == [] then []
    else
      var n := |payloads| - 1;
      Transmissions(sid, payloads[..n], firstLabel) + [Media(sid, payloads[n]), Mark(sid, firstLabel + n)]
  }

  lemma {:induction false} TransmissionsSnoc(sid: string, payloads: seq<Payload>, p: Payload, firstLabel: Label)
    ensures Transmissions(sid, payloads + [p], firstLabel)
         == Transmissions(sid, payloads, firstLabel) + [Media(sid, p), Mark(sid, firstLabel + |payloads|)]
  {
    assert (payloads + [p])[..|payloads|] == payloads;
  }

  /** The messages for two runs of payloads are those of the first run
      followed by those of the second, whose labels continue the first's. */
  lemma {:induction false} TransmissionsAppend(sid: string, p: seq<Payload>, q: seq<Payload>, firstLabel: Label)
    ensures Transmissions(sid, p + q, firstLabel)
         == Transmissions(sid, p, firstLabel) + Transmissions(sid, q, firstLabel + |p|)
    decreases |q|
  {
    if q == [] {
      assert p + q == p;
    } else {
      var n := |q| - 1;
      assert p + q == (p + q[..n]) + [q[n]];
      TransmissionsSnoc(sid, p + q[..n], q[n], firstLabel);
      TransmissionsAppend(sid, p, q[..n], firstLabel);
      TransmissionsSnoc(sid, q[..n], q[n], firstLabel + |p|);
      assert q[..n] + [q[n]] == q;
    }
  }

  /** `n` consecutive labels starting at `first`. */
  function LabelRun(first: Label, n: nat): (r: seq<Label>)
    ensures |r| == n && forall k :: 0 <= k < n ==> r[k] == first + k
  {
    seq(n, k requires 0 <= k < n => first + k)
  }

  lemma {:induction false} LabelRunSnoc(first: Label, n: nat)
    ensures LabelRun(first, n + 1) == LabelRun(first, n) + [first + n]
  {
    assert LabelRun(first, n + 1) == LabelRun(first, n) + [first + n];
  }

  /** A log holding the messages for `done` extended by the messages for
      one more payload holds the messages for `done + [p]`. */
  lemma {:induction false} TransmissionsLogged(log: seq<WsMessage>, sid: string, done: seq<Payload>, p: Payload, first: Label)
    ensures log + Transmissions(sid, done, first) + [Media(sid, p), Mark(sid, first + |done|)]
         == log + Transmissions(sid, done + [p], first)
  {
    TransmissionsSnoc(sid, done, p, first);
  }

  /** The messages and label of a single payload. */
  lemma {:induction false} TransmissionsOne(sid: string, audio: Payload, first: Label)
    ensures Transmissions(sid, [audio], first) == [Media(sid, audio), Mark(sid, first)]
    ensures LabelRun(first, 1) == [first]
  {
    assert [audio][..0] == [];
  }

  /** `buffer` of the awaited index, split as the source runs it: the
      chunk's own messages and label, then those of the drain from the next
      index. */
  lemma {:induction false} SubmitExpectedThenDrain(sid: string, expected: nat, withheld: map<int, Payload>, audio: Payload, first: Label)
    ensures var d := Submit(expected, withheld, Some(expected), audio);
            var rest := Drain(expected + 1, withheld);
      && d.expected == rest.expected && d.withheld == rest.withheld && |d.sent| == 1 + |rest.sent|
      && Transmissions(sid, d.sent, first)
         == [Media(sid, audio), Mark(sid, first)] + Transmissions(sid, rest.sent, first + 1)
      && LabelRun(first, |d.sent|) == [first] + LabelRun(first + 1, |rest.sent|)
  {
    var rest := Drain(expected + 1, withheld);
    TransmissionsSnoc(sid, [], audio, first);
    assert [] + [audio] == [audio];
    TransmissionsAppend(sid, [audio], rest.sent, first);
  }

  class StreamService {
    const ws: Socket
    var expectedAudioIndex: nat
    var audioBuffer: map<int, Payload>
    var streamSid: string
    /** The next fresh mark label (the model's stand-in for `uuid.uuid4()`). */
    var nextLabel: Label

    /** `StreamService(websocket)`: nothing withheld, chunk 0 awaited. */
    constructor (ws: Socket)
      ensures this.ws == ws
      ensures expectedAudioIndex == 0 && audioBuffer == map[] && streamSid == "" && nextLabel == 0
    {
      this.ws := ws;
      expectedAudioIndex := 0;
      audioBuffer := map[];
      streamSid := "";
      nextLabel := 0;
    }

    /** `set_stream_sid(sid)`. */
    method SetStreamSid(sid: string)
      modifies this`streamSid
      ensures streamSid == sid
    {
      streamSid := sid;
    }

    /** `send_audio(audio)`: one `media` message with the payload, then one
        `mark` message with a fresh label; the label is returned as the
        `audiosent` event's argument. */
    method SendAudio(audio: Payload) returns (markLabel: Label)
      modifies this`nextLabel, ws
      ensures markLabel == old(nextLabel) && nextLabel == markLabel + 1
      ensures ws.sent == old(ws.sent) + [Media(streamSid, audio), Mark(streamSid, markLabel)]
    {
      ws.SendJson(Media(streamSid, audio));
      markLabel := nextLabel;
      nextLabel := nextLabel + 1;
      ws.SendJson(Mark(streamSid, markLabel));
    }

    /** The drain loop of `buffer`: moves to the state `Drain` gives, puts
        the messages for the drained payloads on the websocket and returns
        the labels of their `audiosent` events. */
    method DrainWithheld() returns (labels: seq<Label>)
      modifies this`expectedAudioIndex, this`audioBuffer, this`nextLabel, ws
      ensures var d := Drain(old(expectedAudioIndex), old(audioBuffer));
        && expectedAudioIndex == d.expected && audioBuffer == d.withheld
        && ws.sent == old(ws.sent) + Transmissions(streamSid, d.sent, old(nextLabel))
        && labels == LabelRun(old(nextLabel), |d.sent|)
        && nextLabel == old(nextLabel) + |d.sent|
    {
      ghost var target := Drain(expectedAudioIndex, audioBuffer);
      ghost var done: seq<Payload> := [];
      assert done + target.sent == target.sent;
      labels := [];
      while expectedAudioIndex in audioBuffer
        invariant DrainsTo(target, expectedAudioIndex, audioBuffer, done)
        invariant ws.sent == old(ws.sent) + Transmissions(streamSid, done, old(nextLabel))
        invariant labels == LabelRun(old(nextLabel), |done|)
        invariant nextLabel == old(nextLabel) + |done|
        decreases |audioBuffer|
      {
        var buffered := audioBuffer[expectedAudioIndex];
        TransmissionsLogged(old(ws.sent), streamSid, done, buffered, old(nextLabel));
        var markLabel := SendAudio(buffered);
        LabelRunSnoc(old(nextLabel), |done|);
        labels := labels + [markLabel];
        DrainsToStep(target, expectedAudioIndex, audioBuffer, done);
        audioBuffer := audioBuffer - {expectedAudioIndex};
        expectedAudioIndex := expectedAudioIndex + 1;
        done := done + [buffered];
      }
      assert done == target.sent by {
        assert Drain(expectedAudioIndex, audioBuffer).sent == [];
        assert done + [] == done;
      }
    }

    /** The branch of `buffer` for the awaited index: the chunk is sent at
        once, the next index is awaited, and the withheld chunks that follow
        are drained. */
    method PlayAwaited(audio: Payload) returns (labels: seq<Label>)
      modifies this`expectedAudioIndex, this`audioBuffer, this`nextLabel, ws
      ensures var rest := Drain(old(expectedAudioIndex) + 1, old(audioBuffer));
        && expectedAudioIndex == rest.expected && audioBuffer == rest.withheld
        && ws.sent == old(ws.sent) + [Media(streamSid, audio), Mark(streamSid, old(nextLabel))]
                      + Transmissions(streamSid, rest.sent, old(nextLabel) + 1)
        && labels == [old(nextLabel)] + LabelRun(old(nextLabel) + 1, |rest.sent|)
        && nextLabel == old(nextLabel) + 1 + |rest.sent|
    {
      var markLabel := SendAudio(audio);
      expectedAudioIndex := expectedAudioIndex + 1;
      var more := DrainWithheld();
      labels := [markLabel] + more;
    }

    /** `buffer(index, audio)`: moves to the state `Submit` gives, puts the
        messages for the sent payloads on the websocket, and returns the
        labels of the `audiosent` events it emitted, in order. */
    method Buffer(index: Option<int>, audio: Payload) returns (labels: seq<Label>)
      modifies this`expectedAudioIndex, this`audioBuffer, this`nextLabel, ws
      ensures var d := Submit(old(expectedAudioIndex), old(audioBuffer), index, audio);
        && expectedAudioIndex == d.expected && audioBuffer == d.withheld
        && ws.sent == old(ws.sent) + Transmissions(streamSid, d.sent, old(nextLabel))
        && labels == LabelRun(old(nextLabel), |d.sent|)
        && nextLabel == old(nextLabel) + |d.sent|
    {
      if index.None? {
        TransmissionsOne(streamSid, audio, nextLabel);
        var markLabel := SendAudio(audio);
        labels := [markLabel];
      } else if index.value == expectedAudioIndex {
        SubmitExpectedThenDrain(streamSid, expectedAudioIndex, audioBuffer, audio, nextLabel);
        labels := PlayAwaited(audio);
      } else {
        OtherIndexStored(expectedAudioIndex, audioBuffer, index.value, audio);
        audioBuffer := audioBuffer[index.value := audio];
        labels := [];
        assert labels == LabelRun(old(nextLabel), 0);
      }
    }

    /** `reset()`: chunk 0 awaited and nothing withheld, whatever the state
        was before, so a second reset changes nothing. */
    method Reset()
      modifies this`expectedAudioIndex, this`audioBuffer
      ensures expectedAudioIndex == 0 && audioBuffer == map[]
    {
      expectedAudioIndex := 0;
      audioBuffer := map[];
    }
  }
}
