// Reordering guarantee of the stream service's `buffer`: whatever order the
// synthesised chunks 0..N-1 of one response arrive in, they leave in index
// order, each exactly once, and nothing stays withheld.

module StreamOrdering {
  import opened Common
  import opened StreamServices

  /** One `buffer(index, audio)` call. */
  datatype Chunk = Chunk(index: Option<int>, audio: Payload)

  /** Successive `buffer` calls from the state (`expected`, `withheld`): the
      final state and everything sent, in sending order. */
  function Feed(expected: nat, withheld: map<int, Payload>, chunks: seq<Chunk>): Delivery
    decreases |chunks|
  {
    if chunks == [] then Delivery(expected, withheld, [])
    else
      var n := |chunks| - 1;
      var before := Feed(expected, withheld, chunks[..n]);
      var step := Submit(before.expected, before.withheld, chunks[n].index, chunks[n].audio);
      Delivery(step.expected, step.withheld, before.sent + step.sent)
  }

  /** `order` lists every index below `n` exactly once. */
  ghost predicate IsPermutation(order: seq<int>, n: nat)
  {
    && |order| == n
    && (forall k :: 0 <= k < n ==> 0 <= order[k] < n)
    && (forall j, k :: 0 <= j < k < n ==> order[j] != order[k])
    && (forall i :: 0 <= i < n ==> i in order)
  }

  /** The chunks of a response whose payloads are `payloads`, arriving in
      the index order `order`. */
  function Arrivals(order: seq<int>, payloads: seq<Payload>): (r: seq<Chunk>)
    requires forall k :: 0 <= k < |order| ==> 0 <= order[k] < |payloads|
    ensures |r| == |order|
    ensures forall k :: 0 <= k < |order| ==> r[k] == Chunk(Some(order[k]), payloads[order[k]])
  {
    seq(|order|, k requires 0 <= k < |order| => Chunk(Some(order[k]), payloads[order[k]]))
  }

  /** The indices of the first `m` arrivals. */
  ghost function Seen(order: seq<int>, m: nat): set<int>
    requires m <= |order|
  {
    set k | 0 <= k < m :: order[k]
  }

  /** What holds after the first `m` arrivals: the payloads below the awaited
      index have been sent in order and all of them have arrived; the withheld
      keys are exactly the arrived indices above the awaited one, each holding
      its own payload. */
  ghost predicate Arrived(order: seq<int>, payloads: seq<Payload>, m: nat, d: Delivery)
    requires m <= |order|
  {
    && d.expected <= |payloads|
    && d.sent == payloads[..d.expected]
    && (forall i :: 0 <= i < d.expected ==> i in Seen(order, m))
    && d.expected !in Seen(order, m)
    && (forall i :: i in d.withheld <==> i in Seen(order, m) && i > d.expected)
    && (forall i :: i in d.withheld ==> 0 <= i < |payloads| && d.withheld[i] == payloads[i])
  }

  /** The next arrival is an index not seen before. */
  lemma {:induction false} NextIsUnseen(order: seq<int>, n: nat, m: nat)
    requires IsPermutation(order, n)
    requires m < |order|
    ensures order[m] !in Seen(order, m)
    ensures Seen(order, m + 1) == Seen(order, m) + {order[m]}
  {
    assert forall j :: 0 <= j < m ==> order[j] != order[m];
  }

  /** Draining a buffer whose entries are the response's own payloads sends
      the next stretch of the response. */
  lemma {:induction false} DrainSendsStretch(e: nat, withheld: map<int, Payload>, payloads: seq<Payload>)
    requires e <= |payloads|
    requires forall i :: i in withheld ==> 0 <= i < |payloads| && withheld[i] == payloads[i]
    ensures var r := Drain(e, withheld);
      e <= r.expected <= |payloads| && r.sent == payloads[e..r.expected]
  {
    var r := Drain(e, withheld);
    DrainSendsContiguousRun(e, withheld);
    assert r.expected <= |payloads| by {
      if r.expected > e {
        assert r.expected - 1 in withheld;
      }
    }
    assert r.sent == payloads[e..r.expected] by {
      forall i | e <= i < r.expected ensures r.sent[i - e] == payloads[i] {
        assert i in withheld;
      }
    }
  }

  /** The awaited chunk arrives: it and the withheld run after it are sent. */
  lemma {:induction false} AwaitedArrives(order: seq<int>, payloads: seq<Payload>, m: nat, d: Delivery)
    requires IsPermutation(order, |payloads|)
    requires m < |order| && order[m] == d.expected
    requires Arrived(order, payloads, m, d)
    ensures var step := Submit(d.expected, d.withheld, Some(order[m]), payloads[order[m]]);
      Arrived(order, payloads, m + 1, Delivery(step.expected, step.withheld, d.sent + step.sent))
  {
    var e := d.expected;
    NextIsUnseen(order, |payloads|, m);
    var step := Submit(e, d.withheld, Some(e), payloads[e]);
    var next := Delivery(step.expected, step.withheld, d.sent + step.sent);
    var rest := Drain(e + 1, d.withheld);
    DrainSendsStretch(e + 1, d.withheld, payloads);
    assert next.sent == payloads[..next.expected] by {
      assert step.sent == [payloads[e]] + payloads[e + 1..rest.expected];
      assert d.sent == payloads[..e];
    }
    DrainSendsContiguousRun(e + 1, d.withheld);
    var seen := Seen(order, m + 1);
    forall i | 0 <= i < next.expected
      ensures i in seen
    {
      if e < i {
        assert i in d.withheld;
      }
    }
    assert next.expected !in seen;
  }

  /** Any other chunk is withheld under its index. */
  lemma {:induction false} LaterArrives(order: seq<int>, payloads: seq<Payload>, m: nat, d: Delivery)
    requires IsPermutation(order, |payloads|)
    requires m < |order| && order[m] != d.expected
    requires Arrived(order, payloads, m, d)
    ensures var step := Submit(d.expected, d.withheld, Some(order[m]), payloads[order[m]]);
      Arrived(order, payloads, m + 1, Delivery(step.expected, step.withheld, d.sent + step.sent))
  {
    var c := order[m];
    NextIsUnseen(order, |payloads|, m);
    var step := Submit(d.expected, d.withheld, Some(c), payloads[c]);
    assert c > d.expected;
    assert step.withheld == d.withheld[c := payloads[c]];
    assert d.sent + step.sent == d.sent;
  }

  /** `Arrived` holds after every prefix of the arrivals. */
  lemma {:induction false} ArrivedAfterPrefix(order: seq<int>, payloads: seq<Payload>, m: nat)
    requires IsPermutation(order, |payloads|)
    requires m <= |order|
    ensures Arrived(order, payloads, m, Feed(0, map[], Arrivals(order, payloads)[..m]))
    decreases m
  {
    var chunks := Arrivals(order, payloads);
    if m == 0 {
      assert chunks[..0] == [];
      assert Seen(order, 0) == {};
    } else {
      var n := m - 1;
      assert chunks[..m][..n] == chunks[..n];
      ArrivedAfterPrefix(order, payloads, n);
      var d := Feed(0, map[], chunks[..n]);
      assert chunks[..m][n] == Chunk(Some(order[n]), payloads[order[n]]);
      if order[n] == d.expected {
        AwaitedArrives(order, payloads, n, d);
      } else {
        LaterArrives(order, payloads, n, d);
      }
    }
  }

  /** Every index below `n` is among the first `n` arrivals of a
      permutation, and nothing else is. */
  lemma {:induction false} AllSeen(order: seq<int>, n: nat)
    requires IsPermutation(order, n)
    ensures forall i :: i in Seen(order, n) <==> 0 <= i < n
  {
    forall i | 0 <= i < n ensures i in Seen(order, n) {
      assert i in order;
      var k :| 0 <= k < n && order[k] == i;
    }
  }

  /** The chunks 0..N-1 of one response, submitted in any order starting from
      a fresh (or reset) stream service, are sent exactly in index order, each
      once, and the service ends awaiting index N with nothing withheld. */
  lemma {:induction false} AnyArrivalOrderPlaysInIndexOrder(order: seq<int>, payloads: seq<Payload>)
    requires IsPermutation(order, |payloads|)
    ensures Feed(0, map[], Arrivals(order, payloads)) == Delivery(|payloads|, map[], payloads)
  {
    var chunks := Arrivals(order, payloads);
    var n := |payloads|;
    ArrivedAfterPrefix(order, payloads, n);
    assert chunks[..n] == chunks;
    AllSeen(order, n);
    var d := Feed(0, map[], chunks);
    assert d.expected == n;
    assert d.sent == payloads;
    assert forall i :: i !in d.withheld;
    assert d.withheld == map[];
  }
}
