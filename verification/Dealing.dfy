/** Dealing a sequence of messages round robin, and putting it together again. */
module Dealing {
  import opened Messages

  // The messages of one group, in order.
  function OfGroup(ms: seq<Message>, g: nat): seq<Message> {
    if ms == [] then []
    else OfGroup(ms[..|ms| - 1], g) + if ms[|ms| - 1].category == g then [ms[|ms| - 1]] else []
  }

  // The messages before the first stop.
  function BeforeStop(ms: seq<Message>): seq<Message> {
    if ms == [] || ms[0].op == STOP_MESSAGE then [] else [ms[0]] + BeforeStop(ms[1..])
  }

  // What slot `j` of `slots` gets when `ms` is dealt one at a time.
  function Deal(ms: seq<Message>, slots: nat, j: nat): seq<Message>
    requires slots > 0
  {
    if ms == [] then []
    else Deal(ms[..|ms| - 1], slots, j) + if (|ms| - 1) % slots == j then [ms[|ms| - 1]] else []
  }

  lemma DivStep(n: nat, k: nat)
    requires k > 0
    ensures n % k == k - 1 ==> (n + 1) / k == n / k + 1 && (n + 1) % k == 0
    ensures n % k < k - 1 ==> (n + 1) / k == n / k && (n + 1) % k == n % k + 1
  {
    var (q, r) := (n / k, n % k);
    assert n == k * q + r;
    if r == k - 1 { Quotient(n + 1, k, q + 1, 0); } else { Quotient(n + 1, k, q, r + 1); }
  }

  lemma Quotient(n: nat, k: nat, q: nat, r: nat)
    requires k > 0 && r < k && n == k * q + r
    ensures n / k == q && n % k == r
  {
    var q' := n / k;
    assert n == k * q' + n % k;
    if q < q' {
      MulGap(k, q, q');
      assert false;
    } else if q' < q {
      MulGap(k, q', q);
      assert false;
    }
  }

  lemma MulGap(k: nat, a: nat, b: nat)
    requires a < b
    ensures k * a + k <= k * b
  {
    assert k * b == k * a + k * (b - a);
    assert b - a >= 1;
  }

  // Slots before the next one to be served have one message more than the others.
  lemma {:induction false} DealLoad(ms: seq<Message>, slots: nat, j: nat)
    requires j < slots
    ensures |Deal(ms, slots, j)| == |ms| / slots + if j < |ms| % slots then 1 else 0
  {
    if ms == [] {
      Quotient(0, slots, 0, 0);
    } else {
      DealLoad(ms[..|ms| - 1], slots, j);
      DivStep(|ms| - 1, slots);
    }
  }

  lemma {:induction false} DealPrefix(ms: seq<Message>, slots: nat, j: nat, n: nat)
    requires slots > 0 && n <= |ms|
    ensures Deal(ms[..n], slots, j) <= Deal(ms, slots, j)
  {
    if n < |ms| {
      assert ms[..|ms| - 1][..n] == ms[..n];
      DealPrefix(ms[..|ms| - 1], slots, j, n);
    } else {
      assert ms[..n] == ms;
    }
  }

  // The n-th message is in slot n mod `slots`, at place n div `slots`.
  lemma DealAt(ms: seq<Message>, slots: nat, n: nat)
    requires slots > 0 && n < |ms|
    ensures n / slots < |Deal(ms, slots, n % slots)| && Deal(ms, slots, n % slots)[n / slots] == ms[n]
  {
    var j := n % slots;
    assert ms[..n + 1][..n] == ms[..n];
    DealLoad(ms[..n], slots, j);
    DealPrefix(ms, slots, j, n + 1);
    assert Deal(ms[..n + 1], slots, j) == Deal(ms[..n], slots, j) + [ms[n]];
  }

  // Taking `n` messages from the streams in turn.
  function Collect(streams: seq<seq<Message>>, n: nat): seq<Message>
    requires |streams| > 0 && forall i :: 0 <= i < n ==> i / |streams| < |streams[i % |streams|]|
  {
    if n == 0 then []
    else Collect(streams, n - 1) + [streams[(n - 1) % |streams|][(n - 1) / |streams|]]
  }

  ghost predicate DealtTo(streams: seq<seq<Message>>, ms: seq<Message>) {
    |streams| > 0 && forall j :: 0 <= j < |streams| ==> streams[j] == Deal(ms, |streams|, j)
  }

  // Taking from the streams in turn gives `ms`.
  ghost predicate MergeTo(streams: seq<seq<Message>>, ms: seq<Message>) {
    && |streams| > 0 && (forall i :: 0 <= i < |ms| ==> i / |streams| < |streams[i % |streams|]|)
    && Collect(streams, |ms|) == ms
  }

  // No stream is ahead of another by more than one.
  ghost predicate Balanced(streams: seq<seq<Message>>) {
    forall i, j :: 0 <= i < |streams| && 0 <= j < |streams| ==> |streams[i]| <= |streams[j]| + 1
  }

  lemma DealtMerges(streams: seq<seq<Message>>, ms: seq<Message>)
    requires DealtTo(streams, ms)
    ensures MergeTo(streams, ms)
  {
    CollectDealt(streams, ms, |ms|);
    assert ms[..|ms|] == ms;
  }

  lemma DealtBalanced(streams: seq<seq<Message>>, ms: seq<Message>)
    requires DealtTo(streams, ms)
    ensures Balanced(streams)
  {
    forall i, j | 0 <= i < |streams| && 0 <= j < |streams| ensures |streams[i]| <= |streams[j]| + 1 {
      DealLoad(ms, |streams|, i);
      DealLoad(ms, |streams|, j);
    }
  }

  // Collecting what was dealt gives the messages back.
  lemma {:induction false} CollectDealt(streams: seq<seq<Message>>, ms: seq<Message>, n: nat)
    requires DealtTo(streams, ms) && n <= |ms|
    ensures |streams| > 0 && forall i :: 0 <= i < n ==> i / |streams| < |streams[i % |streams|]|
    ensures Collect(streams, n) == ms[..n]
  {
    if n > 0 {
      CollectDealt(streams, ms, n - 1);
      NextDealt(streams, ms, n - 1);
      assert ms[..n] == ms[..n - 1] + [ms[n - 1]];
    }
  }

  lemma NextDealt(streams: seq<seq<Message>>, ms: seq<Message>, n: nat)
    requires DealtTo(streams, ms) && n < |ms|
    ensures var k := |streams|; 0 <= n / k < |streams[n % k]| && streams[n % k][n / k] == ms[n]
  {
    DealAt(ms, |streams|, n);
    assert streams[n % |streams|] == Deal(ms, |streams|, n % |streams|);
  }
}
