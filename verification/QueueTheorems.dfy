/** The promises of the lock-free queue, for any number of threads and every schedule. */
module QueueTheorems {
  import opened Options
  import opened Messages
  import opened QueueMachine
  import opened QueueCalls
  import opened QueueInvariant
  import opened QueueSteps
  import opened QueueAccounts

  // The entries found by following the pointers from `head`; no more steps than nodes exist.
  function Queued(g: Shared): seq<Message> {
    if g.head in g.heap then Walk(g.heap, g.heap[g.head].next, |g.heap|) else []
  }

  // The states of `n` threads on a queue of capacity `cap`, after any schedule.
  ghost predicate Reachable(s: State, n: nat, cap: nat) {
    exists dummy, junk, schedule :: s == Run(Init(n, cap, dummy, junk), schedule)
  }

  lemma ReachableInv(s: State, n: nat, cap: nat)
    requires Reachable(s, n, cap)
    ensures Inv(s) && |s.threads| == n && s.g.cap == cap
  {
    var dummy, junk, schedule :| s == Run(Init(n, cap, dummy, junk), schedule);
    InitInv(n, cap, dummy, junk);
    RunInv(Init(n, cap, dummy, junk), schedule);
  }

  predicate AllIdle(s: State) {
    forall i :: 0 <= i < |s.threads| ==> s.threads[i].pc.Idle?
  }

  // ---------- the pointers spell the contents ----------

  lemma {:induction false} WalkFromRank(g: Shared, k: nat, fuel: nat)
    requires Chain(g) && k <= |g.log| && |g.log| - k <= fuel
    ensures Walk(g.heap, if k < |g.log| then Some(g.log[k]) else None, fuel) == g.vals[k..]
    decreases |g.log| - k
  {
    if k < |g.log| {
      assert LinkedAt(g.heap, g.log, g.rank, g.log[k]);
      assert g.heap[g.log[k]].msg == g.vals[k];
      WalkFromRank(g, k + 1, fuel - 1);
      assert g.vals[k..] == [g.vals[k]] + g.vals[k + 1..];
    } else {
      assert g.vals[k..] == [];
    }
  }

  lemma {:induction false} LogFits(g: Shared, k: nat, seen: set<Addr>)
    requires Chain(g) && k <= |g.log| && seen == set j | 0 <= j < k :: g.log[j]
    ensures |seen| == k && seen <= g.heap.Keys
  {
    if k == 0 {
      assert seen == {};
    } else {
      var before := set j | 0 <= j < k - 1 :: g.log[j];
      LogFits(g, k - 1, before);
      assert seen == before + {g.log[k - 1]};
      assert forall j :: 0 <= j < k ==> g.rank[g.log[j]] == j;
    }
  }

  lemma {:induction false} SubsetSize<T>(a: set<T>, b: set<T>)
    requires a <= b
    ensures |a| <= |b|
  {
    if a != {} {
      var x :| x in a;
      SubsetSize(a - {x}, b - {x});
    }
  }

  lemma QueuedIsContents(g: Shared)
    requires Chain(g)
    ensures Queued(g) == Contents(g) && |Queued(g)| == Len(g)
  {
    var all := set j | 0 <= j < |g.log| :: g.log[j];
    LogFits(g, |g.log|, all);
    SubsetSize(all, g.heap.Keys);
    assert |g.heap| == |g.heap.Keys|;
    assert LinkedAt(g.heap, g.log, g.rank, g.head);
    WalkFromRank(g, g.rank[g.head] + 1, |g.heap|);
  }

  // ---------- linearizability ----------

  // The history is a run of the sequential FIFO queue that ends in the present contents; every
  // finished call reported what answers that call and its argument, performed, between its start
  // and its end, exactly the operations it reported, and a call that reported "empty" did so of a
  // moment between them; and each thread's part of the history is what its calls reported, in
  // order, plus what its running call has done.
  lemma Linearizable(s: State, n: nat, cap: nat)
    requires Reachable(s, n, cap)
    ensures Replay(s.g.ops, |s.g.ops|) == Some(Queued(s.g))
    ensures forall k :: 0 <= k < |s.g.done| ==>
              CompletedOk(s.g, s.g.done[k]) && Answers(s.g.done[k].call, s.g.done[k].result)
    ensures |s.threads| == n
    ensures forall i :: 0 <= i < n ==>
              Claimed(i, s.g.done) + SoFar(i, s.threads[i].pc) == Mine(i, s.g.ops, 0, |s.g.ops|)
  {
    ReachableInv(s, n, cap);
    QueuedIsContents(s.g);
  }

  // The messages taken out by the first `n` operations.
  function Pulled(ops: seq<Op>, n: nat): seq<Message>
    requires n <= |ops|
  {
    if n == 0 then [] else Pulled(ops, n - 1) + if ops[n - 1].Pop? then [ops[n - 1].msg] else []
  }

  // Nothing is lost, duplicated or reordered: what was taken out, followed by what is still in,
  // is what was put in.
  lemma {:induction false} FifoOrder(ops: seq<Op>, n: nat)
    requires n <= |ops| && Replay(ops, n).Some?
    ensures Pulled(ops, n) + Replay(ops, n).value == Pushes(ops, n)
    ensures |Pulled(ops, n)| == Pops(ops, n)
  {
    if n > 0 {
      FifoOrder(ops, n - 1);
      var before := Replay(ops, n - 1).value;
      match ops[n - 1]
      case Push(_, m) => assert Pulled(ops, n) + (before + [m]) == (Pulled(ops, n - 1) + before) + [m];
      case Pop(_, m) => assert before == [m] + before[1..];
    }
  }

  // What a traversal returned, told by the history: the entries queued when it loaded `head`, in
  // order and without gaps, followed by entries pushed meanwhile; or the oldest `cap` of them.
  // Its length is what was queued then plus what was pushed until it looked last, cut at `cap`.
  ghost predicate Snapshot(ops: seq<Op>, cap: nat, at: nat, until: nat, end: nat, got: seq<Message>) {
    && at <= until <= end <= |ops| && Replay(ops, at).Some?
    && |got| == Min(cap, |Pushes(ops, until)| - Pops(ops, at))
    && var queued := Replay(ops, at).value;
    && |got| <= cap
    && (queued <= got || (|got| == cap && got <= queued))
    && Pulled(ops, at) + got <= Pushes(ops, end)
  }

  lemma SegmentIsSnapshot(ops: seq<Op>, cap: nat, start: nat, at: nat, until: nat, end: nat, from: nat,
                          got: seq<Message>)
    requires Segment(ops, cap, start, at, until, end, from, got)
    ensures Snapshot(ops, cap, at, until, end, got)
  {
    FifoOrder(ops, at);
    PushesPrefix(ops, at, end);
    SegmentsAgree(Pushes(ops, end), Pulled(ops, at), Replay(ops, at).value, got);
  }

  // Two segments of `all` that begin at the same place.
  lemma SegmentsAgree(all: seq<Message>, pulled: seq<Message>, queued: seq<Message>, got: seq<Message>)
    requires pulled + queued <= all
    requires |pulled| + |got| <= |all| && got == all[|pulled|..|pulled| + |got|]
    ensures pulled + got <= all
    ensures if |queued| <= |got| then queued <= got else got <= queued
  {
    var n := |pulled|;
    assert pulled == all[..n] && queued == all[n..n + |queued|];
  }

  lemma TraversalIsSnapshot(s: State, n: nat, cap: nat, k: nat)
    requires Reachable(s, n, cap) && k < |s.g.done| && s.g.done[k].result.Shown?
    ensures var c := s.g.done[k];
            c.start <= c.result.at && Snapshot(s.g.ops, cap, c.result.at, c.result.until, c.end, c.result.got)
  {
    ReachableInv(s, n, cap);
    var c := s.g.done[k];
    assert CompletedOk(s.g, c);
    var r := c.result;
    SegmentIsSnapshot(s.g.ops, cap, c.start, r.at, r.until, c.end, r.from, r.got);
  }

  // Where `displayEntries` writes its terminator behind the array.
  predicate Overruns(cap: nat, got: seq<Message>) {
    got != [] && |got| == cap
  }

  // A traversal does so if and only if what was queued when it loaded `head`, together with what
  // was pushed until it looked last, reaches the capacity, whatever was popped in between.
  lemma TraversalOverruns(s: State, n: nat, cap: nat, k: nat)
    requires Reachable(s, n, cap) && k < |s.g.done| && s.g.done[k].result.Shown?
    ensures var r := s.g.done[k].result;
            && r.at <= r.until <= s.g.done[k].end <= |s.g.ops| && Replay(s.g.ops, r.at).Some?
            && var pushed := |Pushes(s.g.ops, r.until)| - |Pushes(s.g.ops, r.at)|;
            (Overruns(cap, r.got) <==> 0 < cap <= |Replay(s.g.ops, r.at).value| + pushed)
  {
    TraversalIsSnapshot(s, n, cap, k);
    FifoOrder(s.g.ops, s.g.done[k].result.at);
  }

  // So it is safe where the queue holds fewer entries than the capacity at that load, and no push
  // takes effect before it looks last; a full queue always overruns.
  lemma FullTraversalOverruns(s: State, n: nat, cap: nat, k: nat)
    requires Reachable(s, n, cap) && k < |s.g.done| && s.g.done[k].result.Shown?
    ensures var r := s.g.done[k].result;
            && r.at <= r.until <= |s.g.ops| && Replay(s.g.ops, r.at).Some?
            && (0 < cap <= |Replay(s.g.ops, r.at).value| ==> Overruns(cap, r.got))
            && (|Replay(s.g.ops, r.at).value| < cap && Pushes(s.g.ops, r.until) == Pushes(s.g.ops, r.at) ==>
                  !Overruns(cap, r.got))
  {
    TraversalOverruns(s, n, cap, k);
    PushesPrefix(s.g.ops, s.g.done[k].result.at, s.g.done[k].result.until);
  }

  // ---------- shape ----------

  // Whether `to` is met by following `next` pointers from `a`.
  predicate Reaches(heap: map<Addr, Node>, a: Option<Addr>, to: Addr, fuel: nat)
    decreases fuel
  {
    a.Some? && a.value in heap && (a.value == to || (fuel > 0 && Reaches(heap, heap[a.value].next, to, fuel - 1)))
  }

  lemma {:induction false} ReachesByRank(g: Shared, a: Addr, b: Addr)
    requires Chain(g) && a in g.rank && b in g.rank && g.rank[a] <= g.rank[b]
    ensures Reaches(g.heap, Some(a), b, g.rank[b] - g.rank[a])
    decreases g.rank[b] - g.rank[a]
  {
    if g.rank[a] < g.rank[b] {
      assert LinkedAt(g.heap, g.log, g.rank, a);
      ReachesByRank(g, g.log[g.rank[a] + 1], b);
    } else {
      assert g.log[g.rank[a]] == a && g.log[g.rank[b]] == b;
    }
  }

  // `tail` is reachable from `head` and is the last or second-to-last node, and no thread ever
  // dereferences NULL or an address that was never allocated.
  lemma WellShaped(s: State, n: nat, cap: nat)
    requires Reachable(s, n, cap)
    ensures forall i :: 0 <= i < |s.threads| ==> !s.threads[i].pc.Fault?
    ensures s.g.head in s.g.heap && s.g.tail in s.g.heap
    ensures exists fuel :: Reaches(s.g.heap, Some(s.g.head), s.g.tail, fuel)
    ensures match s.g.heap[s.g.tail].next
            case None => true
            case Some(last) => last in s.g.heap && s.g.heap[last].next.None?
  {
    ReachableInv(s, n, cap);
    forall i | 0 <= i < |s.threads| ensures !s.threads[i].pc.Fault? {
      assert ThreadInv(s.g, i, s.threads[i]);
    }
    ReachesByRank(s.g, s.g.head, s.g.tail);
    assert LinkedAt(s.g.heap, s.g.log, s.g.rank, s.g.tail);
    if s.g.heap[s.g.tail].next.Some? {
      assert LinkedAt(s.g.heap, s.g.log, s.g.rank, s.g.heap[s.g.tail].next.value);
    }
  }

  // A `next` pointer, once set, never changes again, and messages never change.
  lemma WriteOnce(s: State, n: nat, cap: nat, schedule: Schedule, a: Addr)
    requires Reachable(s, n, cap) && a in s.g.heap
    ensures var s' := Run(s, schedule);
            a in s'.g.heap && s'.g.heap[a].msg == s.g.heap[a].msg &&
            (s.g.heap[a].next.Some? ==> s'.g.heap[a].next == s.g.heap[a].next)
  {
    ReachableInv(s, n, cap);
    NodeStays(s, schedule, a);
  }

  lemma {:induction false} NodeStays(s: State, schedule: Schedule, a: Addr)
    requires Inv(s) && a in s.g.heap
    ensures var s' := Run(s, schedule);
            a in s'.g.heap && s'.g.heap[a].msg == s.g.heap[a].msg &&
            (s.g.heap[a].next.Some? ==> s'.g.heap[a].next == s.g.heap[a].next)
  {
    if schedule != [] {
      var k := |schedule| - 1;
      NodeStays(s, schedule[..k], a);
      RunInv(s, schedule[..k]);
      var s' := Run(s, schedule[..k]);
      if Enabled(s', schedule[k].0, schedule[k].1) {
        ThreadsKept(s', schedule[k].0, schedule[k].1);
      }
    }
  }

  // ---------- size and bound ----------

  // The counter is the length, minus the pushes not yet added, plus the pops not yet subtracted;
  // and the length exceeds the capacity only by pushes on their way through eviction.
  lemma SizeAndBound(s: State, n: nat, cap: nat)
    requires Reachable(s, n, cap)
    ensures s.g.size == |Queued(s.g)| - Sum(s.threads, Uncounted) + Sum(s.threads, Unsubtracted)
    ensures |Queued(s.g)| <= cap + Sum(s.threads, Uncounted) + Sum(s.threads, Owing)
    ensures |Queued(s.g)| <= cap + n
    ensures (AllIdle(s) ==> s.g.size == |Queued(s.g)| <= cap)
  {
    ReachableInv(s, n, cap);
    Sizes(s);
  }

  lemma Sizes(s: State)
    requires Chain(s.g) && SizeInv(s) && BoundInv(s)
    ensures s.g.size == |Queued(s.g)| - Sum(s.threads, Uncounted) + Sum(s.threads, Unsubtracted)
    ensures |Queued(s.g)| <= s.g.cap + Sum(s.threads, Uncounted) + Sum(s.threads, Owing)
    ensures |Queued(s.g)| <= s.g.cap + |s.threads|
    ensures (AllIdle(s) ==> s.g.size == |Queued(s.g)| <= s.g.cap)
  {
    QueuedIsContents(s.g);
    SumBound(s.threads, Uncounted, Owing);
    if AllIdle(s) {
      SumZero(s.threads, Uncounted);
      SumZero(s.threads, Unsubtracted);
      SumZero(s.threads, Owing);
    }
  }

  // ---------- ownership of nodes ----------

  // The nodes `freeDequeue` frees: those from `a` to the end of the chain.
  function FreeFrom(heap: map<Addr, Node>, a: Option<Addr>, fuel: nat): multiset<Addr>
    decreases fuel
  {
    if fuel == 0 || a.None? || a.value !in heap then multiset{}
    else multiset{a.value} + FreeFrom(heap, heap[a.value].next, fuel - 1)
  }

  lemma {:induction false} FreeFromRank(g: Shared, k: nat, fuel: nat, b: Addr)
    requires Chain(g) && k <= |g.log| && |g.log| - k <= fuel
    ensures FreeFrom(g.heap, if k < |g.log| then Some(g.log[k]) else None, fuel)[b] ==
            if b in g.rank && g.rank[b] >= k then 1 else 0
    decreases |g.log| - k
  {
    if k < |g.log| {
      assert LinkedAt(g.heap, g.log, g.rank, g.log[k]);
      FreeFromRank(g, k + 1, fuel - 1, b);
      if b in g.rank && g.rank[b] == k { assert b == g.log[k]; }
    }
  }

  // No node is freed twice, none that the queue still reaches is freed, and when all threads are
  // idle the nodes already freed plus those `freeDequeue` frees are every node ever allocated.
  lemma NodesFreedOnce(s: State, n: nat, cap: nat, a: Addr)
    requires Reachable(s, n, cap)
    ensures s.g.freed[a] <= 1
    ensures (FreeFrom(s.g.heap, Some(s.g.head), |s.g.heap|)[a] > 0 ==> s.g.freed[a] == 0)
    ensures s.g.freed[s.g.head] == 0 && s.g.freed[s.g.tail] == 0
    ensures (AllIdle(s) ==>
                  s.g.freed[a] + FreeFrom(s.g.heap, Some(s.g.head), |s.g.heap|)[a] == if a in s.g.heap then 1 else 0)
  {
    ReachableInv(s, n, cap);
    var all := set j | 0 <= j < |s.g.log| :: s.g.log[j];
    LogFits(s.g, |s.g.log|, all);
    SubsetSize(all, s.g.heap.Keys);
    assert |s.g.heap| == |s.g.heap.Keys|;
    FreeFromRank(s.g, s.g.rank[s.g.head], |s.g.heap|, a);
    assert Accounted(s, a) && Accounted(s, s.g.head) && Accounted(s, s.g.tail);
    if AllIdle(s) {
      SumZero(s.threads, Retiring(a));
      assert Owned(s.g.heap, s.g.rank, s.threads, a);
    }
  }

  // ---------- lock-freedom ----------

  // A loop iteration is repeated, for another reason than a spurious failure, only if the queue
  // made progress since the iteration began.
  lemma RetryPaid(g: Shared, i: Tid, th: Thread, c: Choice)
    requires SharedInv(g) && ThreadInv(g, i, th)
    requires c.alloc.Some? ==> c.alloc.value !in g.heap
    requires Act(g, i, th, c).1.retries > th.retries
    ensures th.mark < Progress(Act(g, i, th, c).0)
  {
    if InPush(th.pc) { PushRetryPaid(g, i, th, c); }
    else if InPop(th.pc) { PopRetryPaid(g, i, th, c); }
  }

  lemma PushRetryPaid(g: Shared, i: Tid, th: Thread, c: Choice)
    requires SharedInv(g) && ThreadInv(g, i, th) && InPush(th.pc)
    requires ActPush(g, i, th, c).1.retries > th.retries
    ensures th.mark < Progress(ActPush(g, i, th, c).0)
  {
    if th.pc.PushHelp? { SwingOk(g, i, th.pc.tail, th.pc.succ, c.spurious); }
  }

  lemma PopRetryPaid(g: Shared, i: Tid, th: Thread, c: Choice)
    requires SharedInv(g) && ThreadInv(g, i, th) && InPop(th.pc)
    requires ActPop(g, i, th, c).1.retries > th.retries
    ensures th.mark < Progress(ActPop(g, i, th, c).0)
  {
    if th.pc.PopHelp? { SwingOk(g, i, th.pc.tail, th.pc.succ, c.spurious); }
  }

  function Retries(th: Thread): nat { th.retries }

  // The retries of all threads together are bounded by the entries ever pushed.
  lemma RetriesPaidByPushes(s: State, n: nat, cap: nat, most: nat)
    requires Reachable(s, n, cap) && most == 1 + 3 * |Pushes(s.g.ops, |s.g.ops|)|
    ensures |s.threads| == n
    ensures forall i :: 0 <= i < n ==> s.threads[i].retries <= most
    ensures Sum(s.threads, Retries) <= n * most
  {
    ReachableInv(s, n, cap);
    ThreadRetries(s, most);
    SumAtMost(s.threads, Retries, most);
  }

  lemma ThreadRetries(s: State, most: nat)
    requires SharedInv(s.g) && ThreadsInv(s) && most == 1 + 3 * |Pushes(s.g.ops, |s.g.ops|)|
    ensures forall i :: 0 <= i < |s.threads| ==> s.threads[i].retries <= most
  {
    assert Progress(s.g) <= most;
    forall i | 0 <= i < |s.threads| ensures s.threads[i].retries <= most {
      assert ThreadInv(s.g, i, s.threads[i]);
    }
  }
}
