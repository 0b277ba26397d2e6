/** What every step of the lock-free queue keeps. The argument is thread-modular: `ThreadInv`
    is what one thread knows at its program counter, `Evolves` is what the steps of the other
    threads may do to the shared state, and `ThreadStable` shows the first survives the second. */
module QueueInvariant {
  import opened Options
  import opened Messages
  import opened QueueMachine

  // ---------- the invariant of the shared state ----------

  // The successor that the chain gives to position `k`.
  ghost function NextAt(log: seq<Addr>, k: nat): Option<Addr> {
    if k + 1 < |log| then Some(log[k + 1]) else None
  }

  ghost predicate LinkedAt(heap: map<Addr, Node>, log: seq<Addr>, rank: map<Addr, nat>, a: Addr) {
    a in rank && a in heap ==> heap[a].next == NextAt(log, rank[a])
  }

  // The linked nodes form one acyclic chain in the order of the log, `head` is not past `tail`,
  // and `tail` is the last or the second-to-last node.
  ghost predicate Chain(g: Shared) {
    && |g.log| >= 1 && |g.vals| == |g.log|
    && (forall k :: 0 <= k < |g.log| ==> g.log[k] in g.rank && g.rank[g.log[k]] == k)
    && (forall a :: a in g.rank ==> g.rank[a] < |g.log| && g.log[g.rank[a]] == a)
    && (forall a :: a in g.rank ==> a in g.heap)
    && (forall a {:trigger g.heap[a].msg} :: a in g.rank ==> g.heap[a].msg == g.vals[g.rank[a]])
    && (forall a :: LinkedAt(g.heap, g.log, g.rank, a))
    && g.head in g.rank && g.tail in g.rank
    && g.rank[g.head] <= g.rank[g.tail]
    && |g.log| <= g.rank[g.tail] + 2
  }

  ghost function Contents(g: Shared): seq<Message>
    requires Chain(g)
  {
    g.vals[g.rank[g.head] + 1..]
  }

  // Replaying the history on a sequential queue gives exactly the chain behind `head`.
  ghost predicate History(g: Shared)
    requires Chain(g)
  {
    && Replay(g.ops, |g.ops|) == Some(Contents(g))
    && Pushes(g.ops, |g.ops|) == g.vals[1..]
    && Pops(g.ops, |g.ops|) == g.rank[g.head]
  }

  // The history was at length `at` during `start..end`, and the queue was empty there.
  ghost predicate EmptyAt(ops: seq<Op>, start: nat, at: nat, end: nat) {
    start <= at <= end <= |ops| && Replay(ops, at) == Some([])
  }

  // `got` is the segment of the push order behind the head of moment `at`; it covers all that
  // was queued then and all that was pushed up to moment `until`, unless it was cut at the capacity.
  ghost predicate Segment(ops: seq<Op>, cap: nat, start: nat, at: nat, until: nat, end: nat, from: nat,
                          got: seq<Message>) {
    && start <= at <= until <= end <= |ops|
    && |got| == Min(cap, |Pushes(ops, until)| - from)
    && Replay(ops, at).Some? && Pops(ops, at) == from
    && var all := Pushes(ops, end);
    && |got| <= cap
    && from + |got| <= |all| && got == all[from..from + |got|]
    && (|got| == cap || |Replay(ops, at).value| <= |got|)
  }

  // A finished call performed exactly the operations it reported, between its two ends.
  ghost predicate CompletedOk(g: Shared, c: Completed) {
    && c.start <= c.end <= |g.ops|
    && Mine(c.tid, g.ops, c.start, c.end) == Effect(c.tid, c.result)
    && match c.result
       case PopEmpty(at) => EmptyAt(g.ops, c.start, at, c.end)
       case PushedMissing(_, at, _) => EmptyAt(g.ops, c.start, at, c.end)
       case Shown(at, from, until, got) => Segment(g.ops, g.cap, c.start, at, until, c.end, from, got)
       case _ => true
  }

  ghost predicate DoneOk(g: Shared) {
    forall k :: 0 <= k < |g.done| ==> CompletedOk(g, g.done[k])
  }

  ghost predicate SharedInv(g: Shared) {
    Chain(g) && History(g) && DoneOk(g)
  }

  // ---------- what one thread knows ----------

  ghost predicate OwnNode(g: Shared, i: Tid, m: Message, node: Addr) {
    node in g.heap && node !in g.rank && g.heap[node] == Node(m, None, i)
  }

  ghost predicate TailSeen(g: Shared, th: Thread, tail: Addr) {
    tail in g.rank && g.rank[tail] <= Rank(g, g.tail) && (g.tail == tail || th.mark < Progress(g))
  }

  ghost predicate HeadSeen(g: Shared, th: Thread, head: Addr) {
    head in g.rank && g.rank[head] <= Rank(g, g.head) && (g.head == head || th.mark < Progress(g))
  }

  ghost predicate Follows(g: Shared, a: Addr, succ: Addr) {
    a in g.rank && succ in g.rank && g.rank[succ] == g.rank[a] + 1
  }

  // `tail` had no successor when this iteration looked, and gains none without progress.
  ghost predicate Unlinked(g: Shared, th: Thread, tail: Addr) {
    tail in g.heap && (g.heap[tail].next.None? || th.mark < Progress(g))
  }

  // A node that has left the chain.
  ghost predicate LeftChain(g: Shared, head: Addr) {
    head in g.rank && g.rank[head] < Rank(g, g.head)
  }

  // The last moment at which this thread knew the queue to be empty.
  ghost predicate Missed(g: Shared, th: Thread) {
    EmptyAt(g.ops, th.start, th.at, |g.ops|)
  }

  ghost predicate ShowBase(g: Shared, th: Thread) {
    && th.start <= th.at <= |g.ops|
    && th.from < th.seen <= |g.log| && |g.vals| == |g.log|
    && Replay(g.ops, th.at) == Some(g.vals[th.from + 1..th.seen])
    && Pops(g.ops, th.at) == th.from
  }

  function Before(i: Tid, why: Why): seq<Op> {
    match why case Caller => [] case Evict(m) => [Push(i, m)]
  }

  // The operations this call has performed so far.
  function SoFar(i: Tid, pc: Pc): seq<Op> {
    match pc
    case PushSwing(m, _, _) => [Push(i, m)]
    case PushCount(m) => [Push(i, m)]
    case PopCount(why, _, m) => Before(i, why) + [Pop(i, m)]
    case PopFree(why, _, m) => Before(i, why) + [Pop(i, m)]
    case _ => if InPop(pc) then Before(i, pc.why) else []
  }

  ghost predicate PushInv(g: Shared, i: Tid, th: Thread) {
    match th.pc
    case PushLoadTail(m, node) => OwnNode(g, i, m, node)
    case PushLoadNext(m, node, tail) => OwnNode(g, i, m, node) && TailSeen(g, th, tail)
    case PushRecheck(m, node, tail, next) =>
      && OwnNode(g, i, m, node) && TailSeen(g, th, tail)
      && (next.None? ==> Unlinked(g, th, tail))
      && (next.Some? ==> Follows(g, tail, next.value))
    case PushHelp(m, node, tail, succ) =>
      OwnNode(g, i, m, node) && TailSeen(g, th, tail) && Follows(g, tail, succ)
    case PushLink(m, node, tail) =>
      OwnNode(g, i, m, node) && TailSeen(g, th, tail) && Unlinked(g, th, tail)
    case PushSwing(m, node, tail) => Follows(g, tail, node)
    case _ => true
  }

  ghost predicate PopInv(g: Shared, th: Thread) {
    match th.pc
    case PopLoadTail(why, head) => HeadSeen(g, th, head)
    case PopLoadNext(why, head, tail) =>
      HeadSeen(g, th, head) && TailSeen(g, th, tail) && g.rank[head] <= g.rank[tail]
    case PopRecheck(why, head, tail, next) =>
      && HeadSeen(g, th, head) && TailSeen(g, th, tail) && g.rank[head] <= g.rank[tail]
      && (next.None? ==> head == tail && Missed(g, th) && !th.owes)
      && (next.Some? ==> Follows(g, head, next.value))
    case PopHelp(why, tail, succ) => TailSeen(g, th, tail) && Follows(g, tail, succ)
    case PopRead(why, head, next) =>
      && HeadSeen(g, th, head) && next.Some? && Follows(g, head, next.value)
      && g.rank[head] < Rank(g, g.tail)
    case PopSwing(why, head, succ, out) =>
      && HeadSeen(g, th, head) && Follows(g, head, succ)
      && g.rank[succ] < |g.vals| && g.vals[g.rank[succ]] == out
      && g.rank[head] < Rank(g, g.tail)
    case PopCount(why, head, out) => LeftChain(g, head)
    case PopFree(why, head, out) => LeftChain(g, head)
    case _ => true
  }

  ghost predicate ShowInv(g: Shared, th: Thread) {
    match th.pc
    case ShowLoadFirst(head) => ShowBase(g, th) && head in g.rank && g.rank[head] == th.from
    case ShowWalk(current, got) =>
      && ShowBase(g, th)
      && |got| <= g.cap && th.from + 1 + |got| <= |g.log|
      && got == g.vals[th.from + 1..th.from + 1 + |got|]
      && (current.Some? ==> current.value in g.rank && g.rank[current.value] == th.from + 1 + |got|)
      && (current.None? ==> th.seen <= th.from + 1 + |got|)
      && th.at <= th.until <= |g.ops|
      && (current.None? ==> |Pushes(g.ops, th.until)| == th.from + |got|)
      && (current.Some? ==> |Pushes(g.ops, th.until)| > th.from + |got|)
    case _ => true
  }

  // Inside a loop iteration, the retries so far were paid for before the iteration began.
  predicate InIteration(pc: Pc) {
    pc.PushLoadNext? || pc.PushRecheck? || pc.PushHelp? || pc.PushLink? ||
    pc.PopLoadTail? || pc.PopLoadNext? || pc.PopRecheck? || pc.PopHelp? || pc.PopRead? || pc.PopSwing?
  }

  ghost predicate Clock(g: Shared, th: Thread) {
    && th.retries <= Progress(g)
    && (InIteration(th.pc) ==> th.retries <= th.mark <= Progress(g))
  }

  ghost predicate Doing(g: Shared, i: Tid, th: Thread) {
    && th.start <= |g.ops|
    && (!th.pc.Idle? ==> Mine(i, g.ops, th.start, |g.ops|) == SoFar(i, th.pc))
  }

  ghost predicate ThreadInv(g: Shared, i: Tid, th: Thread) {
    !th.pc.Fault? && PushInv(g, i, th) && PopInv(g, th) && ShowInv(g, th) && Clock(g, th) && Doing(g, i, th)
  }

  // ---------- what a step of thread `i` may do to the shared state ----------

  // `next` links are written once, and never without progress.
  ghost predicate NodesEvolve(g: Shared, g': Shared, i: Tid) {
    && (forall a :: a in g.heap ==> a in g'.heap)
    && (forall a {:trigger g'.heap[a].msg} :: a in g.heap ==> g'.heap[a].msg == g.heap[a].msg)
    && (forall a {:trigger g'.heap[a].owner} :: a in g.heap ==> g'.heap[a].owner == g.heap[a].owner)
    && (forall a {:trigger g'.heap[a].next} ::
          a in g.heap && g.heap[a].next.Some? ==> g'.heap[a].next == g.heap[a].next)
    && (forall a {:trigger g'.heap[a].next} ::
          a in g.rank && a in g.heap && g'.heap[a].next != g.heap[a].next ==> Progress(g) < Progress(g'))
    && (forall a {:trigger OwnedApart(g, g', i, a)} :: OwnedApart(g, g', i, a))
  }

  // The nodes that the other threads have not linked yet are not touched.
  ghost predicate OwnedApart(g: Shared, g': Shared, i: Tid, a: Addr) {
    a in g.heap && a !in g.rank && g.heap[a].owner != i ==> a in g'.heap && a !in g'.rank && g'.heap[a] == g.heap[a]
  }

  ghost predicate Evolves(g: Shared, g': Shared, i: Tid) {
    && g'.cap == g.cap
    && NodesEvolve(g, g', i)
    && g.log <= g'.log && g.vals <= g'.vals
    && (forall a :: a in g.rank ==> a in g'.rank && g'.rank[a] == g.rank[a])
    && Rank(g, g.head) <= Rank(g', g'.head) && Rank(g, g.tail) <= Rank(g', g'.tail)
    && Progress(g) <= Progress(g')
    && (g'.head != g.head ==> Progress(g) < Progress(g'))
    && (g'.tail != g.tail ==> Progress(g) < Progress(g'))
    && g.ops <= g'.ops
    && (forall k :: |g.ops| <= k < |g'.ops| ==> g'.ops[k].tid == i)
  }

  // ---------- histories only grow ----------

  lemma {:induction false} ReplayStable(ops: seq<Op>, ops': seq<Op>, n: nat)
    requires ops <= ops' && n <= |ops|
    ensures Replay(ops', n) == Replay(ops, n)
    ensures Pops(ops', n) == Pops(ops, n)
    ensures Pushes(ops', n) == Pushes(ops, n)
  {
    if n > 0 {
      ReplayStable(ops, ops', n - 1);
    }
  }

  lemma {:induction false} MineStable(i: Tid, ops: seq<Op>, ops': seq<Op>, from: nat, to: nat)
    requires ops <= ops' && from <= to <= |ops|
    ensures Mine(i, ops', from, to) == Mine(i, ops, from, to)
  {
    if from < to {
      MineStable(i, ops, ops', from, to - 1);
    }
  }

  lemma {:induction false} MineSkips(i: Tid, ops: seq<Op>, from: nat, mid: nat, to: nat)
    requires from <= mid <= to <= |ops|
    requires forall k :: mid <= k < to ==> ops[k].tid != i
    ensures Mine(i, ops, from, to) == Mine(i, ops, from, mid)
  {
    if mid < to {
      MineSkips(i, ops, from, mid, to - 1);
    }
  }

  lemma MineAppends(i: Tid, ops: seq<Op>, op: Op, from: nat)
    requires from <= |ops| && op.tid == i
    ensures Mine(i, ops + [op], from, |ops| + 1) == Mine(i, ops, from, |ops|) + [op]
  {
    MineStable(i, ops, ops + [op], from, |ops|);
  }

  // Later pushes only extend the push order.
  lemma {:induction false} PushesPrefix(ops: seq<Op>, m: nat, n: nat)
    requires m <= n <= |ops|
    ensures Pushes(ops, m) <= Pushes(ops, n)
  {
    if m < n {
      PushesPrefix(ops, m, n - 1);
    }
  }

  lemma CompletedStable(g: Shared, g': Shared, c: Completed)
    requires CompletedOk(g, c) && g.ops <= g'.ops && g'.cap == g.cap
    ensures CompletedOk(g', c)
  {
    MineStable(c.tid, g.ops, g'.ops, c.start, c.end);
    ReplayStable(g.ops, g'.ops, c.end);
    match c.result
    case PopEmpty(at) => ReplayStable(g.ops, g'.ops, at);
    case PushedMissing(_, at, _) => ReplayStable(g.ops, g'.ops, at);
    case Shown(at, _, until, _) =>
      ReplayStable(g.ops, g'.ops, at);
      ReplayStable(g.ops, g'.ops, until);
    case _ =>
  }

  lemma DoneStable(g: Shared, g': Shared)
    requires DoneOk(g) && g.ops <= g'.ops && g'.cap == g.cap && g'.done == g.done
    ensures DoneOk(g')
  {
    forall k | 0 <= k < |g'.done| ensures CompletedOk(g', g'.done[k]) {
      CompletedStable(g, g', g.done[k]);
    }
  }

  lemma PushStable(g: Shared, g': Shared, i: Tid, j: Tid, th: Thread)
    requires i != j && PushInv(g, j, th) && Clock(g, th) && Evolves(g, g', i)
    ensures PushInv(g', j, th)
  {
    if th.pc.PushLoadTail? || th.pc.PushLoadNext? || th.pc.PushRecheck? || th.pc.PushHelp? || th.pc.PushLink? {
      assert OwnedApart(g, g', i, th.pc.node);
    }
  }

  lemma PopStable(g: Shared, g': Shared, i: Tid, th: Thread)
    requires PopInv(g, th) && Clock(g, th) && Evolves(g, g', i)
    ensures PopInv(g', th)
  {
    if th.at <= |g.ops| {
      ReplayStable(g.ops, g'.ops, th.at);
    }
  }

  lemma ShowStable(g: Shared, g': Shared, i: Tid, th: Thread)
    requires ShowInv(g, th) && Evolves(g, g', i) && |g'.vals| == |g'.log|
    ensures ShowInv(g', th)
  {
    if th.pc.ShowLoadFirst? || th.pc.ShowWalk? {
      ReplayStable(g.ops, g'.ops, th.at);
      if th.pc.ShowWalk? { ReplayStable(g.ops, g'.ops, th.until); }
      assert g'.vals[th.from + 1..th.seen] == g.vals[th.from + 1..th.seen];
    }
  }

  // What a thread knows survives the steps of the others.
  lemma ThreadStable(g: Shared, g': Shared, i: Tid, j: Tid, th: Thread)
    requires i != j && ThreadInv(g, j, th) && Evolves(g, g', i) && |g'.vals| == |g'.log|
    ensures ThreadInv(g', j, th)
  {
    PushStable(g, g', i, j, th);
    PopStable(g, g', i, th);
    ShowStable(g, g', i, th);
    MineStable(j, g.ops, g'.ops, th.start, |g.ops|);
    MineSkips(j, g'.ops, th.start, |g.ops|, |g'.ops|);
  }
}
