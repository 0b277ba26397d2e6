/** Every atomic step of the lock-free queue keeps the invariant and stays within `Evolves`. */
module QueueSteps {
  import opened Messages
  import opened QueueMachine
  import opened QueueInvariant

  // ---------- the atomic updates ----------

  lemma AllocOk(g: Shared, i: Tid, a: Addr, m: Message)
    requires SharedInv(g) && a !in g.heap
    ensures var g' := Alloc(g, i, a, m); SharedInv(g') && Evolves(g, g', i) && OwnNode(g', i, m, a)
  {
    var g' := Alloc(g, i, a, m);
    assert a !in g.rank;
    forall b ensures LinkedAt(g'.heap, g'.log, g'.rank, b) {
      assert LinkedAt(g.heap, g.log, g.rank, b);
    }
    DoneStable(g, g');
  }

  // A node without successor is the last of the chain, and then `tail` points at it.
  lemma LastIsTail(g: Shared, a: Addr)
    requires Chain(g) && a in g.rank && g.heap[a].next.None?
    ensures g.rank[a] == |g.log| - 1
  {
    assert LinkedAt(g.heap, g.log, g.rank, a);
  }

  lemma LinkRanks(g: Shared, i: Tid, tail: Addr, node: Addr, m: Message)
    requires Chain(g) && OwnNode(g, i, m, node) && tail in g.rank
    ensures var g' := Link(g, i, tail, node, m);
            && (forall k :: 0 <= k < |g'.log| ==> g'.log[k] in g'.rank && g'.rank[g'.log[k]] == k)
            && (forall a :: a in g'.rank ==> g'.rank[a] < |g'.log| && g'.log[g'.rank[a]] == a)
  {
    var g' := Link(g, i, tail, node, m);
    forall k | 0 <= k < |g'.log| ensures g'.log[k] in g'.rank && g'.rank[g'.log[k]] == k {
      if k < |g.log| { assert g'.log[k] == g.log[k]; }
    }
    forall a | a in g'.rank ensures g'.rank[a] < |g'.log| && g'.log[g'.rank[a]] == a {
      if a != node { assert g'.rank[a] == g.rank[a]; }
    }
  }

  lemma LinkChain(g: Shared, i: Tid, tail: Addr, node: Addr, m: Message)
    requires Chain(g) && OwnNode(g, i, m, node)
    requires tail in g.rank && g.rank[tail] <= g.rank[g.tail] && g.heap[tail].next.None?
    ensures var g' := Link(g, i, tail, node, m);
            Chain(g') && NodesEvolve(g, g', i) && Follows(g', tail, node)
  {
    LastIsTail(g, tail);
    LinkRanks(g, i, tail, node, m);
    var g' := Link(g, i, tail, node, m);
    forall a ensures LinkedAt(g'.heap, g'.log, g'.rank, a) {
      if a in g.rank && a != node {
        assert LinkedAt(g.heap, g.log, g.rank, a);
        if a != tail { assert g.rank[a] != g.rank[tail]; }
      }
    }
  }

  lemma LinkHistory(g: Shared, i: Tid, tail: Addr, node: Addr, m: Message)
    requires Chain(g) && History(g) && tail in g.heap
    requires var g' := Link(g, i, tail, node, m); Chain(g') && g'.rank[g'.head] == g.rank[g.head]
    ensures History(Link(g, i, tail, node, m))
  {
    var g' := Link(g, i, tail, node, m);
    ReplayStable(g.ops, g'.ops, |g.ops|);
    assert g'.vals[g.rank[g.head] + 1..] == g.vals[g.rank[g.head] + 1..] + [m];
    assert g'.vals[1..] == g.vals[1..] + [m];
  }

  lemma LinkOk(g: Shared, i: Tid, tail: Addr, node: Addr, m: Message)
    requires SharedInv(g) && OwnNode(g, i, m, node)
    requires tail in g.rank && g.rank[tail] <= g.rank[g.tail] && g.heap[tail].next.None?
    ensures var g' := Link(g, i, tail, node, m);
            SharedInv(g') && Evolves(g, g', i) && Follows(g', tail, node)
  {
    LinkChain(g, i, tail, node, m);
    LinkEvolves(g, i, tail, node, m);
    LinkHistory(g, i, tail, node, m);
    DoneStable(g, Link(g, i, tail, node, m));
  }

  lemma LinkEvolves(g: Shared, i: Tid, tail: Addr, node: Addr, m: Message)
    requires Chain(g) && node !in g.rank && tail in g.heap
    requires NodesEvolve(g, Link(g, i, tail, node, m), i)
    ensures Evolves(g, Link(g, i, tail, node, m), i)
  {}

  lemma SwingOk(g: Shared, i: Tid, expected: Addr, a: Addr, spurious: bool)
    requires SharedInv(g) && Follows(g, expected, a)
    ensures var g' := SwingTail(g, expected, a, spurious);
            SharedInv(g') && Evolves(g, g', i) && g'.ops == g.ops &&
            (g.tail == expected && !spurious ==> Progress(g) < Progress(g'))
  {
    DoneStable(g, SwingTail(g, expected, a, spurious));
  }

  lemma TakeHistory(g: Shared, i: Tid, a: Addr, m: Message)
    requires Chain(g) && History(g) && Follows(g, g.head, a) && g.vals[g.rank[a]] == m
    requires Chain(TakeHead(g, i, a, m))
    ensures History(TakeHead(g, i, a, m))
  {
    var g' := TakeHead(g, i, a, m);
    ReplayStable(g.ops, g'.ops, |g.ops|);
    assert Contents(g)[0] == m && Contents(g') == Contents(g)[1..];
  }

  lemma TakeOk(g: Shared, i: Tid, a: Addr, m: Message)
    requires SharedInv(g) && Follows(g, g.head, a) && g.vals[g.rank[a]] == m
    requires g.rank[g.head] < g.rank[g.tail]
    ensures var g' := TakeHead(g, i, a, m);
            SharedInv(g') && Evolves(g, g', i) && Rank(g', g'.head) == Rank(g, g.head) + 1
  {
    TakeHistory(g, i, a, m);
    DoneStable(g, TakeHead(g, i, a, m));
  }

  // Counting and freeing touch nothing that the chain or the history speaks of.
  lemma BookkeepingOk(g: Shared, i: Tid, size: int, freed: multiset<Addr>)
    requires SharedInv(g)
    ensures var g' := g.(size := size, freed := freed); SharedInv(g') && Evolves(g, g', i)
  {
    DoneStable(g, g.(size := size, freed := freed));
  }

  ghost predicate StepKeeps(g: Shared, i: Tid, next: (Shared, Thread)) {
    SharedInv(next.0) && Evolves(g, next.0, i) && ThreadInv(next.0, i, next.1)
  }

  // Returning: the last bookkeeping of the call, and the record of what it did.
  lemma FinishOk(g: Shared, i: Tid, th: Thread, size: int, freed: multiset<Addr>, r: Result)
    requires SharedInv(g) && th.retries <= Progress(g)
    requires CompletedOk(g, Completed(i, th.call, th.start, |g.ops|, r))
    ensures StepKeeps(g, i, Finish(g.(size := size, freed := freed), i, th, r))
  {
    var (g', th') := Finish(g.(size := size, freed := freed), i, th, r);
    assert DoneOk(g') by {
      forall k | 0 <= k < |g'.done| ensures CompletedOk(g', g'.done[k]) {
        CompletedStable(g, g', g'.done[k]);
      }
    }
  }

  // ---------- the steps ----------

  lemma IdleStep(g: Shared, i: Tid, th: Thread, c: Choice)
    requires SharedInv(g) && ThreadInv(g, i, th) && th.pc.Idle?
    requires c.alloc.Some? ==> c.alloc.value !in g.heap
    ensures StepKeeps(g, i, ActIdle(g, i, th, c))
  {
    var begun := th.(call := c.call, start := |g.ops|);
    match c.call
    case CallPush(m) =>
      if c.alloc.None? { FinishOk(g, i, begun, g.size, g.freed, PushFailed); }
      else { PushBegins(g, i, th, c); }
    case CallPop =>
    case CallShow =>
      if c.alloc.None? { FinishOk(g, i, begun, g.size, g.freed, ShowFailed); }
  }

  lemma PushBegins(g: Shared, i: Tid, th: Thread, c: Choice)
    requires SharedInv(g) && ThreadInv(g, i, th) && th.pc.Idle?
    requires c.call.CallPush? && c.alloc.Some? && c.alloc.value !in g.heap
    ensures StepKeeps(g, i, ActIdle(g, i, th, c))
  {
    AllocOk(g, i, c.alloc.value, c.call.msg);
  }

  // Steps that only read: the shared state is unchanged, and what is learnt is true.
  lemma PushTailStep(g: Shared, i: Tid, th: Thread, c: Choice)
    requires SharedInv(g) && ThreadInv(g, i, th) && th.pc.PushLoadTail?
    ensures ActPush(g, i, th, c).0 == g && ThreadInv(g, i, ActPush(g, i, th, c).1)
  {}

  lemma PushNextStep(g: Shared, i: Tid, th: Thread, c: Choice)
    requires SharedInv(g) && ThreadInv(g, i, th) && th.pc.PushLoadNext?
    ensures ActPush(g, i, th, c).0 == g && ThreadInv(g, i, ActPush(g, i, th, c).1)
  {
    assert LinkedAt(g.heap, g.log, g.rank, th.pc.tail);
  }

  lemma PushRecheckStep(g: Shared, i: Tid, th: Thread, c: Choice)
    requires SharedInv(g) && ThreadInv(g, i, th) && th.pc.PushRecheck?
    ensures ActPush(g, i, th, c).0 == g && ThreadInv(g, i, ActPush(g, i, th, c).1)
  {}

  lemma PushHelpStep(g: Shared, i: Tid, th: Thread, c: Choice)
    requires SharedInv(g) && ThreadInv(g, i, th) && th.pc.PushHelp?
    ensures StepKeeps(g, i, ActPush(g, i, th, c))
  {
    SwingOk(g, i, th.pc.tail, th.pc.succ, c.spurious);
    assert OwnNode(g, i, th.pc.msg, th.pc.node);
  }

  lemma PushLinkedStep(g: Shared, i: Tid, th: Thread, c: Choice)
    requires SharedInv(g) && ThreadInv(g, i, th) && th.pc.PushLink?
    requires g.heap[th.pc.tail].next.None? && !c.spurious
    ensures StepKeeps(g, i, ActPush(g, i, th, c))
  {
    LinkOk(g, i, th.pc.tail, th.pc.node, th.pc.msg);
    MineAppends(i, g.ops, Push(i, th.pc.msg), th.start);
    LinkedThread(Link(g, i, th.pc.tail, th.pc.node, th.pc.msg), i, th);
  }

  lemma LinkedThread(g: Shared, i: Tid, th: Thread)
    requires th.pc.PushLink? && Follows(g, th.pc.tail, th.pc.node)
    requires th.retries <= Progress(g) && th.start <= |g.ops|
    requires Mine(i, g.ops, th.start, |g.ops|) == [Push(i, th.pc.msg)]
    ensures ThreadInv(g, i, th.(pc := PushSwing(th.pc.msg, th.pc.node, th.pc.tail)))
  {}

  lemma PushLinkFails(g: Shared, i: Tid, th: Thread, c: Choice)
    requires SharedInv(g) && ThreadInv(g, i, th) && th.pc.PushLink?
    requires g.heap[th.pc.tail].next.Some? || c.spurious
    ensures ActPush(g, i, th, c).0 == g && ThreadInv(g, i, ActPush(g, i, th, c).1)
  {}

  lemma PushSwingStep(g: Shared, i: Tid, th: Thread, c: Choice)
    requires SharedInv(g) && ThreadInv(g, i, th) && th.pc.PushSwing?
    ensures StepKeeps(g, i, ActPush(g, i, th, c))
  {
    SwingOk(g, i, th.pc.tail, th.pc.node, c.spurious);
  }

  lemma PushCountStep(g: Shared, i: Tid, th: Thread, c: Choice)
    requires SharedInv(g) && ThreadInv(g, i, th) && th.pc.PushCount?
    ensures StepKeeps(g, i, ActPush(g, i, th, c))
  {
    if g.size < g.cap { FinishOk(g, i, th, g.size + 1, g.freed, Pushed(th.pc.msg)); }
    else { PushEvictStep(g, i, th, c); }
  }

  // The queue was full: the push goes on as an evictor.
  lemma PushEvictStep(g: Shared, i: Tid, th: Thread, c: Choice)
    requires SharedInv(g) && ThreadInv(g, i, th) && th.pc.PushCount? && g.size >= g.cap
    ensures StepKeeps(g, i, ActPush(g, i, th, c))
  {
    BookkeepingOk(g, i, g.size + 1, g.freed);
  }

  predicate PopReads(pc: Pc) {
    pc.PopLoadHead? || pc.PopLoadTail?
  }

  lemma PopReadStep(g: Shared, i: Tid, th: Thread, c: Choice)
    requires SharedInv(g) && ThreadInv(g, i, th) && PopReads(th.pc)
    ensures ActPop(g, i, th, c).0 == g && ThreadInv(g, i, ActPop(g, i, th, c).1)
  {}

  // A NULL successor of the loaded head means that the queue is empty at this very moment.
  lemma PopNextStep(g: Shared, i: Tid, th: Thread, c: Choice)
    requires SharedInv(g) && ThreadInv(g, i, th) && th.pc.PopLoadNext?
    ensures ActPop(g, i, th, c).0 == g && ThreadInv(g, i, ActPop(g, i, th, c).1)
    ensures g.heap[th.pc.head].next.None? ==> Len(g) == 0
  {
    var head := th.pc.head;
    assert LinkedAt(g.heap, g.log, g.rank, head);
    if g.heap[head].next.None? {
      assert Contents(g) == [] && head == th.pc.tail;
    }
  }

  lemma PopMessageStep(g: Shared, i: Tid, th: Thread, c: Choice)
    requires SharedInv(g) && ThreadInv(g, i, th) && th.pc.PopRead?
    ensures ActPop(g, i, th, c).0 == g && ThreadInv(g, i, ActPop(g, i, th, c).1)
  {
    assert g.heap[th.pc.next.value].msg == g.vals[g.rank[th.pc.next.value]];
  }

  predicate FoundEmpty(g: Shared, pc: Pc) {
    pc.PopRecheck? && pc.head == g.head && pc.head == pc.tail && pc.next.None?
  }

  lemma PopRecheckStep(g: Shared, i: Tid, th: Thread, c: Choice)
    requires SharedInv(g) && ThreadInv(g, i, th) && th.pc.PopRecheck? && !FoundEmpty(g, th.pc)
    ensures ActPop(g, i, th, c).0 == g && ThreadInv(g, i, ActPop(g, i, th, c).1)
  {
    var th' := ActPop(g, i, th, c).1;
    assert PopInv(g, th') && Clock(g, th');
  }

  lemma PopEmptyStep(g: Shared, i: Tid, th: Thread, c: Choice)
    requires SharedInv(g) && ThreadInv(g, i, th) && FoundEmpty(g, th.pc)
    ensures StepKeeps(g, i, ActPop(g, i, th, c))
  {
    FinishOk(g, i, th, g.size, g.freed,
             match th.pc.why case Caller => PopEmpty(th.at) case Evict(m) => PushedMissing(m, th.at, th.full));
  }

  lemma PopHelpStep(g: Shared, i: Tid, th: Thread, c: Choice)
    requires SharedInv(g) && ThreadInv(g, i, th) && th.pc.PopHelp?
    ensures StepKeeps(g, i, ActPop(g, i, th, c))
  {
    SwingOk(g, i, th.pc.tail, th.pc.succ, c.spurious);
  }

  lemma PopTakenStep(g: Shared, i: Tid, th: Thread, c: Choice)
    requires SharedInv(g) && ThreadInv(g, i, th) && th.pc.PopSwing? && g.head == th.pc.head && !c.spurious
    ensures StepKeeps(g, i, ActPop(g, i, th, c))
  {
    TakeOk(g, i, th.pc.succ, th.pc.out);
    MineAppends(i, g.ops, Pop(i, th.pc.out), th.start);
  }

  lemma PopSwingFails(g: Shared, i: Tid, th: Thread, c: Choice)
    requires SharedInv(g) && ThreadInv(g, i, th) && th.pc.PopSwing? && (g.head != th.pc.head || c.spurious)
    ensures ActPop(g, i, th, c).0 == g && ThreadInv(g, i, ActPop(g, i, th, c).1)
  {}

  lemma PopCountStep(g: Shared, i: Tid, th: Thread, c: Choice)
    requires SharedInv(g) && ThreadInv(g, i, th) && th.pc.PopCount?
    ensures StepKeeps(g, i, ActPop(g, i, th, c))
  {
    BookkeepingOk(g, i, g.size - 1, g.freed);
  }

  lemma PopFreeStep(g: Shared, i: Tid, th: Thread, c: Choice)
    requires SharedInv(g) && ThreadInv(g, i, th) && th.pc.PopFree?
    ensures StepKeeps(g, i, ActPop(g, i, th, c))
  {
    FinishOk(g, i, th, g.size, g.freed + multiset{th.pc.head},
             match th.pc.why case Caller => Popped(th.pc.out) case Evict(m) => PushedEvicting(m, th.pc.out, th.full));
  }

  predicate ShowReads(g: Shared, pc: Pc) {
    pc.ShowWalk? && pc.current.Some? && |pc.got| < g.cap
  }

  lemma ShowLoadStep(g: Shared, i: Tid, th: Thread)
    requires SharedInv(g) && ThreadInv(g, i, th) && th.pc.ShowLoadHead?
    ensures ActShow(g, i, th).0 == g && ThreadInv(g, i, ActShow(g, i, th).1)
  {
    assert g.vals[g.rank[g.head] + 1..|g.log|] == Contents(g);
  }

  lemma ShowFirstStep(g: Shared, i: Tid, th: Thread)
    requires SharedInv(g) && ThreadInv(g, i, th) && th.pc.ShowLoadFirst?
    ensures ActShow(g, i, th).0 == g && ThreadInv(g, i, ActShow(g, i, th).1)
  {
    assert LinkedAt(g.heap, g.log, g.rank, th.pc.head);
  }

  lemma ShowReadStep(g: Shared, i: Tid, th: Thread)
    requires SharedInv(g) && ThreadInv(g, i, th) && ShowReads(g, th.pc)
    ensures ActShow(g, i, th).0 == g && ThreadInv(g, i, ActShow(g, i, th).1)
  {
    var (a, got, first) := (th.pc.current.value, th.pc.got, th.from + 1);
    assert LinkedAt(g.heap, g.log, g.rank, a);
    assert g.heap[a].msg == g.vals[g.rank[a]];
    assert got + [g.heap[a].msg] == g.vals[first..first + |got| + 1];
  }

  lemma ShowEndStep(g: Shared, i: Tid, th: Thread)
    requires SharedInv(g) && ThreadInv(g, i, th) && th.pc.ShowWalk? && !ShowReads(g, th.pc)
    ensures StepKeeps(g, i, ActShow(g, i, th))
  {
    var got := th.pc.got;
    assert Pushes(g.ops, |g.ops|)[th.from..th.from + |got|] == got;
    FinishOk(g, i, th, g.size, g.freed, Shown(th.at, th.from, th.until, got));
  }

  lemma PushStep(g: Shared, i: Tid, th: Thread, c: Choice)
    requires SharedInv(g) && ThreadInv(g, i, th) && InPush(th.pc)
    ensures StepKeeps(g, i, ActPush(g, i, th, c))
  {
    if th.pc.PushLoadTail? { PushTailStep(g, i, th, c); }
    else if th.pc.PushLoadNext? { PushNextStep(g, i, th, c); }
    else if th.pc.PushRecheck? { PushRecheckStep(g, i, th, c); }
    else if th.pc.PushHelp? { PushHelpStep(g, i, th, c); }
    else if th.pc.PushLink? {
      if g.heap[th.pc.tail].next.None? && !c.spurious { PushLinkedStep(g, i, th, c); }
      else { PushLinkFails(g, i, th, c); }
    }
    else if th.pc.PushSwing? { PushSwingStep(g, i, th, c); }
    else { PushCountStep(g, i, th, c); }
  }

  lemma PopStep(g: Shared, i: Tid, th: Thread, c: Choice)
    requires SharedInv(g) && ThreadInv(g, i, th) && InPop(th.pc)
    ensures StepKeeps(g, i, ActPop(g, i, th, c))
  {
    if PopReads(th.pc) { PopReadStep(g, i, th, c); }
    else if th.pc.PopLoadNext? { PopNextStep(g, i, th, c); }
    else if th.pc.PopRead? { PopMessageStep(g, i, th, c); }
    else if FoundEmpty(g, th.pc) { PopEmptyStep(g, i, th, c); }
    else if th.pc.PopRecheck? { PopRecheckStep(g, i, th, c); }
    else if th.pc.PopHelp? { PopHelpStep(g, i, th, c); }
    else if th.pc.PopSwing? {
      if g.head == th.pc.head && !c.spurious { PopTakenStep(g, i, th, c); }
      else { PopSwingFails(g, i, th, c); }
    }
    else if th.pc.PopCount? { PopCountStep(g, i, th, c); }
    else { PopFreeStep(g, i, th, c); }
  }

  lemma ShowStep(g: Shared, i: Tid, th: Thread)
    requires SharedInv(g) && ThreadInv(g, i, th) && !th.pc.Idle? && !InPush(th.pc) && !InPop(th.pc)
    ensures StepKeeps(g, i, ActShow(g, i, th))
  {
    if th.pc.ShowLoadHead? { ShowLoadStep(g, i, th); }
    else if th.pc.ShowLoadFirst? { ShowFirstStep(g, i, th); }
    else if ShowReads(g, th.pc) { ShowReadStep(g, i, th); }
    else { ShowEndStep(g, i, th); }
  }

  lemma ActOk(g: Shared, i: Tid, th: Thread, c: Choice)
    requires SharedInv(g) && ThreadInv(g, i, th)
    requires c.alloc.Some? ==> c.alloc.value !in g.heap
    ensures StepKeeps(g, i, Act(g, i, th, c))
  {
    if th.pc.Idle? { IdleStep(g, i, th, c); }
    else if InPush(th.pc) { PushStep(g, i, th, c); }
    else if InPop(th.pc) { PopStep(g, i, th, c); }
    else { ShowStep(g, i, th); }
  }
}
