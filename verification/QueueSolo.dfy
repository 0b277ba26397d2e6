/** A thread that runs alone, without spurious failures, finishes its call in a bounded number
    of its own steps, from any reachable state the others may have stopped in. */
module QueueSolo {
  import opened Options
  import opened QueueMachine
  import opened QueueInvariant
  import opened QueueAccounts
  import opened QueueTheorems

  const CALM: Choice := Choice(CallPop, None, false)

  // The longest push or pop that runs alone: one stale iteration, one that helps, one that
  // takes effect, and an eviction.
  const MOST: nat := 25

  function SoloRun(s: State, i: Tid, steps: nat): (r: State)
    requires i < |s.threads|
    ensures |r.threads| == |s.threads|
    decreases steps
  {
    if steps == 0 || s.threads[i].pc.Idle? then s else SoloRun(Step(s, i, CALM), i, steps - 1)
  }

  // ---------- how many steps are left, at most ----------

  // A pop at the top of its loop: empty queue, lagging tail, or straight.
  function PopTop(g: Shared): nat {
    if g.head != g.tail then 8 else if Len(g) == 0 then 4 else 13
  }

  function PopLeft(g: Shared, pc: Pc): nat {
    match pc
    case PopLoadHead(_) => PopTop(g)
    case PopLoadTail(_, head) => if head == g.head then PopTop(g) - 1 else 3 + PopTop(g)
    case PopLoadNext(_, head, tail) =>
      if head != g.head then 2 + PopTop(g)
      else if tail == g.tail then PopTop(g) - 2
      else if head == tail then 11 else 6
    case PopRecheck(_, head, tail, next) =>
      if head != g.head then 1 + PopTop(g)
      else if head != tail then 5
      else if next.Some? then 10 else 1
    case PopHelp(_, tail, _) => if tail == g.tail then 9 else 1 + PopTop(g)
    case PopRead(_, head, _) => if head == g.head then 4 else 2 + PopTop(g)
    case PopSwing(_, head, _, _) => if head == g.head then 3 else 1 + PopTop(g)
    case PopCount(_, _, _) => 2
    case PopFree(_, _, _) => 1
    case _ => 0
  }

  // A push at the top of its loop, with the tail at the last node or one behind it.
  function PushTop(g: Shared): nat {
    if |g.log| - 1 == Rank(g, g.tail) then 19 else 23
  }

  function PushLeft(g: Shared, pc: Pc): nat {
    match pc
    case PushLoadTail(_, _) => PushTop(g)
    case PushLoadNext(_, _, tail) => if tail == g.tail then PushTop(g) - 1 else 2 + PushTop(g)
    case PushRecheck(_, _, tail, next) =>
      if tail != g.tail then 1 + PushTop(g)
      else if next.Some? then 21
      else if |g.log| - 1 == Rank(g, tail) then 17 else 2 + PushTop(g)
    case PushHelp(_, _, tail, _) => if tail == g.tail then 20 else 1 + PushTop(g)
    case PushLink(_, _, tail) => if |g.log| - 1 == Rank(g, tail) then 16 else 1 + PushTop(g)
    case PushSwing(_, _, _) => 15
    case PushCount(_) => 14
    case _ => 0
  }

  function ShowLeft(g: Shared, pc: Pc): nat {
    match pc
    case ShowLoadHead => g.cap + 3
    case ShowLoadFirst(_) => g.cap + 2
    case ShowWalk(_, got) => if |got| <= g.cap then g.cap - |got| + 1 else 1
    case _ => 0
  }

  function StepsLeft(g: Shared, pc: Pc): nat {
    if InPush(pc) then PushLeft(g, pc) else if InPop(pc) then PopLeft(g, pc) else ShowLeft(g, pc)
  }

  // ---------- each calm step uses one up ----------

  ghost predicate Nearer(g: Shared, th: Thread, next: (Shared, Thread)) {
    next.1.pc.Idle? || StepsLeft(next.0, next.1.pc) < StepsLeft(g, th.pc)
  }

  lemma PushEarlyNearer(g: Shared, i: Tid, th: Thread)
    requires SharedInv(g) && ThreadInv(g, i, th)
    requires th.pc.PushLoadTail? || th.pc.PushLoadNext? || th.pc.PushRecheck?
    ensures Nearer(g, th, ActPush(g, i, th, CALM))
  {
    if th.pc.PushLoadNext? || th.pc.PushRecheck? { assert LinkedAt(g.heap, g.log, g.rank, th.pc.tail); }
  }

  lemma PushLateNearer(g: Shared, i: Tid, th: Thread)
    requires SharedInv(g) && ThreadInv(g, i, th)
    requires th.pc.PushHelp? || th.pc.PushLink? || th.pc.PushSwing? || th.pc.PushCount?
    ensures Nearer(g, th, ActPush(g, i, th, CALM))
  {
    if th.pc.PushLink? { assert LinkedAt(g.heap, g.log, g.rank, th.pc.tail); }
  }

  lemma PopEarlyNearer(g: Shared, i: Tid, th: Thread)
    requires SharedInv(g) && ThreadInv(g, i, th)
    requires th.pc.PopLoadHead? || th.pc.PopLoadTail? || th.pc.PopLoadNext? || th.pc.PopRecheck?
    ensures Nearer(g, th, ActPop(g, i, th, CALM))
  {
    if th.pc.PopLoadNext? { assert LinkedAt(g.heap, g.log, g.rank, th.pc.head); }
  }

  lemma PopLateNearer(g: Shared, i: Tid, th: Thread)
    requires SharedInv(g) && ThreadInv(g, i, th)
    requires th.pc.PopHelp? || th.pc.PopRead? || th.pc.PopSwing? || th.pc.PopCount? || th.pc.PopFree?
    ensures Nearer(g, th, ActPop(g, i, th, CALM))
  {}

  lemma ShowNearer(g: Shared, i: Tid, th: Thread)
    requires SharedInv(g) && ThreadInv(g, i, th) && !th.pc.Idle? && !InPush(th.pc) && !InPop(th.pc)
    ensures Nearer(g, th, ActShow(g, i, th))
  {}

  lemma ActNearer(g: Shared, i: Tid, th: Thread)
    requires SharedInv(g) && ThreadInv(g, i, th) && !th.pc.Idle?
    ensures Nearer(g, th, Act(g, i, th, CALM))
  {
    if th.pc.PushLoadTail? || th.pc.PushLoadNext? || th.pc.PushRecheck? { PushEarlyNearer(g, i, th); }
    else if InPush(th.pc) { PushLateNearer(g, i, th); }
    else if th.pc.PopLoadHead? || th.pc.PopLoadTail? || th.pc.PopLoadNext? || th.pc.PopRecheck? {
      PopEarlyNearer(g, i, th);
    }
    else if InPop(th.pc) { PopLateNearer(g, i, th); }
    else { ShowNearer(g, i, th); }
  }

  // Outside a call there is nothing left, inside one there is.
  lemma NeverDone(g: Shared, i: Tid, th: Thread)
    requires ThreadInv(g, i, th) && !th.pc.Idle?
    ensures StepsLeft(g, th.pc) > 0
  {}

  lemma SoloNearer(s: State, i: Tid)
    requires SharedInv(s.g) && ThreadsInv(s) && i < |s.threads| && !s.threads[i].pc.Idle?
    ensures var s' := Step(s, i, CALM);
            && SharedInv(s'.g) && ThreadsInv(s')
            && StepsLeft(s.g, s.threads[i].pc) > 0
            && (s'.threads[i].pc.Idle? || StepsLeft(s'.g, s'.threads[i].pc) < StepsLeft(s.g, s.threads[i].pc))
  {
    assert ThreadInv(s.g, i, s.threads[i]);
    ActNearer(s.g, i, s.threads[i]);
    NeverDone(s.g, i, s.threads[i]);
    ThreadsKept(s, i, CALM);
  }

  lemma {:induction false} SoloFinishes(s: State, i: Tid, steps: nat)
    requires SharedInv(s.g) && ThreadsInv(s)
    requires i < |s.threads| && StepsLeft(s.g, s.threads[i].pc) <= steps
    ensures SoloRun(s, i, steps).threads[i].pc.Idle?
    decreases steps
  {
    if !s.threads[i].pc.Idle? {
      SoloNearer(s, i);
      var s' := Step(s, i, CALM);
      if s'.threads[i].pc.Idle? {
        assert SoloRun(s', i, steps - 1) == s';
      } else {
        SoloFinishes(s', i, steps - 1);
      }
    }
  }

  lemma FewSteps(g: Shared, i: Tid, th: Thread)
    requires ThreadInv(g, i, th)
    ensures StepsLeft(g, th.pc) <= MOST + g.cap
    ensures !InShow(th.pc) ==> StepsLeft(g, th.pc) <= MOST
  {}

  predicate InShow(pc: Pc) {
    pc.ShowLoadHead? || pc.ShowLoadFirst? || pc.ShowWalk?
  }

  // A lone push or pop returns within 25 steps, a lone traversal within its capacity and 25.
  lemma LoneThreadFinishes(s: State, n: nat, cap: nat, i: Tid)
    requires Reachable(s, n, cap) && i < |s.threads|
    ensures !InShow(s.threads[i].pc) ==> SoloRun(s, i, MOST).threads[i].pc.Idle?
    ensures SoloRun(s, i, MOST + cap).threads[i].pc.Idle?
  {
    ReachableInv(s, n, cap);
    assert ThreadInv(s.g, i, s.threads[i]);
    FewSteps(s.g, i, s.threads[i]);
    if !InShow(s.threads[i].pc) { SoloFinishes(s, i, MOST); }
    SoloFinishes(s, i, MOST + cap);
  }
}
