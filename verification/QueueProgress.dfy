/** Lock-freedom of the queue: the steps of any run are bounded by the calls that returned and the
    number of threads, spurious failures apart. So while threads keep taking steps, calls keep
    returning. */
module QueueProgress {
  import opened Messages
  import opened QueueMachine
  import opened QueueInvariant
  import opened QueueAccounts
  import opened QueueTheorems

  // The steps that were taken, and those in which a compare-and-swap may have failed spuriously.
  function Taken(s: State, schedule: Schedule): nat {
    if schedule == [] then 0
    else
      var before, last := schedule[..|schedule| - 1], schedule[|schedule| - 1];
      Taken(s, before) + if Enabled(Run(s, before), last.0, last.1) then 1 else 0
  }

  function Spurious(schedule: Schedule): nat {
    if schedule == [] then 0
    else Spurious(schedule[..|schedule| - 1]) + if schedule[|schedule| - 1].1.spurious then 1 else 0
  }

  // The longest loop iteration, and the longest straight way through a call.
  const ITERATION: nat := 6

  function Longest(cap: nat): nat { cap + 16 }

  // The steps of a call that led here, not counting iterations that were repeated.
  function PopBase(why: Why): nat { if why.Caller? then 1 else 7 }

  function Steps(th: Thread): nat {
    match th.pc
    case Idle => 0
    case Fault => 0
    case PushLoadTail(_, _) => 1
    case PushLoadNext(_, _, _) => 2
    case PushRecheck(_, _, _, _) => 3
    case PushHelp(_, _, _, _) => 4
    case PushLink(_, _, _) => 4
    case PushSwing(_, _, _) => 5
    case PushCount(_) => 6
    case PopLoadHead(why) => PopBase(why)
    case PopLoadTail(why, _) => PopBase(why) + 1
    case PopLoadNext(why, _, _) => PopBase(why) + 2
    case PopRecheck(why, _, _, _) => PopBase(why) + 3
    case PopHelp(why, _, _) => PopBase(why) + 4
    case PopRead(why, _, _) => PopBase(why) + 4
    case PopSwing(why, _, _, _) => PopBase(why) + 5
    case PopCount(why, _, _) => PopBase(why) + 6
    case PopFree(why, _, _) => PopBase(why) + 7
    case ShowLoadHead => 1
    case ShowLoadFirst(_) => 2
    case ShowWalk(_, got) => 3 + |got|
  }

  // A thread that has linked an entry and not returned yet.
  function Linked(th: Thread): nat {
    if th.pc.PushSwing? || th.pc.PushCount? || (InPop(th.pc) && th.pc.why.Evict?) then 1 else 0
  }

  // ---------- one step ----------

  // It is paid for by the call that returns, by a retry, by a spurious failure, or it leads on.
  ghost predicate Pays(g: Shared, th: Thread, next: (Shared, Thread), spurious: bool) {
    1 + Longest(g.cap) * |g.done| + ITERATION * th.retries + Steps(th) <=
    Longest(g.cap) * |next.0.done| + ITERATION * next.1.retries + Steps(next.1) + if spurious then ITERATION else 0
  }

  lemma OneCallMore(cap: nat, n: nat)
    ensures Longest(cap) * (n + 1) == Longest(cap) * n + Longest(cap)
  {}

  lemma IdlePays(g: Shared, i: Tid, th: Thread, c: Choice)
    requires th.pc.Idle?
    ensures Pays(g, th, ActIdle(g, i, th, c), c.spurious)
  {
    OneCallMore(g.cap, |g.done|);
  }

  lemma PushPays(g: Shared, i: Tid, th: Thread, c: Choice)
    requires InPush(th.pc) && !ActPush(g, i, th, c).1.pc.Fault?
    ensures Pays(g, th, ActPush(g, i, th, c), c.spurious)
  {
    OneCallMore(g.cap, |g.done|);
  }

  lemma PopPays(g: Shared, i: Tid, th: Thread, c: Choice)
    requires InPop(th.pc) && !ActPop(g, i, th, c).1.pc.Fault?
    ensures Pays(g, th, ActPop(g, i, th, c), c.spurious)
  {
    OneCallMore(g.cap, |g.done|);
  }

  lemma ShowPays(g: Shared, i: Tid, th: Thread, spurious: bool)
    requires th.pc.ShowLoadHead? || th.pc.ShowLoadFirst? || (th.pc.ShowWalk? && |th.pc.got| <= g.cap)
    requires !ActShow(g, i, th).1.pc.Fault?
    ensures Pays(g, th, ActShow(g, i, th), spurious)
  {
    OneCallMore(g.cap, |g.done|);
  }

  lemma ActPays(g: Shared, i: Tid, th: Thread, c: Choice)
    requires ThreadInv(g, i, th) && !Act(g, i, th, c).1.pc.Fault?
    ensures Pays(g, th, Act(g, i, th, c), c.spurious)
  {
    if th.pc.Idle? { IdlePays(g, i, th, c); }
    else if InPush(th.pc) { PushPays(g, i, th, c); }
    else if InPop(th.pc) { PopPays(g, i, th, c); }
    else { ShowPays(g, i, th, c.spurious); }
  }

  // A link is accounted for by the thread that made it, and then by the call that returned.
  ghost predicate LinksKept(g: Shared, th: Thread, next: (Shared, Thread)) {
    |Pushes(next.0.ops, |next.0.ops|)| + |g.done| + Linked(th) <=
    |Pushes(g.ops, |g.ops|)| + |next.0.done| + Linked(next.1)
  }

  lemma PushesAppend(ops: seq<Op>, op: Op)
    ensures |Pushes(ops + [op], |ops| + 1)| == |Pushes(ops, |ops|)| + if op.Push? then 1 else 0
  {
    ReplayStable(ops, ops + [op], |ops|);
  }

  lemma PushLinks(g: Shared, i: Tid, th: Thread, c: Choice)
    requires InPush(th.pc)
    ensures LinksKept(g, th, ActPush(g, i, th, c))
  {
    PushesAppend(g.ops, Push(i, th.pc.msg));
  }

  lemma PopLinks(g: Shared, i: Tid, th: Thread, c: Choice)
    requires InPop(th.pc) && !ActPop(g, i, th, c).1.pc.Fault?
    ensures LinksKept(g, th, ActPop(g, i, th, c))
  {
    if th.pc.PopSwing? { PushesAppend(g.ops, Pop(i, th.pc.out)); }
  }

  lemma ActLinks(g: Shared, i: Tid, th: Thread, c: Choice)
    requires !th.pc.Fault? && !Act(g, i, th, c).1.pc.Fault?
    ensures LinksKept(g, th, Act(g, i, th, c))
  {
    if InPush(th.pc) { PushLinks(g, i, th, c); }
    else if InPop(th.pc) { PopLinks(g, i, th, c); }
  }

  // ---------- every run ----------

  // What `taken` steps so far, `spurious` of them failures, are paid from.
  ghost predicate Paid(s: State, taken: nat, spurious: nat) {
    taken <= Longest(s.g.cap) * |s.g.done| + ITERATION * Sum(s.threads, Retries) + Sum(s.threads, Steps) +
             ITERATION * spurious
  }

  ghost predicate LinksInv(s: State) {
    |Pushes(s.g.ops, |s.g.ops|)| <= |s.g.done| + Sum(s.threads, Linked)
  }

  lemma StepPaid(s: State, i: Tid, c: Choice, taken: nat, spurious: nat)
    requires Enabled(s, i, c) && Paid(s, taken, spurious)
    requires Pays(s.g, s.threads[i], Act(s.g, i, s.threads[i], c), c.spurious)
    requires Step(s, i, c).g.cap == s.g.cap
    ensures Paid(Step(s, i, c), taken + 1, spurious + if c.spurious then 1 else 0)
  {
    var th' := Act(s.g, i, s.threads[i], c).1;
    SumUpdate(s.threads, i, th', Retries);
    SumUpdate(s.threads, i, th', Steps);
  }

  lemma StepLinks(s: State, i: Tid, c: Choice)
    requires Enabled(s, i, c) && LinksInv(s)
    requires LinksKept(s.g, s.threads[i], Act(s.g, i, s.threads[i], c))
    ensures LinksInv(Step(s, i, c))
  {
    SumUpdate(s.threads, i, Act(s.g, i, s.threads[i], c).1, Linked);
  }

  lemma {:induction false} RunPaid(s: State, schedule: Schedule)
    requires Inv(s) && Paid(s, 0, 0) && LinksInv(s)
    ensures Paid(Run(s, schedule), Taken(s, schedule), Spurious(schedule)) && LinksInv(Run(s, schedule))
  {
    if schedule != [] {
      var (before, last) := (schedule[..|schedule| - 1], schedule[|schedule| - 1]);
      RunPaid(s, before);
      RunInv(s, before);
      if Enabled(Run(s, before), last.0, last.1) {
        TakenStep(Run(s, before), last.0, last.1, Taken(s, before), Spurious(before));
      }
    }
  }

  lemma TakenStep(s: State, i: Tid, c: Choice, taken: nat, spurious: nat)
    requires Inv(s) && Enabled(s, i, c) && Paid(s, taken, spurious) && LinksInv(s)
    ensures Paid(Step(s, i, c), taken + 1, spurious + if c.spurious then 1 else 0) && LinksInv(Step(s, i, c))
  {
    assert ThreadInv(s.g, i, s.threads[i]);
    NoFault(s.g, i, s.threads[i], c);
    ThreadsKept(s, i, c);
    ActPays(s.g, i, s.threads[i], c);
    ActLinks(s.g, i, s.threads[i], c);
    StepPaid(s, i, c, taken, spurious);
    StepLinks(s, i, c);
  }

  lemma Sums(s: State)
    requires ThreadsInv(s)
    ensures Sum(s.threads, Steps) <= |s.threads| * Longest(s.g.cap)
    ensures Sum(s.threads, Linked) <= |s.threads|
  {
    forall k | 0 <= k < |s.threads| ensures Steps(s.threads[k]) <= Longest(s.g.cap) {
      assert ThreadInv(s.g, k, s.threads[k]);
    }
    SumAtMost(s.threads, Steps, Longest(s.g.cap));
    SumAtMost(s.threads, Linked, 1);
  }

  // The steps that `n` threads can have taken when `d` calls have returned.
  function Budget(n: nat, cap: nat, d: nat): nat {
    Longest(cap) * (d + n) + ITERATION * (n * (1 + 3 * (d + n)))
  }

  lemma WithinBudget(n: nat, cap: nat, d: nat, pushed: nat, retries: nat, steps: nat)
    requires pushed <= d + n && retries <= n * (1 + 3 * pushed) && steps <= n * Longest(cap)
    ensures Longest(cap) * d + ITERATION * retries + steps <= Budget(n, cap, d)
  {
    assert n * (1 + 3 * pushed) <= n * (1 + 3 * (d + n));
    assert Longest(cap) * (d + n) == Longest(cap) * d + n * Longest(cap);
  }

  // The queue is lock-free: whatever the schedule, all threads together take no more steps than
  // the budget of the calls that have returned, and one loop iteration for each spurious failure.
  lemma LockFree(n: nat, cap: nat, dummy: Addr, junk: Message, schedule: Schedule)
    ensures var s := Init(n, cap, dummy, junk);
            Taken(s, schedule) <= Budget(n, cap, |Run(s, schedule).g.done|) + ITERATION * Spurious(schedule)
  {
    var s := Init(n, cap, dummy, junk);
    InitInv(n, cap, dummy, junk);
    RunPaid(s, schedule);
    RunInv(s, schedule);
    var s' := Run(s, schedule);
    Sums(s');
    var pushed := |Pushes(s'.g.ops, |s'.g.ops|)|;
    RetriesPaidByPushes(s', n, cap, 1 + 3 * pushed);
    WithinBudget(n, cap, |s'.g.done|, pushed, Sum(s'.threads, Retries), Sum(s'.threads, Steps));
  }
}
