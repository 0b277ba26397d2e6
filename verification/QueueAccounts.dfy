/** Counting over all threads: the size counter, the bound that eviction enforces, the nodes
    handed to `free`, and which call performed which operation of the history. */
module QueueAccounts {
  import opened Messages
  import opened QueueMachine
  import opened QueueCalls
  import opened QueueInvariant
  import opened QueueSteps

  // ---------- sums over threads ----------

  function Sum(ts: seq<Thread>, w: Thread -> nat): nat {
    if ts == [] then 0 else Sum(ts[..|ts| - 1], w) + w(ts[|ts| - 1])
  }

  lemma {:induction false} SumUpdate(ts: seq<Thread>, i: nat, th: Thread, w: Thread -> nat)
    requires i < |ts|
    ensures Sum(ts[i := th], w) + w(ts[i]) == Sum(ts, w) + w(th)
    ensures w(ts[i]) <= Sum(ts, w)
  {
    var n := |ts| - 1;
    if i < n {
      assert ts[i := th][..n] == ts[..n][i := th];
      SumUpdate(ts[..n], i, th, w);
    } else {
      assert ts[i := th][..n] == ts[..n];
    }
  }

  lemma {:induction false} SumBound(ts: seq<Thread>, w: Thread -> nat, v: Thread -> nat)
    requires forall th :: w(th) + v(th) <= 1
    ensures Sum(ts, w) + Sum(ts, v) <= |ts|
  {
    if ts != [] {
      SumBound(ts[..|ts| - 1], w, v);
    }
  }

  lemma {:induction false} SumZero(ts: seq<Thread>, w: Thread -> nat)
    requires forall k :: 0 <= k < |ts| ==> w(ts[k]) == 0
    ensures Sum(ts, w) == 0
  {
    if ts != [] {
      SumZero(ts[..|ts| - 1], w);
    }
  }

  lemma {:induction false} SumAtMost(ts: seq<Thread>, w: Thread -> nat, most: nat)
    requires forall k :: 0 <= k < |ts| ==> w(ts[k]) <= most
    ensures Sum(ts, w) <= |ts| * most
  {
    if ts != [] {
      SumAtMost(ts[..|ts| - 1], w, most);
      assert |ts| * most == (|ts| - 1) * most + most;
    }
  }

  // A push that is linked but not yet in the size counter.
  function Uncounted(th: Thread): nat {
    if th.pc.PushSwing? || th.pc.PushCount? then 1 else 0
  }

  // A pop that has moved the head but is still in the size counter.
  function Unsubtracted(th: Thread): nat {
    if th.pc.PopCount? then 1 else 0
  }

  // A push that found the queue full and still has to remove an entry.
  function Owing(th: Thread): nat {
    if InPop(th.pc) && !th.pc.PopCount? && !th.pc.PopFree? && th.owes then 1 else 0
  }

  // ---------- nodes on their way to `free` ----------

  // Whether a thread has unlinked the dummy `a` and has yet to free it.
  function Retiring(a: Addr): Thread -> nat {
    (th: Thread) => if (th.pc.PopCount? || th.pc.PopFree?) && th.pc.head == a then 1 else 0
  }

  // ---------- the operations claimed by finished calls ----------

  function Claimed(i: Tid, done: seq<Completed>): seq<Op> {
    if done == [] then []
    else
      var last := done[|done| - 1];
      Claimed(i, done[..|done| - 1]) + if last.tid == i then Effect(i, last.result) else []
  }

  // ---------- what holds over all threads ----------

  // A push that allocated a node and has not linked it.
  predicate Holds(pc: Pc, a: Addr) {
    (pc.PushLoadTail? || pc.PushLoadNext? || pc.PushRecheck? || pc.PushHelp? || pc.PushLink?) && pc.node == a
  }

  ghost predicate Owned(heap: map<Addr, Node>, rank: map<Addr, nat>, ts: seq<Thread>, a: Addr) {
    a in heap && a !in rank ==> heap[a].owner < |ts| && Holds(ts[heap[a].owner].pc, a)
  }

  ghost predicate SizeInv(s: State) {
    s.g.size == Len(s.g) - Sum(s.threads, Uncounted) + Sum(s.threads, Unsubtracted)
  }

  ghost predicate BoundInv(s: State) {
    Len(s.g) <= s.g.cap + Sum(s.threads, Uncounted) + Sum(s.threads, Owing)
  }

  // A node that left the chain is free, or one thread is about to free it; no other node is.
  ghost predicate Accounted(s: State, a: Addr) {
    s.g.freed[a] + Sum(s.threads, Retiring(a)) ==
    if a in s.g.rank && s.g.rank[a] < Rank(s.g, s.g.head) then 1 else 0
  }

  ghost predicate FreeInv(s: State) {
    && (forall a :: Accounted(s, a))
    && (forall a :: Owned(s.g.heap, s.g.rank, s.threads, a))
  }

  ghost predicate ClaimInv(s: State) {
    forall i :: 0 <= i < |s.threads| ==>
      Claimed(i, s.g.done) + SoFar(i, s.threads[i].pc) == Mine(i, s.g.ops, 0, |s.g.ops|)
  }

  ghost predicate ThreadsInv(s: State) {
    forall i :: 0 <= i < |s.threads| ==> ThreadInv(s.g, i, s.threads[i])
  }

  ghost predicate Inv(s: State) {
    SharedInv(s.g) && ThreadsInv(s) && SizeInv(s) && BoundInv(s) && FreeInv(s) && ClaimInv(s) && CallInv(s)
  }

  // ---------- each conjunct is kept ----------

  lemma ThreadsKept(s: State, i: Tid, c: Choice)
    requires SharedInv(s.g) && ThreadsInv(s) && Enabled(s, i, c)
    ensures SharedInv(Step(s, i, c).g) && ThreadsInv(Step(s, i, c)) && Evolves(s.g, Step(s, i, c).g, i)
  {
    var s' := Step(s, i, c);
    ActOk(s.g, i, s.threads[i], c);
    forall j | 0 <= j < |s'.threads| ensures ThreadInv(s'.g, j, s'.threads[j]) {
      if j != i { ThreadStable(s.g, s'.g, i, j, s.threads[j]); }
    }
  }

  // The few facts about one thread that the accounts need.
  ghost predicate Facts(g: Shared, th: Thread) {
    && g.head in g.rank
    && (th.pc.PushLink? ==> th.pc.node !in g.rank)
    && (th.pc.PopSwing? && th.pc.head == g.head ==> Rank(g, th.pc.succ) == Rank(g, g.head) + 1)
    && (th.pc.PopLoadNext? && th.pc.head in g.heap && g.heap[th.pc.head].next.None? ==> Len(g) == 0)
    && (th.pc.PopRecheck? && th.pc.next.None? ==> !th.owes)
  }

  lemma FactsHold(g: Shared, i: Tid, th: Thread, c: Choice)
    requires SharedInv(g) && ThreadInv(g, i, th)
    ensures Facts(g, th)
  {
    if th.pc.PopLoadNext? { PopNextStep(g, i, th, c); }
  }

  lemma NoFault(g: Shared, i: Tid, th: Thread, c: Choice)
    requires SharedInv(g) && ThreadInv(g, i, th)
    requires c.alloc.Some? ==> c.alloc.value !in g.heap
    ensures !Act(g, i, th, c).1.pc.Fault?
  {
    ActOk(g, i, th, c);
  }

  // The counter moves with the chain and with the two groups of threads that lag behind it.
  ghost predicate SizeMoves(g: Shared, th: Thread, next: (Shared, Thread)) {
    next.0.size - Len(next.0) + Uncounted(next.1) - Unsubtracted(next.1) ==
    g.size - Len(g) + Uncounted(th) - Unsubtracted(th)
  }

  lemma PushSize(g: Shared, i: Tid, th: Thread, c: Choice)
    requires Facts(g, th) && InPush(th.pc)
    ensures SizeMoves(g, th, ActPush(g, i, th, c))
  {}

  lemma PopSize(g: Shared, i: Tid, th: Thread, c: Choice)
    requires Facts(g, th) && InPop(th.pc)
    ensures SizeMoves(g, th, ActPop(g, i, th, c))
  {}

  lemma ActSize(g: Shared, i: Tid, th: Thread, c: Choice)
    requires Facts(g, th)
    ensures SizeMoves(g, th, Act(g, i, th, c))
  {
    if InPush(th.pc) { PushSize(g, i, th, c); }
    else if InPop(th.pc) { PopSize(g, i, th, c); }
  }

  // The chain grows only against a debt, unless the counter was below the capacity or the
  // queue was just seen empty.
  ghost predicate Bounded(g: Shared, th: Thread, next: (Shared, Thread)) {
    || Len(next.0) - Uncounted(next.1) - Owing(next.1) <= Len(g) - Uncounted(th) - Owing(th)
    || Len(next.0) == 0
    || (g.size < g.cap && th.pc.PushCount? && Len(next.0) == Len(g))
  }

  lemma PushBound(g: Shared, i: Tid, th: Thread, c: Choice)
    requires Facts(g, th) && InPush(th.pc) && !ActPush(g, i, th, c).1.pc.Fault?
    ensures Bounded(g, th, ActPush(g, i, th, c))
  {}

  lemma PopBound(g: Shared, i: Tid, th: Thread, c: Choice)
    requires Facts(g, th) && InPop(th.pc) && !ActPop(g, i, th, c).1.pc.Fault?
    ensures Bounded(g, th, ActPop(g, i, th, c))
  {}

  lemma ActBound(g: Shared, i: Tid, th: Thread, c: Choice)
    requires Facts(g, th) && !Act(g, i, th, c).1.pc.Fault?
    ensures Bounded(g, th, Act(g, i, th, c))
  {
    if InPush(th.pc) { PushBound(g, i, th, c); }
    else if InPop(th.pc) { PopBound(g, i, th, c); }
  }

  lemma CountsKept(s: State, i: Tid, c: Choice)
    requires SharedInv(s.g) && ThreadsInv(s) && SizeInv(s) && BoundInv(s) && Enabled(s, i, c)
    ensures SizeInv(Step(s, i, c)) && BoundInv(Step(s, i, c))
  {
    var th, th' := s.threads[i], Step(s, i, c).threads[i];
    assert ThreadInv(s.g, i, th);
    FactsHold(s.g, i, th, c);
    NoFault(s.g, i, th, c);
    CountsFollow(s, i, c);
  }

  lemma CountsFollow(s: State, i: Tid, c: Choice)
    requires Enabled(s, i, c) && Facts(s.g, s.threads[i]) && !Act(s.g, i, s.threads[i], c).1.pc.Fault?
    requires SizeInv(s) && BoundInv(s)
    ensures SizeInv(Step(s, i, c)) && BoundInv(Step(s, i, c))
  {
    var th, th' := s.threads[i], Step(s, i, c).threads[i];
    ActSize(s.g, i, th, c);
    ActBound(s.g, i, th, c);
    SumUpdate(s.threads, i, th', Uncounted);
    SumUpdate(s.threads, i, th', Unsubtracted);
    SumUpdate(s.threads, i, th', Owing);
    assert Act(s.g, i, th, c).0.cap == s.g.cap;
  }

  // Moving the head retires the old dummy; freeing it takes it off the retired ones.
  ghost predicate Retires(g: Shared, th: Thread, next: (Shared, Thread), a: Addr) {
    && Rank(g, g.head) <= Rank(next.0, next.0.head) <= Rank(g, g.head) + 1
    && next.0.freed[a] + Retiring(a)(next.1) == g.freed[a] + Retiring(a)(th) +
       if a == g.head && Rank(next.0, next.0.head) > Rank(g, g.head) then 1 else 0
  }

  lemma PopRetires(g: Shared, i: Tid, th: Thread, c: Choice, a: Addr)
    requires Facts(g, th) && InPop(th.pc)
    ensures Retires(g, th, ActPop(g, i, th, c), a)
  {}

  lemma ActRetires(g: Shared, i: Tid, th: Thread, c: Choice, a: Addr)
    requires Facts(g, th)
    ensures Retires(g, th, Act(g, i, th, c), a)
  {
    if InPop(th.pc) { PopRetires(g, i, th, c, a); }
  }

  // An unlinked node belongs to thread `i`, which still holds it.
  ghost predicate Owns(g: Shared, i: Tid, th: Thread, a: Addr) {
    a in g.heap && a !in g.rank ==> g.heap[a].owner == i && Holds(th.pc, a)
  }

  lemma IdleOwns(g: Shared, i: Tid, th: Thread, c: Choice, a: Addr)
    requires Owns(g, i, th, a) && th.pc.Idle?
    ensures Owns(ActIdle(g, i, th, c).0, i, ActIdle(g, i, th, c).1, a)
  {}

  lemma PushOwns(g: Shared, i: Tid, th: Thread, c: Choice, a: Addr)
    requires Owns(g, i, th, a) && InPush(th.pc) && !ActPush(g, i, th, c).1.pc.Fault?
    ensures Owns(ActPush(g, i, th, c).0, i, ActPush(g, i, th, c).1, a)
  {}

  lemma PopOwns(g: Shared, i: Tid, th: Thread, c: Choice, a: Addr)
    requires Owns(g, i, th, a) && InPop(th.pc)
    ensures Owns(ActPop(g, i, th, c).0, i, ActPop(g, i, th, c).1, a)
  {
    assert !Holds(th.pc, a);
  }

  // Only the owner of an unlinked node gives it up, and only by linking it.
  lemma ActOwns(g: Shared, i: Tid, th: Thread, c: Choice, a: Addr)
    requires Owns(g, i, th, a) && !Act(g, i, th, c).1.pc.Fault?
    ensures Owns(Act(g, i, th, c).0, i, Act(g, i, th, c).1, a)
  {
    if th.pc.Idle? { IdleOwns(g, i, th, c, a); }
    else if InPush(th.pc) { PushOwns(g, i, th, c, a); }
    else if InPop(th.pc) { PopOwns(g, i, th, c, a); }
  }

  lemma RetiresKept(s: State, i: Tid, c: Choice, a: Addr)
    requires Enabled(s, i, c) && Facts(s.g, s.threads[i])
    requires var s' := Step(s, i, c);
             && Chain(s.g) && Chain(s'.g)
             && (forall b :: b in s.g.rank ==> b in s'.g.rank && s'.g.rank[b] == s.g.rank[b])
             && (a in s'.g.rank && a !in s.g.rank ==> |s.g.log| <= s'.g.rank[a])
    requires Accounted(s, a)
    ensures Accounted(Step(s, i, c), a)
  {
    ActRetires(s.g, i, s.threads[i], c, a);
    SumUpdate(s.threads, i, Step(s, i, c).threads[i], Retiring(a));
    assert a in s.g.rank && s.g.rank[a] == s.g.rank[s.g.head] ==> a == s.g.head;
  }

  lemma OwnersKept(s: State, i: Tid, c: Choice, a: Addr)
    requires Enabled(s, i, c) && Owned(s.g.heap, s.g.rank, s.threads, a)
    requires var s' := Step(s, i, c); OwnedApart(s.g, s'.g, i, a) && !s'.threads[i].pc.Fault?
    requires forall a :: a in s.g.heap ==> Step(s, i, c).g.heap[a].owner == s.g.heap[a].owner
    ensures var s' := Step(s, i, c); Owned(s'.g.heap, s'.g.rank, s'.threads, a)
  {
    if a !in s.g.heap || a in s.g.rank || s.g.heap[a].owner == i {
      ActOwns(s.g, i, s.threads[i], c, a);
    }
  }

  lemma FreesKept(s: State, i: Tid, c: Choice)
    requires SharedInv(s.g) && ThreadsInv(s) && FreeInv(s) && Enabled(s, i, c)
    requires var s' := Step(s, i, c); Chain(s'.g) && Evolves(s.g, s'.g, i) && ThreadsInv(s')
    ensures FreeInv(Step(s, i, c))
  {
    assert ThreadInv(s.g, i, s.threads[i]);
    FactsHold(s.g, i, s.threads[i], c);
    NoFault(s.g, i, s.threads[i], c);
    forall a ensures Accounted(Step(s, i, c), a) {
      var s' := Step(s, i, c);
      assert a in s'.g.rank && a !in s.g.rank ==> s'.g.log[s'.g.rank[a]] == a;
      RetiresKept(s, i, c, a);
    }
    forall a ensures var s' := Step(s, i, c); Owned(s'.g.heap, s'.g.rank, s'.threads, a) {
      assert Owned(s.g.heap, s.g.rank, s.threads, a);
      assert OwnedApart(s.g, Step(s, i, c).g, i, a);
      OwnersKept(s, i, c, a);
    }
  }

  // A step adds one operation to the history, or reports the operations of the call, or neither.
  ghost predicate Claims(g: Shared, i: Tid, th: Thread, next: (Shared, Thread), op: seq<Op>, d: seq<Completed>) {
    && next.0.ops == g.ops + op && next.0.done == g.done + d && |op| + |d| <= 1
    && (op != [] ==> op[0].tid == i)
    && (d != [] ==> d[0].tid == i)
    && (d == [] ==> SoFar(i, next.1.pc) == SoFar(i, th.pc) + op)
    && (d != [] ==> Effect(i, d[0].result) == SoFar(i, th.pc) && SoFar(i, next.1.pc) == [])
  }

  // Neither.
  ghost predicate Quiet(g: Shared, i: Tid, th: Thread, next: (Shared, Thread)) {
    next.0.ops == g.ops && next.0.done == g.done && SoFar(i, next.1.pc) == SoFar(i, th.pc)
  }

  lemma PushQuiet(g: Shared, i: Tid, th: Thread, c: Choice)
    requires InPush(th.pc)
    requires var pc := ActPush(g, i, th, c).1.pc; !pc.Fault? && !pc.PushSwing? && !pc.Idle?
    ensures Quiet(g, i, th, ActPush(g, i, th, c))
  {}

  lemma PushClaims(g: Shared, i: Tid, th: Thread, c: Choice) returns (op: seq<Op>, d: seq<Completed>)
    requires InPush(th.pc) && !ActPush(g, i, th, c).1.pc.Fault?
    ensures Claims(g, i, th, ActPush(g, i, th, c), op, d)
  {
    op, d := [], [];
    var pc := ActPush(g, i, th, c).1.pc;
    if !pc.PushSwing? && !pc.Idle? { PushQuiet(g, i, th, c); }
    if ActPush(g, i, th, c).1.pc.PushSwing? { op := [Push(i, th.pc.msg)]; }
    if ActPush(g, i, th, c).1.pc.Idle? { d := [Completed(i, th.call, th.start, |g.ops|, Pushed(th.pc.msg))]; }
  }

  lemma PopQuiet(g: Shared, i: Tid, th: Thread, c: Choice)
    requires InPop(th.pc)
    requires var pc := ActPop(g, i, th, c).1.pc; !pc.Fault? && !pc.PopCount? && !pc.Idle?
    ensures Quiet(g, i, th, ActPop(g, i, th, c))
  {}

  lemma PopClaims(g: Shared, i: Tid, th: Thread, c: Choice) returns (op: seq<Op>, d: seq<Completed>)
    requires InPop(th.pc) && !ActPop(g, i, th, c).1.pc.Fault?
    ensures Claims(g, i, th, ActPop(g, i, th, c), op, d)
  {
    var g' := ActPop(g, i, th, c).0;
    op, d := [], [];
    var pc := ActPop(g, i, th, c).1.pc;
    if !pc.PopCount? && !pc.Idle? { PopQuiet(g, i, th, c); }
    if ActPop(g, i, th, c).1.pc.PopCount? { op := [Pop(i, th.pc.out)]; }
    if ActPop(g, i, th, c).1.pc.Idle? { d := [g'.done[|g.done|]]; }
  }

  lemma IdleClaims(g: Shared, i: Tid, th: Thread, c: Choice) returns (op: seq<Op>, d: seq<Completed>)
    requires th.pc.Idle?
    ensures Claims(g, i, th, ActIdle(g, i, th, c), op, d)
  {
    var (g', th') := ActIdle(g, i, th, c);
    op, d := [], [];
    if th'.pc.Idle? { d := [g'.done[|g.done|]]; }
  }

  lemma ShowClaims(g: Shared, i: Tid, th: Thread) returns (op: seq<Op>, d: seq<Completed>)
    requires th.pc.ShowLoadHead? || th.pc.ShowLoadFirst? || th.pc.ShowWalk?
    requires !ActShow(g, i, th).1.pc.Fault?
    ensures Claims(g, i, th, ActShow(g, i, th), op, d)
  {
    var (g', th') := ActShow(g, i, th);
    op, d := [], [];
    if th'.pc.Idle? { d := [g'.done[|g.done|]]; }
  }

  lemma ActClaims(g: Shared, i: Tid, th: Thread, c: Choice) returns (op: seq<Op>, d: seq<Completed>)
    requires !th.pc.Fault? && !Act(g, i, th, c).1.pc.Fault?
    ensures Claims(g, i, th, Act(g, i, th, c), op, d)
  {
    if InPush(th.pc) { op, d := PushClaims(g, i, th, c); }
    else if InPop(th.pc) { op, d := PopClaims(g, i, th, c); }
    else if th.pc.Idle? { op, d := IdleClaims(g, i, th, c); }
    else { op, d := ShowClaims(g, i, th); }
  }

  lemma MineExtends(j: Tid, ops: seq<Op>, op: seq<Op>)
    requires |op| <= 1
    ensures Mine(j, ops + op, 0, |ops + op|) ==
            Mine(j, ops, 0, |ops|) + if op != [] && op[0].tid == j then op else []
  {
    MineStable(j, ops, ops + op, 0, |ops|);
    if op != [] { assert (ops + op)[|ops|] == op[0]; }
    else { assert ops + op == ops; }
  }

  lemma ClaimedExtends(j: Tid, done: seq<Completed>, d: seq<Completed>)
    requires |d| <= 1
    ensures Claimed(j, done + d) ==
            Claimed(j, done) + if d != [] && d[0].tid == j then Effect(j, d[0].result) else []
  {
    if d != [] { assert (done + d)[..|done|] == done && (done + d)[|done|] == d[0]; }
    else { assert done + d == done; }
  }

  lemma ClaimKept(g: Shared, i: Tid, th: Thread, next: (Shared, Thread), op: seq<Op>, d: seq<Completed>, j: Tid, pc: Pc)
    requires Claims(g, i, th, next, op, d)
    requires j == i ==> pc == th.pc
    requires Claimed(j, g.done) + SoFar(j, pc) == Mine(j, g.ops, 0, |g.ops|)
    ensures Claimed(j, next.0.done) + SoFar(j, if j == i then next.1.pc else pc) ==
            Mine(j, next.0.ops, 0, |next.0.ops|)
  {
    var (before, sofar, pc') := (Claimed(j, g.done), SoFar(j, pc), if j == i then next.1.pc else pc);
    var more := if op != [] && op[0].tid == j then op else [];
    var told := if d != [] && d[0].tid == j then Effect(j, d[0].result) else [];
    assert Mine(j, next.0.ops, 0, |next.0.ops|) == Mine(j, g.ops, 0, |g.ops|) + more by { MineExtends(j, g.ops, op); }
    assert Claimed(j, next.0.done) == before + told by { ClaimedExtends(j, g.done, d); }
    assert told + SoFar(j, pc') == sofar + more;
    Regroup(before, told, SoFar(j, pc'), sofar, more);
  }

  lemma Regroup(a: seq<Op>, b: seq<Op>, c: seq<Op>, d: seq<Op>, e: seq<Op>)
    requires b + c == d + e
    ensures (a + b) + c == (a + d) + e
  {
    assert (a + b) + c == a + (b + c);
    assert (a + d) + e == a + (d + e);
  }

  lemma ClaimsKept(s: State, i: Tid, c: Choice)
    requires ClaimInv(s) && Enabled(s, i, c) && !s.threads[i].pc.Fault? && !Act(s.g, i, s.threads[i], c).1.pc.Fault?
    ensures ClaimInv(Step(s, i, c))
  {
    var op, d := ActClaims(s.g, i, s.threads[i], c);
    forall j | 0 <= j < |s.threads|
      ensures var s' := Step(s, i, c);
              Claimed(j, s'.g.done) + SoFar(j, s'.threads[j].pc) == Mine(j, s'.g.ops, 0, |s'.g.ops|)
    {
      ClaimKept(s.g, i, s.threads[i], Act(s.g, i, s.threads[i], c), op, d, j, s.threads[j].pc);
    }
  }

  // ---------- every schedule ----------

  lemma InitInv(n: nat, cap: nat, dummy: Addr, junk: Message)
    ensures Inv(Init(n, cap, dummy, junk))
  {
    var s := Init(n, cap, dummy, junk);
    forall a ensures LinkedAt(s.g.heap, s.g.log, s.g.rank, a) {}
    assert Chain(s.g);
    assert Contents(s.g) == [] && s.g.vals[1..] == [];
    assert History(s.g);
    assert ThreadsInv(s);
    SumZero(s.threads, Uncounted);
    SumZero(s.threads, Unsubtracted);
    SumZero(s.threads, Owing);
    forall a ensures Accounted(s, a) {
      SumZero(s.threads, Retiring(a));
    }
  }

  lemma StepInv(s: State, i: Tid, c: Choice)
    requires Inv(s)
    ensures Inv(Step(s, i, c)) && |Step(s, i, c).threads| == |s.threads| && Step(s, i, c).g.cap == s.g.cap
  {
    if Enabled(s, i, c) {
      ThreadsKept(s, i, c);
      CountsKept(s, i, c);
      FreesKept(s, i, c);
      assert ThreadInv(s.g, i, s.threads[i]);
      NoFault(s.g, i, s.threads[i], c);
      ClaimsKept(s, i, c);
      CallsKept(s, i, c);
    }
  }

  lemma {:induction false} RunInv(s: State, schedule: Schedule)
    requires Inv(s)
    ensures Inv(Run(s, schedule)) && |Run(s, schedule).threads| == |s.threads| && Run(s, schedule).g.cap == s.g.cap
  {
    if schedule != [] {
      var k := |schedule| - 1;
      RunInv(s, schedule[..k]);
      StepInv(Run(s, schedule[..k]), schedule[k].0, schedule[k].1);
    }
  }
}
