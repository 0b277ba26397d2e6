/** When a push takes an entry out: only when the queue was full, up to what the threads that are
    under way may add to the counter; and not at all when it runs alone on a queue that is not.
    Also, that calls fail only for want of memory. */
module QueueEviction {
  import opened Messages
  import opened QueueMachine
  import opened QueueCalls
  import opened QueueInvariant
  import opened QueueAccounts
  import opened QueueTheorems

  // ---------- evictions ----------

  // At moment `full` of the history the queue held `cap` entries, up to the other threads.
  ghost predicate FullAt(ops: seq<Op>, cap: nat, n: nat, start: nat, full: nat, end: nat) {
    start <= full <= end <= |ops| && Replay(ops, full).Some? && |Replay(ops, full).value| >= cap + 2 - n
  }

  lemma FullStays(ops: seq<Op>, ops': seq<Op>, cap: nat, n: nat, start: nat, full: nat, end: nat, end': nat)
    requires FullAt(ops, cap, n, start, full, end) && ops <= ops' && end <= end' <= |ops'|
    ensures FullAt(ops', cap, n, start, full, end')
  {
    ReplayStable(ops, ops', full);
  }

  predicate Evicts(r: Result) { r.PushedEvicting? || r.PushedMissing? }

  ghost predicate Evictor(g: Shared, n: nat, th: Thread) {
    InPop(th.pc) && th.pc.why.Evict? ==> FullAt(g.ops, g.cap, n, th.start, th.full, |g.ops|)
  }

  ghost predicate Evicted(g: Shared, n: nat, c: Completed) {
    Evicts(c.result) ==> FullAt(g.ops, g.cap, n, c.start, c.result.full, c.end)
  }

  ghost predicate EvictInv(s: State, n: nat) {
    && (forall i :: 0 <= i < |s.threads| ==> Evictor(s.g, n, s.threads[i]))
    && (forall k :: 0 <= k < |s.g.done| ==> Evicted(s.g, n, s.g.done[k]))
  }

  // The counter that sends a push evicting is never ahead of the queue by more than the pops that
  // have yet to be subtracted.
  lemma CountedFull(s: State, i: Tid)
    requires Inv(s) && i < |s.threads| && s.threads[i].pc.PushCount? && s.g.size >= s.g.cap
    ensures FullAt(s.g.ops, s.g.cap, |s.threads|, s.threads[i].start, |s.g.ops|, |s.g.ops|)
  {
    SumUpdate(s.threads, i, s.threads[i], Uncounted);
    SumBound(s.threads, Uncounted, Unsubtracted);
    assert ThreadInv(s.g, i, s.threads[i]);
    assert |Contents(s.g)| == Len(s.g);
  }

  // What one step does to one evictor.
  ghost predicate EvictsOn(g: Shared, n: nat, th: Thread, next: (Shared, Thread)) {
    && next.0.cap == g.cap && g.ops <= next.0.ops && g.done <= next.0.done
    && Evictor(next.0, n, next.1)
    && (forall k :: |g.done| <= k < |next.0.done| ==> Evicted(next.0, n, next.0.done[k]))
  }

  lemma PushEvicts(g: Shared, i: Tid, th: Thread, c: Choice, n: nat)
    requires InPush(th.pc)
    requires th.pc.PushCount? && g.size >= g.cap ==> FullAt(g.ops, g.cap, n, th.start, |g.ops|, |g.ops|)
    ensures EvictsOn(g, n, th, ActPush(g, i, th, c))
  {
    if !th.pc.PushCount? { NotYetEvicts(g, i, th, c, n); }
  }

  lemma NotYetEvicts(g: Shared, i: Tid, th: Thread, c: Choice, n: nat)
    requires InPush(th.pc) && !th.pc.PushCount?
    ensures EvictsOn(g, n, th, ActPush(g, i, th, c))
  {
    assert ActPush(g, i, th, c).0.done == g.done && !InPop(ActPush(g, i, th, c).1.pc);
  }

  lemma PopEvicts(g: Shared, i: Tid, th: Thread, c: Choice, n: nat)
    requires InPop(th.pc) && Evictor(g, n, th) && th.start <= |g.ops|
    ensures EvictsOn(g, n, th, ActPop(g, i, th, c))
  {
    if th.pc.why.Evict? {
      var ops' := ActPop(g, i, th, c).0.ops;
      FullStays(g.ops, ops', g.cap, n, th.start, th.full, |g.ops|, |ops'|);
      FullStays(g.ops, ops', g.cap, n, th.start, th.full, |g.ops|, |g.ops|);
    }
  }

  lemma OtherEvicts(g: Shared, i: Tid, th: Thread, c: Choice, n: nat)
    requires !InPush(th.pc) && !InPop(th.pc)
    ensures EvictsOn(g, n, th, Act(g, i, th, c))
  {}

  lemma StepEvicts(s: State, i: Tid, c: Choice)
    requires Inv(s) && EvictInv(s, |s.threads|) && Enabled(s, i, c)
    ensures EvictInv(Step(s, i, c), |s.threads|)
  {
    var (th, n) := (s.threads[i], |s.threads|);
    assert ThreadInv(s.g, i, th) && Evictor(s.g, n, th);
    if InPush(th.pc) {
      if th.pc.PushCount? && s.g.size >= s.g.cap { CountedFull(s, i); }
      PushEvicts(s.g, i, th, c, n);
    } else if InPop(th.pc) {
      PopEvicts(s.g, i, th, c, n);
    } else {
      OtherEvicts(s.g, i, th, c, n);
    }
    EvictorsKept(s, i, c, n);
  }

  lemma EvictorsKept(s: State, i: Tid, c: Choice, n: nat)
    requires EvictInv(s, n) && Enabled(s, i, c)
    requires EvictsOn(s.g, n, s.threads[i], Act(s.g, i, s.threads[i], c))
    ensures EvictInv(Step(s, i, c), n)
  {
    var s' := Step(s, i, c);
    forall j | 0 <= j < |s'.threads| ensures Evictor(s'.g, n, s'.threads[j]) {
      if j != i {
        var th := s.threads[j];
        assert Evictor(s.g, n, th);
        if InPop(th.pc) && th.pc.why.Evict? {
          FullStays(s.g.ops, s'.g.ops, s.g.cap, n, th.start, th.full, |s.g.ops|, |s'.g.ops|);
        }
      }
    }
    forall k | 0 <= k < |s'.g.done| ensures Evicted(s'.g, n, s'.g.done[k]) {
      if k < |s.g.done| {
        var d := s.g.done[k];
        assert Evicted(s.g, n, d) && s'.g.done[k] == d;
        if Evicts(d.result) { FullStays(s.g.ops, s'.g.ops, s.g.cap, n, d.start, d.result.full, d.end, d.end); }
      }
    }
  }

  lemma {:induction false} RunEvicts(s: State, schedule: Schedule)
    requires Inv(s) && EvictInv(s, |s.threads|)
    ensures EvictInv(Run(s, schedule), |s.threads|)
  {
    if schedule != [] {
      var (before, last) := (schedule[..|schedule| - 1], schedule[|schedule| - 1]);
      RunEvicts(s, before);
      RunInv(s, before);
      if Enabled(Run(s, before), last.0, last.1) { StepEvicts(Run(s, before), last.0, last.1); }
    }
  }

  lemma ReachableEvicts(s: State, n: nat, cap: nat)
    requires Reachable(s, n, cap)
    ensures EvictInv(s, n) && s.g.cap == cap
  {
    var dummy, junk, schedule :| s == Run(Init(n, cap, dummy, junk), schedule);
    InitInv(n, cap, dummy, junk);
    RunInv(Init(n, cap, dummy, junk), schedule);
    RunEvicts(Init(n, cap, dummy, junk), schedule);
  }

  // Every push that went to evict had a moment, during the call, at which the queue held at least
  // the capacity plus two entries less the number of threads; with one thread, more than it may.
  lemma EvictsOnlyWhenFull(s: State, n: nat, cap: nat, k: nat)
    requires Reachable(s, n, cap) && k < |s.g.done| && Evicts(s.g.done[k].result)
    ensures var c := s.g.done[k];
            exists at: nat ::
              c.start <= at <= c.end && c.end <= |s.g.ops| && Replay(s.g.ops, at).Some? &&
              |Replay(s.g.ops, at).value| >= cap + 2 - n
  {
    ReachableEvicts(s, n, cap);
    var c := s.g.done[k];
    assert Evicted(s.g, n, c);
    assert c.start <= c.result.full <= c.end && Replay(s.g.ops, c.result.full).Some?;
  }

  // ---------- calls that fail ----------

  // Every step finds memory.
  predicate MemoryFor(schedule: Schedule) {
    forall step :: step in schedule ==> step.1.alloc.Some?
  }

  ghost predicate NoneFailed(s: State) {
    forall k :: 0 <= k < |s.g.done| ==> !WithoutMemory(s.g.done[k].result)
  }

  lemma StepSucceeds(s: State, i: Tid, c: Choice)
    requires CallInv(s) && NoneFailed(s) && Enabled(s, i, c) && c.alloc.Some? && !s.threads[i].pc.Fault?
    ensures NoneFailed(Step(s, i, c))
  {
    ActRecords(s.g, i, s.threads[i], c);
    var s' := Step(s, i, c);
    forall k | 0 <= k < |s'.g.done| ensures !WithoutMemory(s'.g.done[k].result) {
      if k < |s.g.done| { assert s'.g.done[..|s.g.done|][k] == s.g.done[k]; }
    }
  }

  lemma {:induction false} RunSucceeds(s: State, schedule: Schedule)
    requires Inv(s) && NoneFailed(s) && MemoryFor(schedule)
    ensures NoneFailed(Run(s, schedule))
  {
    if schedule != [] {
      var (before, last) := (schedule[..|schedule| - 1], schedule[|schedule| - 1]);
      assert last in schedule && forall step :: step in before ==> step in schedule;
      RunSucceeds(s, before);
      RunInv(s, before);
      var t := Run(s, before);
      if Enabled(t, last.0, last.1) {
        assert ThreadInv(t.g, last.0, t.threads[last.0]);
        StepSucceeds(t, last.0, last.1);
      }
    }
  }

  // A push or a traversal fails only where malloc does.
  lemma FailsOnlyWithoutMemory(n: nat, cap: nat, dummy: Addr, junk: Message, schedule: Schedule)
    requires MemoryFor(schedule)
    ensures NoneFailed(Run(Init(n, cap, dummy, junk), schedule))
  {
    InitInv(n, cap, dummy, junk);
    RunSucceeds(Init(n, cap, dummy, junk), schedule);
  }

  // ---------- a push that runs alone ----------

  // The others are idle, and thread `i` is on its way to append `m` to what `s` held.
  ghost predicate Appending(s: State, t: State, i: Tid, m: Message)
    requires Chain(s.g) && Chain(t.g)
  {
    && i < |t.threads| && InPush(t.threads[i].pc) && t.threads[i].pc.msg == m
    && (forall j :: 0 <= j < |t.threads| && j != i ==> t.threads[j].pc.Idle?)
    && t.g.done == s.g.done && t.g.cap == s.g.cap
    && Contents(t.g) == Contents(s.g) + if t.threads[i].pc.PushSwing? || t.threads[i].pc.PushCount? then [m] else []
  }

  ghost predicate Appended(s: State, t: State, i: Tid, m: Message)
    requires Chain(s.g) && Chain(t.g)
  {
    && i < |t.threads| && t.threads[i].pc.Idle? && Contents(t.g) == Contents(s.g) + [m]
    && |t.g.done| == |s.g.done| + 1 && t.g.done[|s.g.done|].tid == i && t.g.done[|s.g.done|].result == Pushed(m)
  }

  lemma {:induction false} SumAlone(ts: seq<Thread>, i: nat, w: Thread -> nat)
    requires i < |ts| && forall j :: 0 <= j < |ts| && j != i ==> w(ts[j]) == 0
    ensures Sum(ts, w) == w(ts[i])
  {
    var n := |ts| - 1;
    if i < n { SumAlone(ts[..n], i, w); } else { SumZero(ts[..n], w); }
  }

  lemma LinkAppends(g: Shared, i: Tid, tail: Addr, node: Addr, m: Message)
    requires Chain(g) && tail in g.heap && Chain(Link(g, i, tail, node, m)) && node !in g.rank
    ensures Contents(Link(g, i, tail, node, m)) == Contents(g) + [m]
  {
    assert node != g.head;
  }

  ghost predicate PushedOn(g: Shared, i: Tid, th: Thread, next: (Shared, Thread))
    requires Chain(g) && Chain(next.0) && InPush(th.pc)
  {
    var (g', th') := next;
    && g'.cap == g.cap
    && Contents(g') == Contents(g) + (if th.pc.PushLink? && th'.pc.PushSwing? then [th.pc.msg] else [])
    && (if th.pc.PushCount? then
          th'.pc.Idle? && |g'.done| == |g.done| + 1 && g'.done[|g.done|].tid == i &&
          g'.done[|g.done|].result == Pushed(th.pc.msg)
        else InPush(th'.pc) && th'.pc.msg == th.pc.msg && g'.done == g.done)
    && (th'.pc.PushSwing? ==> th.pc.PushLink?) && (th'.pc.PushCount? <==> th.pc.PushSwing?)
  }

  // What a push does to the contents, step by step.
  lemma PushContents(g: Shared, i: Tid, th: Thread, c: Choice)
    requires Chain(g) && InPush(th.pc) && PushInv(g, i, th) && Chain(ActPush(g, i, th, c).0)
    requires !(th.pc.PushCount? && g.size >= g.cap)
    ensures PushedOn(g, i, th, ActPush(g, i, th, c))
  {
    if th.pc.PushLink? {
      PushLinkContents(g, i, th, c);
    } else {
      var g' := ActPush(g, i, th, c).0;
      assert g'.vals == g.vals && g'.head == g.head && g'.rank == g.rank;
    }
  }

  lemma PushLinkContents(g: Shared, i: Tid, th: Thread, c: Choice)
    requires Chain(g) && th.pc.PushLink? && PushInv(g, i, th) && Chain(ActPush(g, i, th, c).0)
    ensures PushedOn(g, i, th, ActPush(g, i, th, c))
  {
    if g.heap[th.pc.tail].next.None? && !c.spurious {
      LinkAppends(g, i, th.pc.tail, th.pc.node, th.pc.msg);
    } else {
      assert ActPush(g, i, th, c).0 == g;
    }
  }

  // Alone, it finds the counter at the length it began with.
  lemma CountedAlone(s: State, t: State, i: Tid, m: Message)
    requires Chain(s.g) && Chain(t.g) && SizeInv(t) && Appending(s, t, i, m) && t.threads[i].pc.PushCount?
    ensures t.g.size == |Contents(s.g)|
  {
    SumAlone(t.threads, i, Uncounted);
    SumAlone(t.threads, i, Unsubtracted);
    assert |Contents(t.g)| == Len(t.g);
  }

  lemma StepAppends(s: State, t: State, i: Tid, m: Message, g': Shared, th': Thread)
    requires Chain(s.g) && Chain(t.g) && Chain(g') && Appending(s, t, i, m)
    requires PushedOn(t.g, i, t.threads[i], (g', th'))
    ensures var t' := State(g', t.threads[i := th']);
            Appending(s, t', i, m) || Appended(s, t', i, m)
  {
    assert Contents(s.g) + [] == Contents(s.g);
    assert Contents(s.g) + [m] + [] == Contents(s.g) + [m];
  }

  lemma AloneStep(s: State, t: State, i: Tid, m: Message, c: Choice)
    requires Chain(s.g) && Inv(t) && Appending(s, t, i, m) && |Contents(s.g)| < s.g.cap
    ensures Chain(Step(t, i, c).g)
    ensures Appending(s, Step(t, i, c), i, m) || Appended(s, Step(t, i, c), i, m)
  {
    if Enabled(t, i, c) {
      StepInv(t, i, c);
      assert ThreadInv(t.g, i, t.threads[i]);
      if t.threads[i].pc.PushCount? { CountedAlone(s, t, i, m); }
      PushContents(t.g, i, t.threads[i], c);
      StepAppends(s, t, i, m, ActPush(t.g, i, t.threads[i], c).0, ActPush(t.g, i, t.threads[i], c).1);
    }
  }

  // All steps are of thread `i`, which stays in its first call until the last of them.
  ghost predicate OneCall(s: State, i: Tid, schedule: Schedule) {
    && (forall step :: step in schedule ==> step.0 == i)
    && (forall k :: 0 < k < |schedule| ==> InCall(Run(s, schedule[..k]), i))
  }

  predicate InCall(s: State, i: Tid) { i < |s.threads| && !s.threads[i].pc.Idle? }

  lemma PushStarts(s: State, i: Tid, m: Message, c: Choice)
    requires Inv(s) && AllIdle(s) && i < |s.threads| && c.call == CallPush(m)
    requires c.alloc.Some? && c.alloc.value !in s.g.heap
    ensures Chain(s.g) && Chain(Step(s, i, c).g) && Appending(s, Step(s, i, c), i, m)
  {
    StepInv(s, i, c);
    var g' := Step(s, i, c).g;
    assert g'.vals == s.g.vals && g'.head == s.g.head && g'.rank == s.g.rank;
  }

  lemma OneCallPrefix(s: State, i: Tid, schedule: Schedule)
    requires |schedule| > 1 && OneCall(s, i, schedule)
    ensures OneCall(s, i, schedule[..|schedule| - 1]) && InCall(Run(s, schedule[..|schedule| - 1]), i)
  {
    var before := schedule[..|schedule| - 1];
    forall k | 0 < k < |before| ensures InCall(Run(s, before[..k]), i) {
      assert before[..k] == schedule[..k];
    }
  }

  lemma {:induction false} AloneRun(s: State, i: Tid, m: Message, schedule: Schedule)
    requires Inv(s) && AllIdle(s) && i < |s.threads| && |Contents(s.g)| < s.g.cap
    requires schedule != [] && OneCall(s, i, schedule) && schedule[0].1.call == CallPush(m)
    requires schedule[0].1.alloc.Some? && schedule[0].1.alloc.value !in s.g.heap
    ensures Inv(Run(s, schedule))
    ensures Appending(s, Run(s, schedule), i, m) || Appended(s, Run(s, schedule), i, m)
  {
    RunInv(s, schedule);
    var (before, last) := (schedule[..|schedule| - 1], schedule[|schedule| - 1]);
    assert last in schedule;
    if |schedule| == 1 {
      assert Run(s, before) == s;
      PushStarts(s, i, m, last.1);
    } else {
      OneCallPrefix(s, i, schedule);
      AloneRun(s, i, m, before);
      AloneStep(s, Run(s, before), i, m, last.1);
    }
  }

  // A push that runs alone, from a moment at which no call is under way and the queue is not full,
  // appends its message and takes nothing out, whichever of its swings and links fail spuriously.
  lemma PushAloneAppends(s: State, n: nat, cap: nat, i: Tid, m: Message, schedule: Schedule)
    requires Reachable(s, n, cap) && AllIdle(s) && i < n && |Queued(s.g)| < cap
    requires schedule != [] && OneCall(s, i, schedule) && schedule[0].1.call == CallPush(m)
    requires schedule[0].1.alloc.Some? && schedule[0].1.alloc.value !in s.g.heap
    requires !InCall(Run(s, schedule), i)
    ensures var s' := Run(s, schedule);
            && Queued(s'.g) == Queued(s.g) + [m]
            && |s'.g.done| == |s.g.done| + 1
            && s'.g.done[|s.g.done|].tid == i && s'.g.done[|s.g.done|].result == Pushed(m)
  {
    ReachableInv(s, n, cap);
    QueuedIsContents(s.g);
    AloneRun(s, i, m, schedule);
    QueuedIsContents(Run(s, schedule).g);
  }
}
