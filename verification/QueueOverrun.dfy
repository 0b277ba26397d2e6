/** A run in which a traversal fills its array although the queue never holds as many entries as
    the array has places: while one thread walks, another takes out the entry it has reached and
    puts in the next. */
module QueueOverrun {
  import opened Options
  import opened Messages
  import opened QueueMachine
  import opened QueueInvariant
  import opened QueueAccounts
  import opened QueueTheorems

  // No state of the run holds more than `most` entries.
  ghost predicate NeverAbove(s: State, schedule: Schedule, most: int) {
    Len(Run(s, schedule).g) <= most &&
    (schedule != [] ==> NeverAbove(s, schedule[..|schedule| - 1], most))
  }

  // A run whose states hold no more than `most` entries, and where it leads.
  ghost predicate Leads(s0: State, p: Schedule, s: State, most: int) {
    s == Run(s0, p) && NeverAbove(s0, p, most)
  }

  // One step more of a thread, known from its effect.
  lemma OneStep(s0: State, p: Schedule, s: State, i: Tid, c: Choice, most: int) returns (p': Schedule, s': State)
    requires Leads(s0, p, s, most) && i < |s.threads| && Enabled(s, i, c)
    requires Len(Act(s.g, i, s.threads[i], c).0) <= most
    ensures Leads(s0, p', s', most)
    ensures s'.g == Act(s.g, i, s.threads[i], c).0
    ensures s'.threads == s.threads[i := Act(s.g, i, s.threads[i], c).1]
  {
    p', s' := p + [(i, c)], Step(s, i, c);
    assert p'[..|p'| - 1] == p;
  }

  const QUIET: Choice := Choice(CallPop, None, false)

  // The same, for a thread in a call.
  lemma OneMore(s0: State, p: Schedule, s: State, i: Tid, most: int) returns (p': Schedule, s': State)
    requires Leads(s0, p, s, most) && i < |s.threads|
    requires Len(Act(s.g, i, s.threads[i], QUIET).0) <= most
    ensures Leads(s0, p', s', most)
    ensures s'.g == Act(s.g, i, s.threads[i], QUIET).0
    ensures s'.threads == s.threads[i := Act(s.g, i, s.threads[i], QUIET).1]
  {
    p', s' := OneStep(s0, p, s, i, QUIET, most);
  }

  // `tail` is the last node, and the size counter is right.
  ghost predicate Settled(g: Shared) {
    && g.head in g.rank && g.tail in g.rank && g.rank.Keys <= g.heap.Keys
    && g.heap[g.tail].next.None? && g.size == Len(g)
  }

  // `g'` is `g` with one more node, that nobody has linked.
  ghost predicate OneMoreNode(g: Shared, g': Shared, a: Addr) {
    && Settled(g') && Len(g') == Len(g) && g'.size == g.size && g'.cap == g.cap && g'.log == g.log
    && g'.head == g.head && g'.tail == g.tail && g'.heap.Keys == g.heap.Keys + {a}
    && a in g'.heap && a !in g'.rank && g'.heap[a].next.None?
  }

  lemma AllocAdds(g: Shared, i: Tid, a: Addr, m: Message)
    requires Settled(g) && a !in g.heap
    ensures OneMoreNode(g, Alloc(g, i, a, m), a)
  {}

  // Thread `i` has allocated its node, and seen the end of the chain.
  ghost predicate Began(s: State, t: State, i: Tid, m: Message, a: Addr) {
    && i < |s.threads| && OneMoreNode(s.g, t.g, a)
    && |t.threads| == |s.threads| && t.threads == s.threads[i := t.threads[i]]
    && t.threads[i].pc == PushLink(m, a, t.g.tail)
  }

  // It has linked it, swung the tail and counted.
  ghost predicate Ended(t: State, u: State, i: Tid) {
    && i < |t.threads| && Settled(u.g) && Len(u.g) == Len(t.g) + 1 && u.g.cap == t.g.cap
    && |u.g.log| == |t.g.log| + 1 && u.g.heap.Keys == t.g.heap.Keys
    && |u.threads| == |t.threads| && u.threads == t.threads[i := u.threads[i]] && u.threads[i].pc.Idle?
  }

  // A whole push.
  ghost predicate PushedBy(s: State, u: State, i: Tid, a: Addr) {
    && i < |s.threads| && Settled(u.g) && Len(u.g) == Len(s.g) + 1 && u.g.cap == s.g.cap
    && |u.g.log| == |s.g.log| + 1 && u.g.heap.Keys == s.g.heap.Keys + {a}
    && |u.threads| == |s.threads| && u.threads == s.threads[i := u.threads[i]] && u.threads[i].pc.Idle?
  }

  lemma BeganAndEnded(s: State, t: State, u: State, i: Tid, m: Message, a: Addr)
    requires Began(s, t, i, m, a) && Ended(t, u, i)
    ensures PushedBy(s, u, i, a)
  {}

  lemma PushBegins(s0: State, p0: Schedule, s: State, i: Tid, m: Message, a: Addr, most: int)
    returns (p: Schedule, t: State)
    requires Leads(s0, p0, s, most) && Len(s.g) <= most
    requires i < |s.threads| && s.threads[i].pc.Idle? && Settled(s.g) && a !in s.g.heap
    ensures Leads(s0, p, t, most) && Began(s, t, i, m, a)
  {
    p, t := OneStep(s0, p0, s, i, Choice(CallPush(m), Some(a), false), most);
    var g := t.g;
    AllocAdds(s.g, i, a, m);
    assert t.threads[i].pc == PushLoadTail(m, a);
    p, t := OneMore(s0, p, t, i, most);
    assert t.g == g && t.threads[i].pc == PushLoadNext(m, a, s.g.tail);
    p, t := OneMore(s0, p, t, i, most);
    assert t.g == g && t.threads[i].pc == PushRecheck(m, a, s.g.tail, None);
    p, t := OneMore(s0, p, t, i, most);
  }

  lemma PushEnds(s0: State, p0: Schedule, t: State, i: Tid, most: int) returns (p: Schedule, u: State)
    requires Leads(s0, p0, t, most) && Len(t.g) + 1 <= most
    requires i < |t.threads| && t.threads[i].pc.PushLink? && t.threads[i].pc.tail == t.g.tail
    requires Settled(t.g) && t.g.size < t.g.cap
    requires t.threads[i].pc.node in t.g.heap && t.threads[i].pc.node !in t.g.rank
    requires t.g.heap[t.threads[i].pc.node].next.None?
    ensures Leads(s0, p, u, most) && Ended(t, u, i)
  {
    var pc := t.threads[i].pc;
    p, u := OneMore(s0, p0, t, i, most);
    var g := Link(t.g, i, pc.tail, pc.node, pc.msg);
    assert u.g == g && u.threads[i].pc == PushSwing(pc.msg, pc.node, pc.tail);
    p, u := OneMore(s0, p, u, i, most);
    assert u.g == g.(tail := pc.node) && u.threads[i].pc == PushCount(pc.msg);
    p, u := OneMore(s0, p, u, i, most);
  }

  // A whole push by thread `i` while the others stand still.
  lemma PushAlone(s0: State, p0: Schedule, s: State, i: Tid, m: Message, a: Addr, most: int)
    returns (p: Schedule, u: State)
    requires Leads(s0, p0, s, most) && Len(s.g) + 1 <= most
    requires i < |s.threads| && s.threads[i].pc.Idle? && Settled(s.g) && s.g.size < s.g.cap && a !in s.g.heap
    ensures Leads(s0, p, u, most) && PushedBy(s, u, i, a)
  {
    var t;
    p, t := PushBegins(s0, p0, s, i, m, a, most);
    p, u := PushEnds(s0, p, t, i, most);
    BeganAndEnded(s, t, u, i, m, a);
  }

  // Only thread `i` has moved, and none of the shared state.
  ghost predicate OnlyReads(s: State, t: State, i: Tid) {
    t.g == s.g && i < |s.threads| == |t.threads| && t.threads == s.threads[i := t.threads[i]]
  }

  // Thread `i` has loaded both ends.
  lemma PopLooks(s0: State, p0: Schedule, s: State, i: Tid, most: int) returns (p: Schedule, t: State)
    requires Leads(s0, p0, s, most) && Len(s.g) <= most && i < |s.threads| && s.threads[i].pc.Idle?
    ensures Leads(s0, p, t, most) && OnlyReads(s, t, i)
    ensures t.threads[i].pc == PopLoadNext(Caller, s.g.head, s.g.tail)
  {
    p, t := OneMore(s0, p0, s, i, most);
    assert t.g == s.g && t.threads[i].pc == PopLoadHead(Caller);
    p, t := OneMore(s0, p, t, i, most);
    assert t.g == s.g && t.threads[i].pc == PopLoadTail(Caller, s.g.head);
    p, t := OneMore(s0, p, t, i, most);
  }

  // It has read the entry behind the dummy.
  lemma PopFinds(s0: State, p0: Schedule, s: State, i: Tid, most: int) returns (p: Schedule, t: State)
    requires Leads(s0, p0, s, most) && Len(s.g) <= most
    requires i < |s.threads| && s.threads[i].pc == PopLoadNext(Caller, s.g.head, s.g.tail)
    requires s.g.head != s.g.tail && s.g.head in s.g.heap
    requires s.g.heap[s.g.head].next.Some? && s.g.heap[s.g.head].next.value in s.g.heap
    ensures Leads(s0, p, t, most) && OnlyReads(s, t, i)
    ensures t.threads[i].pc.PopSwing? && t.threads[i].pc.why == Caller
    ensures t.threads[i].pc.head == s.g.head && t.threads[i].pc.succ == s.g.heap[s.g.head].next.value
  {
    var (g, next) := (s.g, s.g.heap[s.g.head].next);
    p, t := OneMore(s0, p0, s, i, most);
    assert t.g == g && t.threads[i].pc == PopRecheck(Caller, g.head, g.tail, next);
    p, t := OneMore(s0, p, t, i, most);
    assert t.g == g && t.threads[i].pc == PopRead(Caller, g.head, next);
    p, t := OneMore(s0, p, t, i, most);
  }

  // It has taken it out, counted and freed the old dummy.
  ghost predicate PoppedBy(s: State, u: State, i: Tid) {
    && i < |s.threads| && Settled(u.g) && Len(u.g) == Len(s.g) - 1 && u.g.cap == s.g.cap
    && u.g.log == s.g.log && u.g.heap == s.g.heap
    && |u.threads| == |s.threads| && u.threads == s.threads[i := u.threads[i]] && u.threads[i].pc.Idle?
  }

  lemma PopEnds(s0: State, p0: Schedule, t: State, i: Tid, most: int) returns (p: Schedule, u: State)
    requires Leads(s0, p0, t, most) && Len(t.g) <= most
    requires i < |t.threads| && t.threads[i].pc.PopSwing? && t.threads[i].pc.why == Caller
    requires t.threads[i].pc.head == t.g.head && Follows(t.g, t.g.head, t.threads[i].pc.succ) && Settled(t.g)
    ensures Leads(s0, p, u, most) && PoppedBy(t, u, i)
  {
    var pc := t.threads[i].pc;
    p, u := OneMore(s0, p0, t, i, most);
    var g := TakeHead(t.g, i, pc.succ, pc.out);
    assert u.g == g && u.threads[i].pc == PopCount(Caller, pc.head, pc.out);
    p, u := OneMore(s0, p, u, i, most);
    assert u.g == g.(size := g.size - 1) && u.threads[i].pc == PopFree(Caller, pc.head, pc.out);
    p, u := OneMore(s0, p, u, i, most);
  }

  lemma Behind(g: Shared)
    requires SharedInv(g) && Settled(g) && Len(g) > 0
    ensures g.head != g.tail && g.heap[g.head].next.Some? && Follows(g, g.head, g.heap[g.head].next.value)
  {
    assert LinkedAt(g.heap, g.log, g.rank, g.head) && LinkedAt(g.heap, g.log, g.rank, g.tail);
  }

  // A whole pop.
  lemma PopAlone(s0: State, p0: Schedule, s: State, i: Tid, most: int) returns (p: Schedule, u: State)
    requires Leads(s0, p0, s, most) && Len(s.g) <= most
    requires i < |s.threads| && s.threads[i].pc.Idle? && SharedInv(s.g) && Settled(s.g) && Len(s.g) > 0
    ensures Leads(s0, p, u, most) && PoppedBy(s, u, i)
  {
    Behind(s.g);
    var t, r;
    p, t := PopLooks(s0, p0, s, i, most);
    p, r := PopFinds(s0, p, t, i, most);
    p, u := PopEnds(s0, p, r, i, most);
  }

  // A traversal has reached the first entry, and copied nothing.
  lemma ShowBegins(s0: State, p0: Schedule, s: State, i: Tid, a: Addr, most: int) returns (p: Schedule, t: State)
    requires Leads(s0, p0, s, most) && Len(s.g) <= most
    requires i < |s.threads| && s.threads[i].pc.Idle? && s.g.head in s.g.heap && a !in s.g.heap
    ensures Leads(s0, p, t, most) && OnlyReads(s, t, i)
    ensures t.threads[i].pc == ShowWalk(s.g.heap[s.g.head].next, []) && t.threads[i].from == Rank(s.g, s.g.head)
  {
    p, t := OneStep(s0, p0, s, i, Choice(CallShow, Some(a), false), most);
    assert t.g == s.g && t.threads[i].pc == ShowLoadHead;
    p, t := OneMore(s0, p, t, i, most);
    assert t.g == s.g && t.threads[i].pc == ShowLoadFirst(s.g.head);
    p, t := OneMore(s0, p, t, i, most);
  }

  lemma Successor(g: Shared, a: Addr)
    requires Chain(g) && a in g.rank && g.rank[a] + 1 < |g.log|
    ensures a in g.heap && g.heap[a].next.Some? && g.heap[a].next.value in g.heap
  {
    assert LinkedAt(g.heap, g.log, g.rank, a);
  }

  // It copies one entry.
  lemma ShowCopies(s0: State, p0: Schedule, s: State, i: Tid, a: Addr, got: seq<Message>, most: int)
    returns (p: Schedule, t: State)
    requires Leads(s0, p0, s, most) && Len(s.g) <= most && i < |s.threads|
    requires s.threads[i].pc == ShowWalk(Some(a), got) && a in s.g.heap && |got| < s.g.cap
    ensures Leads(s0, p, t, most) && OnlyReads(s, t, i)
    ensures t.threads[i].pc == ShowWalk(s.g.heap[a].next, got + [s.g.heap[a].msg])
  {
    p, t := OneMore(s0, p0, s, i, most);
  }

  // With two entries linked behind where it started it copies both, and returns.
  lemma ShowEnds(s0: State, p0: Schedule, s: State, i: Tid, most: int) returns (p: Schedule, u: State)
    requires Leads(s0, p0, s, most) && Len(s.g) <= most
    requires i < |s.threads| && s.threads[i].pc.ShowWalk? && s.threads[i].pc.got == [] && s.g.cap == 2
    requires s.threads[i].pc.current.Some? && s.threads[i].pc.current.value in s.g.heap
    requires var next := s.g.heap[s.threads[i].pc.current.value].next; next.Some? && next.value in s.g.heap
    ensures Leads(s0, p, u, most) && |u.g.done| == |s.g.done| + 1
    ensures var r := u.g.done[|s.g.done|].result; r.Shown? && Overruns(2, r.got)
  {
    var (g, a) := (s.g, s.threads[i].pc.current.value);
    var b := g.heap[a].next.value;
    var t, r;
    p, t := ShowCopies(s0, p0, s, i, a, [], most);
    p, r := ShowCopies(s0, p, t, i, b, [g.heap[a].msg], most);
    p, u := OneMore(s0, p, r, i, most);
  }

  // What holds of every run from the start, as far as thread 1 and the chain go.
  lemma StartsSound(first: Message, p: Schedule)
    ensures var s := Run(Init(2, 2, 0, first), p);
            SharedInv(s.g) && |s.threads| == 2 && ShowInv(s.g, s.threads[1])
  {
    InitInv(2, 2, 0, first);
    RunInv(Init(2, 2, 0, first), p);
    var s := Run(Init(2, 2, 0, first), p);
    assert ThreadInv(s.g, 1, s.threads[1]);
  }

  lemma TwoAhead(g: Shared, th: Thread)
    requires Chain(g) && ShowInv(g, th) && th.from == 0 && |g.log| == 3
    requires th.pc.ShowWalk? && th.pc.current.Some? && th.pc.got == []
    ensures th.pc.current.value in g.heap
    ensures var next := g.heap[th.pc.current.value].next; next.Some? && next.value in g.heap
  {
    Successor(g, th.pc.current.value);
  }

  // Thread 0 is idle with one entry queued, and thread 1 stands at it.
  ghost predicate OneQueued(s: State) {
    && |s.threads| == 2 && s.threads[0].pc.Idle? && s.threads[1].pc.ShowWalk? && s.threads[1].from == 0
    && s.threads[1].pc.current.Some? && s.threads[1].pc.got == []
    && Settled(s.g) && Len(s.g) == 1 && |s.g.log| == 2 && s.g.cap == 2 && 2 !in s.g.heap
  }

  lemma QueueOne(first: Message) returns (p: Schedule, s: State)
    ensures Leads(Init(2, 2, 0, first), p, s, 1) && OneQueued(s)
  {
    var s0, t := Init(2, 2, 0, first), Init(2, 2, 0, first);
    p, t := PushAlone(s0, [], s0, 0, first, 1, 1);
    StartsSound(first, p);
    Behind(t.g);
    p, s := ShowBegins(s0, p, t, 1, 2, 1);
  }

  // Thread 0 takes it out and pushes another one.
  lemma ReplaceOne(first: Message, p0: Schedule, s: State, second: Message) returns (p: Schedule, u: State)
    requires Leads(Init(2, 2, 0, first), p0, s, 1) && OneQueued(s)
    ensures Leads(Init(2, 2, 0, first), p, u, 1) && |u.threads| == 2 && u.threads[1] == s.threads[1]
    ensures |u.g.log| == 3 && u.g.cap == 2
  {
    var t;
    StartsSound(first, p0);
    p, t := PopAlone(Init(2, 2, 0, first), p0, s, 0, 1);
    p, u := PushAlone(Init(2, 2, 0, first), p, t, 0, second, 2, 1);
  }

  // Two threads, capacity two, never more than one entry: the traversal still fills its array.
  lemma ShortQueueOverruns(first: Message, second: Message) returns (schedule: Schedule)
    ensures var s := Init(2, 2, 0, first);
            var s' := Run(s, schedule);
            && NeverAbove(s, schedule, 1)
            && s'.g.done != [] && s'.g.done[|s'.g.done| - 1].result.Shown?
            && Overruns(2, s'.g.done[|s'.g.done| - 1].result.got)
  {
    var s, t, u;
    schedule, s := QueueOne(first);
    schedule, t := ReplaceOne(first, schedule, s, second);
    StartsSound(first, schedule);
    TwoAhead(t.g, t.threads[1]);
    assert Len(t.g) <= 1;
    schedule, u := ShowEnds(Init(2, 2, 0, first), schedule, t, 1, 1);
  }
}
