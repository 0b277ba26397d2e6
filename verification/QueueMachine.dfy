/** The lock-free event queue as a transition system: one step per atomic operation, any number
    of threads, any schedule. A weak compare-and-swap may fail although the values match.

    Addresses are never reused and a freed node stays readable; both are assumptions of this
    model (the program frees a node as soon as it leaves the queue).

    The fields of `Shared` after `freed`, and the fields of `Thread` after `pc`, are auxiliary:
    no branch of a step reads them. They record what happened, so that theorems can speak of it. */
module QueueMachine {
  import opened Options
  import opened Messages

  type Addr = nat
  type Tid = nat

  // `owner` (auxiliary) is the thread that allocated the node.
  datatype Node = Node(msg: Message, next: Option<Addr>, owner: Tid)

  // The sequential history: one entry for each successful link and each successful head swing.
  datatype Op =
    | Push(tid: Tid, msg: Message)
    | Pop(tid: Tid, msg: Message)

  datatype Call = CallPush(msg: Message) | CallPop | CallShow

  // What a finished call reported. `at` is the length of the history when the call looked, and
  // `until` its length when a traversal looked last, at the `next` of the last node it copied;
  // `full` is the length when an evicting push found the counter at the capacity.
  datatype Result =
    | PushFailed
    | Pushed(msg: Message)
    | PushedEvicting(msg: Message, evicted: Message, full: nat)
    | PushedMissing(msg: Message, at: nat, full: nat)
    | Popped(msg: Message)
    | PopEmpty(at: nat)
    | ShowFailed
    | Shown(at: nat, from: nat, until: nat, got: seq<Message>)

  // A finished call; `start` and `end` are the lengths of the history at its two ends.
  datatype Completed = Completed(tid: Tid, call: Call, start: nat, end: nat, result: Result)

  datatype Shared = Shared(
    cap: nat,
    heap: map<Addr, Node>,
    head: Addr,
    tail: Addr,
    size: int,
    freed: multiset<Addr>,
    log: seq<Addr>,
    vals: seq<Message>,
    rank: map<Addr, nat>,
    ops: seq<Op>,
    done: seq<Completed>)

  // Who runs `popFront`: its caller, or a `pushRear` that found the queue full.
  datatype Why = Caller | Evict(pushed: Message)

  // Program counters with the local variables alive there. `Fault` is a dereference of NULL or
  // of an address that was never allocated.
  datatype Pc =
    | Idle
    | Fault
    | PushLoadTail(msg: Message, node: Addr)
    | PushLoadNext(msg: Message, node: Addr, tail: Addr)
    | PushRecheck(msg: Message, node: Addr, tail: Addr, next: Option<Addr>)
    | PushHelp(msg: Message, node: Addr, tail: Addr, succ: Addr)
    | PushLink(msg: Message, node: Addr, tail: Addr)
    | PushSwing(msg: Message, node: Addr, tail: Addr)
    | PushCount(msg: Message)
    | PopLoadHead(why: Why)
    | PopLoadTail(why: Why, head: Addr)
    | PopLoadNext(why: Why, head: Addr, tail: Addr)
    | PopRecheck(why: Why, head: Addr, tail: Addr, next: Option<Addr>)
    | PopHelp(why: Why, tail: Addr, succ: Addr)
    | PopRead(why: Why, head: Addr, next: Option<Addr>)
    | PopSwing(why: Why, head: Addr, succ: Addr, out: Message)
    | PopCount(why: Why, head: Addr, out: Message)
    | PopFree(why: Why, head: Addr, out: Message)
    | ShowLoadHead
    | ShowLoadFirst(head: Addr)
    | ShowWalk(current: Option<Addr>, got: seq<Message>)

  datatype Thread = Thread(
    pc: Pc,
    call: Call,    // what the caller asked for
    start: nat,    // history length when the call began
    mark: nat,     // progress when this loop iteration began
    retries: nat,  // loop iterations repeated for another reason than a spurious failure
    owes: bool,    // an evictor that has not yet removed an entry or seen an empty queue
    at: nat,       // history length at the load that saw NULL, or at the traversal's head load
    from: nat,     // rank of the head the traversal loaded
    seen: nat,     // length of the log at that load
    until: nat,    // history length at the traversal's latest load of a `next`
    full: nat)     // history length when an evictor's push was counted

  // The scheduler's choices: the next call of an idle thread, what malloc returns, and whether
  // a weak compare-and-swap fails although it could succeed.
  datatype Choice = Choice(call: Call, alloc: Option<Addr>, spurious: bool)

  datatype State = State(g: Shared, threads: seq<Thread>)

  // Which thread moves, and how its choices fall, step by step.
  type Schedule = seq<(Tid, Choice)>

  // ---------- small views of the shared state ----------

  function Rank(g: Shared, a: Addr): nat {
    if a in g.rank then g.rank[a] else 0
  }

  // The number of queued entries.
  function Len(g: Shared): int {
    |g.log| - 1 - Rank(g, g.head)
  }

  // Grows by one with each link, each tail advance and each head advance.
  function Progress(g: Shared): nat {
    |g.log| + Rank(g, g.tail) + Rank(g, g.head)
  }

  // ---------- the atomic updates ----------

  function Alloc(g: Shared, i: Tid, a: Addr, m: Message): Shared {
    g.(heap := g.heap[a := Node(m, None, i)])
  }

  function Link(g: Shared, i: Tid, tail: Addr, node: Addr, m: Message): Shared
    requires tail in g.heap
  {
    g.(heap := g.heap[tail := g.heap[tail].(next := Some(node))],
       log := g.log + [node],
       vals := g.vals + [m],
       rank := g.rank[node := |g.log|],
       ops := g.ops + [Push(i, m)])
  }

  function SwingTail(g: Shared, expected: Addr, a: Addr, spurious: bool): Shared {
    if g.tail == expected && !spurious then g.(tail := a) else g
  }

  function TakeHead(g: Shared, i: Tid, a: Addr, m: Message): Shared {
    g.(head := a, ops := g.ops + [Pop(i, m)])
  }

  function Finish(g: Shared, i: Tid, th: Thread, r: Result): (Shared, Thread) {
    (g.(done := g.done + [Completed(i, th.call, th.start, |g.ops|, r)]), th.(pc := Idle))
  }

  function Retry(th: Thread, top: Pc, spurious: bool): Thread {
    th.(pc := top, retries := if spurious then th.retries else th.retries + 1)
  }

  // ---------- one step of thread `i` ----------

  function ActIdle(g: Shared, i: Tid, th: Thread, c: Choice): (Shared, Thread) {
    var begun := th.(call := c.call, start := |g.ops|);
    match c.call
    case CallPush(m) =>
      if c.alloc.None? then Finish(g, i, begun, PushFailed)
      else (Alloc(g, i, c.alloc.value, m), begun.(pc := PushLoadTail(m, c.alloc.value)))
    case CallPop =>
      (g, begun.(pc := PopLoadHead(Caller), owes := false))
    case CallShow =>
      if c.alloc.None? then Finish(g, i, begun, ShowFailed)
      else (g, begun.(pc := ShowLoadHead))
  }

  function ActPush(g: Shared, i: Tid, th: Thread, c: Choice): (Shared, Thread) {
    match th.pc
    case PushLoadTail(m, node) =>
      (g, th.(pc := PushLoadNext(m, node, g.tail), mark := Progress(g)))
    case PushLoadNext(m, node, tail) =>
      if tail in g.heap then (g, th.(pc := PushRecheck(m, node, tail, g.heap[tail].next)))
      else (g, th.(pc := Fault))
    case PushRecheck(m, node, tail, next) =>
      if tail != g.tail then (g, Retry(th, PushLoadTail(m, node), false))
      else if next.None? then (g, th.(pc := PushLink(m, node, tail)))
      else (g, th.(pc := PushHelp(m, node, tail, next.value)))
    case PushHelp(m, node, tail, succ) =>
      (SwingTail(g, tail, succ, c.spurious),
       Retry(th, PushLoadTail(m, node), g.tail == tail && c.spurious))
    case PushLink(m, node, tail) =>
      if tail !in g.heap then (g, th.(pc := Fault))
      else if g.heap[tail].next.None? && !c.spurious then
        (Link(g, i, tail, node, m), th.(pc := PushSwing(m, node, tail)))
      else (g, Retry(th, PushLoadTail(m, node), g.heap[tail].next.None?))
    case PushSwing(m, node, tail) =>
      (SwingTail(g, tail, node, c.spurious), th.(pc := PushCount(m)))
    case PushCount(m) =>
      var counted := g.(size := g.size + 1);
      if g.size >= g.cap then (counted, th.(pc := PopLoadHead(Evict(m)), owes := true, full := |g.ops|))
      else Finish(counted, i, th, Pushed(m))
    case _ => (g, th)
  }

  function ActPop(g: Shared, i: Tid, th: Thread, c: Choice): (Shared, Thread) {
    match th.pc
    case PopLoadHead(why) =>
      (g, th.(pc := PopLoadTail(why, g.head), mark := Progress(g)))
    case PopLoadTail(why, head) =>
      (g, th.(pc := PopLoadNext(why, head, g.tail)))
    case PopLoadNext(why, head, tail) =>
      if head !in g.heap then (g, th.(pc := Fault))
      else
        var next := g.heap[head].next;
        (g, th.(pc := PopRecheck(why, head, tail, next),
                at := if next.None? then |g.ops| else th.at,
                owes := th.owes && next.Some?))
    case PopRecheck(why, head, tail, next) =>
      if head != g.head then (g, Retry(th, PopLoadHead(why), false))
      else if head != tail then (g, th.(pc := PopRead(why, head, next)))
      else if next.Some? then (g, th.(pc := PopHelp(why, tail, next.value)))
      else Finish(g, i, th, match why case Caller => PopEmpty(th.at) case Evict(m) => PushedMissing(m, th.at, th.full))
    case PopHelp(why, tail, succ) =>
      (SwingTail(g, tail, succ, c.spurious), Retry(th, PopLoadHead(why), g.tail == tail && c.spurious))
    case PopRead(why, head, next) =>
      if next.None? || next.value !in g.heap then (g, th.(pc := Fault))
      else (g, th.(pc := PopSwing(why, head, next.value, g.heap[next.value].msg)))
    case PopSwing(why, head, succ, out) =>
      if g.head == head && !c.spurious then
        (TakeHead(g, i, succ, out), th.(pc := PopCount(why, head, out), owes := false))
      else (g, Retry(th, PopLoadHead(why), g.head == head))
    case PopCount(why, head, out) =>
      (g.(size := g.size - 1), th.(pc := PopFree(why, head, out)))
    case PopFree(why, head, out) =>
      Finish(g.(freed := g.freed + multiset{head}), i, th,
             match why case Caller => Popped(out) case Evict(m) => PushedEvicting(m, out, th.full))
    case _ => (g, th)
  }

  function ActShow(g: Shared, i: Tid, th: Thread): (Shared, Thread) {
    match th.pc
    case ShowLoadHead =>
      (g, th.(pc := ShowLoadFirst(g.head), at := |g.ops|, from := Rank(g, g.head), seen := |g.log|))
    case ShowLoadFirst(head) =>
      if head in g.heap then (g, th.(pc := ShowWalk(g.heap[head].next, []), until := |g.ops|))
      else (g, th.(pc := Fault))
    case ShowWalk(current, got) =>
      if current.Some? && |got| < g.cap then
        if current.value in g.heap then
          (g, th.(pc := ShowWalk(g.heap[current.value].next, got + [g.heap[current.value].msg]), until := |g.ops|))
        else (g, th.(pc := Fault))
      else Finish(g, i, th, Shown(th.at, th.from, th.until, got))
    case _ => (g, th)
  }

  function Act(g: Shared, i: Tid, th: Thread, c: Choice): (Shared, Thread) {
    if th.pc.Idle? then ActIdle(g, i, th, c)
    else if InPush(th.pc) then ActPush(g, i, th, c)
    else if InPop(th.pc) then ActPop(g, i, th, c)
    else ActShow(g, i, th)
  }

  predicate InPush(pc: Pc) {
    pc.PushLoadTail? || pc.PushLoadNext? || pc.PushRecheck? || pc.PushHelp? || pc.PushLink? ||
    pc.PushSwing? || pc.PushCount?
  }

  predicate InPop(pc: Pc) {
    pc.PopLoadHead? || pc.PopLoadTail? || pc.PopLoadNext? || pc.PopRecheck? || pc.PopHelp? ||
    pc.PopRead? || pc.PopSwing? || pc.PopCount? || pc.PopFree?
  }

  // A scheduled thread exists, and malloc hands out an address it never handed out before.
  predicate Enabled(s: State, i: Tid, c: Choice) {
    i < |s.threads| && (c.alloc.Some? ==> c.alloc.value !in s.g.heap)
  }

  function Step(s: State, i: Tid, c: Choice): State {
    if Enabled(s, i, c) then
      var (g, th) := Act(s.g, i, s.threads[i], c);
      State(g, s.threads[i := th])
    else s
  }

  // `initDequeue`: a dummy node, whose message is never set, and `n` idle threads.
  function Init(n: nat, cap: nat, dummy: Addr, junk: Message): State {
    State(Shared(cap, map[dummy := Node(junk, None, 0)], dummy, dummy, 0, multiset{},
                 [dummy], [junk], map[dummy := 0], [], []),
          seq(n, _ => Thread(Idle, CallPop, 0, 0, 0, false, 0, 0, 0, 0, 0)))
  }

  // The state after a schedule.
  function Run(start: State, schedule: Schedule): State {
    if schedule == [] then start
    else
      var last := schedule[|schedule| - 1];
      Step(Run(start, schedule[..|schedule| - 1]), last.0, last.1)
  }

  // ---------- the sequential queue that the history is replayed on ----------

  // The contents after the first `n` operations; None if a pop is not of the oldest entry.
  function Replay(ops: seq<Op>, n: nat): Option<seq<Message>>
    requires n <= |ops|
  {
    if n == 0 then Some([])
    else
      var before := Replay(ops, n - 1);
      if before.None? then None
      else match ops[n - 1]
        case Push(_, m) => Some(before.value + [m])
        case Pop(_, m) => if before.value != [] && before.value[0] == m then Some(before.value[1..]) else None
  }

  // The messages pushed, and the number of pops, by the first `n` operations.
  function Pushes(ops: seq<Op>, n: nat): seq<Message>
    requires n <= |ops|
  {
    if n == 0 then [] else Pushes(ops, n - 1) + if ops[n - 1].Push? then [ops[n - 1].msg] else []
  }

  function Pops(ops: seq<Op>, n: nat): nat
    requires n <= |ops|
  {
    if n == 0 then 0 else Pops(ops, n - 1) + if ops[n - 1].Pop? then 1 else 0
  }

  // The operations of thread `i` among `ops[from..to]`, in order.
  function Mine(i: Tid, ops: seq<Op>, from: nat, to: nat): seq<Op>
    requires from <= to <= |ops|
  {
    if from == to then []
    else Mine(i, ops, from, to - 1) + if ops[to - 1].tid == i then [ops[to - 1]] else []
  }

  // The operations that a result claims the call performed.
  function Effect(i: Tid, r: Result): seq<Op> {
    match r
    case Pushed(m) => [Push(i, m)]
    case PushedEvicting(m, out, _) => [Push(i, m), Pop(i, out)]
    case PushedMissing(m, _, _) => [Push(i, m)]
    case Popped(m) => [Pop(i, m)]
    case _ => []
  }

  // The messages met by following `next` pointers from `a`, at most `fuel` of them.
  function Walk(heap: map<Addr, Node>, a: Option<Addr>, fuel: nat): seq<Message>
    decreases fuel
  {
    if fuel == 0 || a.None? || a.value !in heap then []
    else [heap[a.value].msg] + Walk(heap, heap[a.value].next, fuel - 1)
  }
}
