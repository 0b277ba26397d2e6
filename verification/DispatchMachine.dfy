/** The dispatcher and its consumers as a step system: a message queue in, one pipe to each
    consumer and one pipe back, and an environment that chooses arrivals, time-outs and failures.
    A pipe holds a fixed number of messages, and a write waits while it is full; a message is
    smaller than the size up to which pipe writes are atomic, so it is written and read whole.

    Consumer `j` of group `i` has the number `i * slots + j`, its place in the nested loops. */
module DispatchMachine {
  import opened Messages

  const QUEUE_SIZE: nat := 10

  // The consumer's side of the protocol; `Acking` holds the message just read.
  datatype ConsumerPc = Reading | Acking(m: Message) | LeavingRead | LeavingWrite | Gone

  // What has happened between the dispatcher and one consumer. No step reads it, except that
  // acknowledgements are numbered by `handled`.
  datatype Log = Log(
    sent: seq<Message>,      // successful writes to the consumer
    addressed: seq<Message>, // data messages routed to it, written or not
    handled: seq<Message>,   // messages it read
    acked: seq<nat>,         // acknowledgements the dispatcher read
    lost: nat,               // acknowledgements whose write failed
    failed: nat,             // writes to the consumer that failed
    missed: nat,             // rounds that wrote and read no acknowledgement
    spare: nat,              // rounds that failed to write and read one
    skipped: nat,            // rounds that ended in a failing select() or read()
    stopTried: bool,
    stopSent: bool,
    readFailed: bool)

  // A consumer with its two pipes. An acknowledgement carries no information; the number it is
  // given here is the position of the message it answers.
  datatype Consumer = Consumer(
    pc: ConsumerPc,
    down: seq<Message>,      // the pipe from the dispatcher
    up: seq<nat>,            // the pipe back
    readOpen: bool,          // the consumer's two ends
    ackOpen: bool,
    writeOpen: bool,         // the dispatcher's two ends
    listenOpen: bool,
    room: nat,               // how many messages each of the two pipes holds
    log: Log)

  datatype Round = Data(group: nat) | Stop

  datatype DispatcherPc =
    | Receive
    | Write(m: Message)
    | Wait(k: nat, wrote: bool, round: Round)
    | ReadAck(k: nat, wrote: bool, round: Round)
    | StopWrite(k: nat)
    | CloseListen(k: nat)
    | CloseWrite(k: nat)
    | Done

  datatype State = State(
    groups: nat,
    slots: nat,
    queue: seq<Message>,
    pc: DispatcherPc,
    current: seq<nat>,
    consumers: seq<Consumer>,
    arrived: seq<Message>,   // auxiliary: everything ever queued
    received: seq<Message>,  // auxiliary: everything the dispatcher received
    routed: seq<Message>)    // auxiliary: the data messages it routed

  // What the environment lets a call do.
  datatype Outcome = Fine | Again | Fails

  datatype Move =
    | Enqueue(m: Message)
    | Dispatch(o: Outcome)
    | Consume(k: nat, o: Outcome)

  // The stop message; its other fields are never read.
  const STOP_MSG: Message := Message(0, 0, 0, STOP_MESSAGE, 0, "", "", "")

  function Target(s: State, group: nat): nat
    requires group < |s.current|
  {
    group * s.slots + s.current[group]
  }

  // select() reports the return pipe: something to read, or its other end is closed.
  predicate Ready(c: Consumer) {
    c.up != [] || !c.ackOpen
  }

  function SetConsumer(s: State, k: nat, c: Consumer): State
    requires k < |s.consumers|
  {
    s.(consumers := s.consumers[k := c])
  }

  // ---------- the dispatcher ----------

  // write() to consumer `k`; a closed other end makes it fail.
  predicate Writes(c: Consumer, o: Outcome) {
    o.Fine? && c.readOpen
  }

  function SendData(c: Consumer, m: Message, wrote: bool): Consumer {
    if wrote then c.(down := c.down + [m],
                     log := c.log.(sent := c.log.sent + [m], addressed := c.log.addressed + [m]))
    else c.(log := c.log.(addressed := c.log.addressed + [m], failed := c.log.failed + 1))
  }

  function SendStop(c: Consumer, wrote: bool): Consumer {
    if wrote then c.(down := c.down + [STOP_MSG],
                     log := c.log.(sent := c.log.sent + [STOP_MSG], stopTried := true, stopSent := true))
    else c.(log := c.log.(failed := c.log.failed + 1, stopTried := true))
  }

  // A round ends with a read, `Fine`; with a wait that ran out, `Again`; or with a failing call.
  function EndRound(c: Consumer, wrote: bool, how: Outcome): Consumer {
    if how.Fine? && c.up != [] then
      c.(up := c.up[1..],
         log := c.log.(acked := c.log.acked + [c.up[0]], spare := c.log.spare + if wrote then 0 else 1))
    else
      c.(log := c.log.(missed := c.log.missed + if wrote then 1 else 0,
                       skipped := c.log.skipped + if how.Fails? then 1 else 0))
  }

  // After a round: the next consumer of the group, or the next consumer to be stopped.
  function Advance(s: State, k: nat, round: Round): State {
    match round
    case Data(g) =>
      if g < |s.current| && s.slots > 0
      then s.(current := s.current[g := (s.current[g] + 1) % s.slots], pc := Receive) else s
    case Stop =>
      s.(pc := if k + 1 < |s.consumers| then StopWrite(k + 1) else CloseListen(0))
  }

  function Conclude(s: State, k: nat, wrote: bool, round: Round, how: Outcome): State
    requires k < |s.consumers|
  {
    Advance(SetConsumer(s, k, EndRound(s.consumers[k], wrote, how)), k, round)
  }

  // A write returns when there is room for the message or nobody to read it.
  predicate CanWrite(pipe: nat, room: nat, readable: bool) {
    pipe < room || !readable
  }

  predicate TakesWrite(c: Consumer, o: Outcome) {
    !o.Again? && (o.Fine? ==> CanWrite(|c.down|, c.room, c.readOpen))
  }

  // Whether the dispatcher's next call returns, with this outcome.
  predicate CanDispatch(s: State, o: Outcome) {
    match s.pc
    case Receive => !o.Fine? || s.queue != []
    case Write(m) =>
      m.category < |s.current| && Target(s, m.category) < |s.consumers| &&
      TakesWrite(s.consumers[Target(s, m.category)], o)
    case Wait(k, _, _) =>
      k < |s.consumers| && (o.Fine? ==> Ready(s.consumers[k])) && (o.Again? ==> !Ready(s.consumers[k]))
    case ReadAck(k, _, _) => k < |s.consumers| && !o.Again? && (o.Fine? ==> Ready(s.consumers[k]))
    case StopWrite(k) => k < |s.consumers| && TakesWrite(s.consumers[k], o)
    case CloseListen(k) => k < |s.consumers| && o.Fine?
    case CloseWrite(k) => k < |s.consumers| && o.Fine?
    case Done => false
  }

  function DispatchStep(s: State, o: Outcome): State
    requires CanDispatch(s, o)
  {
    match s.pc
    case Receive =>
      if o.Again? then s
      else if o.Fails? then s.(pc := StopWrite(0))
      else
        var m := s.queue[0];
        s.(queue := s.queue[1..], received := s.received + [m],
           pc := if m.op == STOP_MESSAGE then StopWrite(0) else Write(m))
    case Write(m) =>
      var k := Target(s, m.category);
      var wrote := Writes(s.consumers[k], o);
      SetConsumer(s, k, SendData(s.consumers[k], m, wrote))
        .(routed := s.routed + [m], pc := Wait(k, wrote, Data(m.category)))
    case Wait(k, wrote, round) =>
      if o.Fine? then s.(pc := ReadAck(k, wrote, round)) else Conclude(s, k, wrote, round, o)
    case ReadAck(k, wrote, round) => Conclude(s, k, wrote, round, o)
    case StopWrite(k) =>
      var wrote := Writes(s.consumers[k], o);
      SetConsumer(s, k, SendStop(s.consumers[k], wrote)).(pc := Wait(k, wrote, Stop))
    case CloseListen(k) =>
      SetConsumer(s, k, s.consumers[k].(listenOpen := false)).(pc := CloseWrite(k))
    case CloseWrite(k) =>
      SetConsumer(s, k, s.consumers[k].(writeOpen := false))
        .(pc := if k + 1 < |s.consumers| then CloseListen(k + 1) else Done)
  }

  // ---------- a consumer ----------

  // read() blocks while the pipe is empty and its other end open.
  predicate CanConsume(c: Consumer, o: Outcome) {
    match c.pc
    case Reading => o.Fails? || (o.Fine? && (c.down != [] || !c.writeOpen))
    case Acking(_) => !o.Again? && (o.Fine? ==> CanWrite(|c.up|, c.room, c.listenOpen))
    case LeavingRead => o.Fine?
    case LeavingWrite => o.Fine?
    case Gone => false
  }

  function ConsumeStep(c: Consumer, o: Outcome): Consumer
    requires CanConsume(c, o)
  {
    match c.pc
    case Reading =>
      if o.Fails? then c.(pc := LeavingRead, log := c.log.(readFailed := true))
      else if c.down == [] then c.(pc := LeavingRead)
      else c.(pc := Acking(c.down[0]), down := c.down[1..],
               log := c.log.(handled := c.log.handled + [c.down[0]]))
    case Acking(m) =>
      var next := if m.op == STOP_MESSAGE then LeavingRead else Reading;
      if o.Fine? && c.listenOpen && c.log.handled != [] then c.(pc := next, up := c.up + [|c.log.handled| - 1])
      else c.(pc := next, log := c.log.(lost := c.log.lost + 1))
    case LeavingRead => c.(pc := LeavingWrite, readOpen := false)
    case LeavingWrite => c.(pc := Gone, ackOpen := false)
  }

  // ---------- runs ----------

  // Producers send only stop messages and messages of an existing group.
  predicate Sendable(m: Message, groups: nat) {
    m.op == STOP_MESSAGE || m.category < groups
  }

  predicate Enabled(s: State, mv: Move) {
    match mv
    case Enqueue(m) => |s.queue| < QUEUE_SIZE && Sendable(m, s.groups)
    case Dispatch(o) => CanDispatch(s, o)
    case Consume(k, o) => k < |s.consumers| && CanConsume(s.consumers[k], o)
  }

  function Step(s: State, mv: Move): State {
    if !Enabled(s, mv) then s
    else match mv
      case Enqueue(m) => s.(queue := s.queue + [m], arrived := s.arrived + [m])
      case Dispatch(o) => DispatchStep(s, o)
      case Consume(k, o) => SetConsumer(s, k, ConsumeStep(s.consumers[k], o))
  }

  const FRESH: Consumer :=
    Consumer(Reading, [], [], true, true, true, true, 1, Log([], [], [], [], 0, 0, 0, 0, 0, false, false, false))

  function Repeat<T>(x: T, n: nat): (r: seq<T>)
    ensures |r| == n && forall k :: 0 <= k < n ==> r[k] == x
  {
    if n == 0 then [] else Repeat(x, n - 1) + [x]
  }

  // Pipes that hold `room` messages.
  function Init(groups: nat, slots: nat, room: nat): State {
    State(groups, slots, [], Receive, Repeat(0, groups), Repeat(FRESH.(room := room), groups * slots), [], [], [])
  }

  function Run(s: State, moves: seq<Move>): State {
    if moves == [] then s else Step(Run(s, moves[..|moves| - 1]), moves[|moves| - 1])
  }
}
