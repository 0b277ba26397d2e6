/** The promises of the dispatcher and its consumers, for any number of groups and consumers and
    every run of the environment. */
module DispatchTheorems {
  import opened Messages
  import opened Dealing
  import opened DispatchMachine
  import opened DispatchInvariant
  import opened DispatchPipes

  // ---------- acknowledgements ----------

  // What is under way to and from a consumer.
  function UnderWay(c: Consumer): nat {
    |c.down| + InHand(c) + |c.up| + c.log.lost
  }

  // Sends minus acknowledgements read is what is under way, and also the rounds that ended
  // without an acknowledgement, minus those that failed to write and still read one, plus one
  // while a round that wrote is going on. Acknowledgements arrive in the order of the sends; the
  // i-th one read answers the i-th send unless one was lost.
  lemma AcknowledgementDeficit(s: State, groups: nat, slots: nat, k: nat)
    requires groups > 0 && slots > 0 && Reachable(s, groups, slots) && k < |s.consumers|
    ensures var c := s.consumers[k];
            && |c.log.sent| - |c.log.acked| == UnderWay(c)
            && UnderWay(c) == c.log.missed - c.log.spare + Waiting(s.pc, k)
            && (c.log.failed == 0 ==> c.log.spare == 0)
            && (forall i, j :: 0 <= i < j < |c.log.acked| ==> i <= c.log.acked[i] < c.log.acked[j])
            && (c.log.lost == 0 ==> forall i :: 0 <= i < |c.log.acked| ==> c.log.acked[i] == i)
  {
    ReachableInv(s, groups, slots);
    var c := s.consumers[k];
    assert ConsumerInv(c) && AtInv(c, PlaceOf(s.pc, k));
    assert forall i :: 0 <= i < |c.log.acked| ==> (c.log.acked + c.up)[i] == c.log.acked[i];
  }

  ghost predicate LogGrows(c: Consumer, c': Consumer) {
    && c.log.sent <= c'.log.sent && c.log.handled <= c'.log.handled && c.log.acked <= c'.log.acked
    && c.log.missed <= c'.log.missed && c.log.failed <= c'.log.failed
  }

  lemma ConsumeGrows(c: Consumer, o: Outcome)
    requires CanConsume(c, o)
    ensures LogGrows(c, ConsumeStep(c, o))
  {
    var c' := ConsumeStep(c, o);
    assert c'.log.sent == c.log.sent && c'.log.acked == c.log.acked && c'.log.missed == c.log.missed &&
           c'.log.failed == c.log.failed;
    assert c.log.handled <= c'.log.handled;
  }

  lemma ConcludeGrows(s: State, i: nat, wrote: bool, round: Round, how: Outcome, k: nat)
    requires k < |s.consumers| && i < |s.consumers|
    ensures var s' := Conclude(s, i, wrote, round, how);
            |s'.consumers| == |s.consumers| && LogGrows(s.consumers[k], s'.consumers[k])
  {
    assert Conclude(s, i, wrote, round, how).consumers == s.consumers[i := EndRound(s.consumers[i], wrote, how)];
  }

  lemma DispatchGrows(s: State, o: Outcome, k: nat)
    requires k < |s.consumers| && CanDispatch(s, o)
    ensures var s' := DispatchStep(s, o);
            |s'.consumers| == |s.consumers| && LogGrows(s.consumers[k], s'.consumers[k])
  {
    match s.pc
    case Wait(i, wrote, round) => ConcludeGrows(s, i, wrote, round, o, k);
    case ReadAck(i, wrote, round) => ConcludeGrows(s, i, wrote, round, o, k);
    case _ =>
  }

  lemma StepGrows(s: State, mv: Move, k: nat)
    requires k < |s.consumers|
    ensures var s' := Step(s, mv); |s'.consumers| == |s.consumers| && LogGrows(s.consumers[k], s'.consumers[k])
  {
    if Enabled(s, mv) {
      match mv
      case Enqueue(_) =>
      case Dispatch(o) => DispatchGrows(s, o, k);
      case Consume(i, o) => ConsumeGrows(s.consumers[i], o);
    }
  }

  lemma {:induction false} RunGrows(s: State, moves: seq<Move>, k: nat)
    requires k < |s.consumers|
    ensures |Run(s, moves).consumers| == |s.consumers| && LogGrows(s.consumers[k], Run(s, moves).consumers[k])
  {
    if moves != [] {
      RunGrows(s, moves[..|moves| - 1], k);
      StepGrows(Run(s, moves[..|moves| - 1]), moves[|moves| - 1], k);
    }
  }

  // If no round has ended without its acknowledgement, at most one message is under way in the
  // whole system, and it is the one the dispatcher is waiting for.
  lemma OneInFlight(s: State, groups: nat, slots: nat)
    requires groups > 0 && slots > 0 && Reachable(s, groups, slots)
    requires forall k :: 0 <= k < |s.consumers| ==> s.consumers[k].log.missed == 0
    ensures forall k :: 0 <= k < |s.consumers| ==>
              UnderWay(s.consumers[k]) <= if InRound(s.pc) && s.pc.k == k && s.pc.wrote then 1 else 0
  {
    ReachableInv(s, groups, slots);
    forall k | 0 <= k < |s.consumers|
      ensures UnderWay(s.consumers[k]) <= if InRound(s.pc) && s.pc.k == k && s.pc.wrote then 1 else 0
    {
      AcknowledgementDeficit(s, groups, slots, k);
    }
  }

  // ---------- routing ----------

  lemma {:induction false} DataBeforeStop(ms: seq<Message>, rest: seq<Message>)
    requires forall m :: m in ms ==> m.op != STOP_MESSAGE
    requires rest == [] || rest[0].op == STOP_MESSAGE
    ensures BeforeStop(ms + rest) == ms
  {
    if ms == [] {
      assert ms + rest == rest;
    } else {
      assert ms[0] in ms && (ms + rest)[1..] == ms[1..] + rest;
      assert forall m :: m in ms[1..] ==> m in ms;
      DataBeforeStop(ms[1..], rest);
    }
  }

  // The data messages addressed to `n` consumers, from number `first` on.
  function Streams(s: State, first: nat, n: nat): (r: seq<seq<Message>>)
    requires first + n <= |s.consumers|
    ensures |r| == n && forall j :: 0 <= j < n ==> r[j] == s.consumers[first + j].log.addressed
  {
    if n == 0 then [] else Streams(s, first, n - 1) + [s.consumers[first + n - 1].log.addressed]
  }

  // The dispatcher takes messages in the order they were queued, and routes those before the
  // first stop; the one in its hand is still to be routed.
  lemma RoutedIsDataPrefix(s: State, groups: nat, slots: nat)
    requires groups > 0 && slots > 0 && Reachable(s, groups, slots)
    ensures s.received <= s.arrived && s.arrived == s.received + s.queue && |s.queue| <= 10
    ensures BeforeStop(s.received) == if s.pc.Write? then s.routed + [s.pc.m] else s.routed
  {
    ReachableInv(s, groups, slots);
    if s.pc.Write? {
      assert s.received + [] == s.received;
      DataBeforeStop(s.received, []);
    } else if s.received == s.routed {
      assert s.received + [] == s.received;
      DataBeforeStop(s.routed, []);
    } else {
      var m: Message :| m.op == STOP_MESSAGE && s.received == s.routed + [m];
      DataBeforeStop(s.routed, [m]);
    }
  }

  // The n-th message of a group goes to its consumer n mod `slots`: the streams of the group's
  // consumers, collected in turn, are exactly the group's routed messages, whatever was
  // acknowledged, missed or lost; and no consumer of a group is ahead by more than one.
  lemma RoundRobin(s: State, groups: nat, slots: nat, g: nat)
    requires groups > 0 && slots > 0 && Reachable(s, groups, slots) && g < groups
    ensures |s.consumers| == groups * slots && g * slots + slots <= |s.consumers| && s.slots == slots
    ensures var streams := Streams(s, g * slots, slots);
            MergeTo(streams, OfGroup(s.routed, g)) && Balanced(streams)
  {
    ReachableInv(s, groups, slots);
    GroupFits(g, groups, slots);
    StreamsMerge(s, g, g * slots);
  }

  lemma StreamsMerge(s: State, g: nat, first: nat)
    requires Sized(s) && Routed(s) && g < s.groups && first == g * s.slots && first + s.slots <= |s.consumers|
    ensures MergeTo(Streams(s, first, s.slots), OfGroup(s.routed, g)) && Balanced(Streams(s, first, s.slots))
  {
    StreamsDealt(s, g, first);
    DealtMerges(Streams(s, first, s.slots), OfGroup(s.routed, g));
    DealtBalanced(Streams(s, first, s.slots), OfGroup(s.routed, g));
  }

  lemma GroupFits(g: nat, groups: nat, slots: nat)
    requires g < groups
    ensures g * slots + slots <= groups * slots
  {
    MulGap(slots, g, groups);
    assert g * slots == slots * g && groups * slots == slots * groups;
  }

  lemma StreamsDealt(s: State, g: nat, first: nat)
    requires Sized(s) && Routed(s) && g < s.groups && first == g * s.slots && first + s.slots <= |s.consumers|
    ensures DealtTo(Streams(s, first, s.slots), OfGroup(s.routed, g))
  {
    forall j | 0 <= j < s.slots ensures Streams(s, first, s.slots)[j] == Deal(OfGroup(s.routed, g), s.slots, j) {
      Numbering(g, j, s.groups, s.slots);
      DealtToConsumer(s, first + j, g, j);
    }
  }

  lemma DealtToConsumer(s: State, k: nat, g: nat, j: nat)
    requires Sized(s) && Routed(s) && k < |s.consumers| && k / s.slots == g && k % s.slots == j
    ensures s.consumers[k].log.addressed == Deal(OfGroup(s.routed, g), s.slots, j)
  {
    assert DealtAt(s, k);
  }

  // ---------- draining ----------

  // A consumer that stopped reading, by a stop or by end of file, and whose reads and the writes
  // to it succeeded, has handled every message addressed to it, in order, then one stop, and
  // nothing else.
  lemma Drained(s: State, groups: nat, slots: nat, k: nat)
    requires groups > 0 && slots > 0 && Reachable(s, groups, slots) && k < |s.consumers|
    requires Left(s.consumers[k]) && !s.consumers[k].log.readFailed && s.consumers[k].log.failed == 0
    ensures s.consumers[k].down == []
    ensures s.consumers[k].log.handled == s.consumers[k].log.addressed + [STOP_MSG]
    ensures forall m :: m in s.consumers[k].log.addressed ==> m.op != STOP_MESSAGE
  {
    ReachableInv(s, groups, slots);
    EmptiedPipe(s.consumers[k]);
  }

  lemma EmptiedPipe(c: Consumer)
    requires ConsumerInv(c) && Left(c) && !c.log.readFailed && c.log.failed == 0
    ensures c.down == [] && c.log.handled == c.log.addressed + [STOP_MSG]
    ensures forall m :: m in c.log.addressed ==> m.op != STOP_MESSAGE
  {
    assert c.log.sent == c.log.handled + [];
  }

  // Even with failures a consumer handles a prefix of what was sent to it, in order.
  lemma HandlesInOrder(s: State, groups: nat, slots: nat, k: nat)
    requires groups > 0 && slots > 0 && Reachable(s, groups, slots) && k < |s.consumers|
    ensures s.consumers[k].log.handled <= s.consumers[k].log.sent
    ensures s.consumers[k].log.sent == s.consumers[k].log.handled + s.consumers[k].down
  {
    ReachableInv(s, groups, slots);
    assert ConsumerInv(s.consumers[k]);
  }

  // ---------- termination ----------

  // The dispatcher has left its receive loop.
  predicate Stopping(pc: DispatcherPc) {
    pc.StopWrite? || pc.CloseListen? || pc.CloseWrite? || pc.Done? || (InRound(pc) && pc.round.Stop?)
  }

  function DispatcherLeft(pc: DispatcherPc, n: nat): int {
    match pc
    case StopWrite(k) => 2 * n + 2 + 6 * (n - k)
    case Wait(k, _, _) => 2 * n - 2 + 6 * (n - k)
    case ReadAck(k, _, _) => 2 * n - 3 + 6 * (n - k)
    case CloseListen(k) => 2 * (n - k) + 1
    case CloseWrite(k) => 2 * (n - k)
    case _ => 0
  }

  function ConsumerLeft(c: Consumer): nat {
    2 * |c.down| + match c.pc
                   case Gone => 0
                   case LeavingWrite => 1
                   case LeavingRead => 2
                   case Reading => 3
                   case Acking(_) => 4
  }

  function ConsumersLeft(cs: seq<Consumer>): nat {
    if cs == [] then 0 else ConsumersLeft(cs[..|cs| - 1]) + ConsumerLeft(cs[|cs| - 1])
  }

  function StepsLeft(s: State): int {
    DispatcherLeft(s.pc, |s.consumers|) + ConsumersLeft(s.consumers)
  }

  lemma {:induction false} LeftUpdate(cs: seq<Consumer>, k: nat, c: Consumer)
    requires k < |cs|
    ensures ConsumersLeft(cs[k := c]) == ConsumersLeft(cs) - ConsumerLeft(cs[k]) + ConsumerLeft(c)
  {
    var n := |cs| - 1;
    if k < n {
      assert cs[k := c][..n] == cs[..n][k := c];
      LeftUpdate(cs[..n], k, c);
    } else {
      assert cs[k := c][..n] == cs[..n];
    }
  }

  lemma LeftNonNegative(s: State)
    requires PcInv(s) && Stopping(s.pc)
    ensures 0 <= StepsLeft(s)
  {}

  lemma ConsumeDecreases(s: State, k: nat, o: Outcome)
    requires k < |s.consumers| && CanConsume(s.consumers[k], o)
    ensures StepsLeft(SetConsumer(s, k, ConsumeStep(s.consumers[k], o))) < StepsLeft(s)
  {
    LeftUpdate(s.consumers, k, ConsumeStep(s.consumers[k], o));
  }

  lemma ConcludeDecreases(s: State, k: nat, wrote: bool, how: Outcome)
    requires InRound(s.pc) && s.pc.round.Stop? && s.pc.k == k < |s.consumers|
    ensures var s' := Conclude(s, k, wrote, Stop, how);
            Stopping(s'.pc) && StepsLeft(s') < StepsLeft(s)
  {
    LeftUpdate(s.consumers, k, EndRound(s.consumers[k], wrote, how));
    assert Conclude(s, k, wrote, Stop, how).consumers == s.consumers[k := EndRound(s.consumers[k], wrote, how)];
  }

  lemma DispatchDecreases(s: State, o: Outcome)
    requires Stopping(s.pc) && PcInv(s) && CanDispatch(s, o)
    ensures var s' := DispatchStep(s, o);
            Stopping(s'.pc) && StepsLeft(s') < StepsLeft(s)
  {
    match s.pc
    case Wait(k, wrote, _) => if !o.Fine? { ConcludeDecreases(s, k, wrote, o); }
    case ReadAck(k, wrote, _) => ConcludeDecreases(s, k, wrote, o);
    case StopWrite(k) => LeftUpdate(s.consumers, k, SendStop(s.consumers[k], Writes(s.consumers[k], o)));
    case CloseListen(k) => LeftUpdate(s.consumers, k, s.consumers[k].(listenOpen := false));
    case CloseWrite(k) => LeftUpdate(s.consumers, k, s.consumers[k].(writeOpen := false));
  }

  lemma StepDecreases(s: State, mv: Move)
    requires PcInv(s) && Stopping(s.pc) && Enabled(s, mv) && !mv.Enqueue?
    ensures var s' := Step(s, mv);
            Stopping(s'.pc) && StepsLeft(s') < StepsLeft(s)
  {
    match mv
    case Dispatch(o) => DispatchDecreases(s, o);
    case Consume(k, o) => ConsumeDecreases(s, k, o);
  }

  // Every step of the dispatcher or of a consumer uses up part of a bounded amount.
  lemma StoppingDecreases(s: State, mv: Move)
    requires Inv(s) && Stopping(s.pc) && Enabled(s, mv) && !mv.Enqueue?
    ensures var s' := Step(s, mv);
            Stopping(s'.pc) && 0 <= StepsLeft(s') < StepsLeft(s)
  {
    StepDecreases(s, mv);
    StepInv(s, mv);
    LeftNonNegative(Step(s, mv));
  }

  // All processes have finished.
  predicate Finished(s: State) {
    s.pc.Done? && forall k :: 0 <= k < |s.consumers| ==> s.consumers[k].pc.Gone?
  }

  // A move in which no call fails. A wait for an acknowledgement that runs out is one.
  predicate Calm(mv: Move) {
    match mv
    case Enqueue(_) => false
    case Dispatch(o) => !o.Fails?
    case Consume(_, o) => o.Fine?
  }

  // No process can do anything more unless a call fails.
  ghost predicate Stuck(s: State) {
    !exists mv: Move :: Calm(mv) && Enabled(s, mv) && Step(s, mv) != s
  }

  // The dispatcher reads an acknowledgement only where it does not have to wait for one.
  ghost predicate AckReady(s: State) {
    s.pc.ReadAck? && s.pc.k < |s.consumers| ==> Ready(s.consumers[s.pc.k])
  }

  lemma ConcludeAckReady(s: State, o: Outcome)
    requires PcInv(s) && CanDispatch(s, o) && s.slots > 0
    ensures AckReady(DispatchStep(s, o))
  {}

  lemma StepAckReady(s: State, mv: Move)
    requires AckReady(s) && PcInv(s) && s.slots > 0
    ensures AckReady(Step(s, mv))
  {
    if mv.Dispatch? && Enabled(s, mv) { ConcludeAckReady(s, mv.o); }
  }

  lemma {:induction false} RunAckReady(s: State, moves: seq<Move>)
    requires Inv(s) && AckReady(s)
    ensures AckReady(Run(s, moves))
  {
    if moves != [] {
      var before := Run(s, moves[..|moves| - 1]);
      RunAckReady(s, moves[..|moves| - 1]);
      RunInv(s, moves[..|moves| - 1]);
      StepAckReady(before, moves[|moves| - 1]);
    }
  }

  lemma ReachableAckReady(s: State, groups: nat, slots: nat)
    requires groups > 0 && slots > 0 && Reachable(s, groups, slots)
    ensures AckReady(s)
  {
    var room: nat, moves :| room > 0 && s == Run(Init(groups, slots, room), moves);
    InitInv(groups, slots, room);
    RunAckReady(Init(groups, slots, room), moves);
  }

  // A consumer whose pipes the dispatcher has closed never waits.
  lemma ClosedNeverWaits(c: Consumer)
    requires !c.writeOpen && !c.listenOpen && !c.pc.Gone?
    ensures CanConsume(c, Fine) && ConsumeStep(c, Fine).pc != c.pc
  {}

  // Nor does the dispatcher, but for a message to receive, or for room to write.
  lemma DispatcherGoesOn(s: State) returns (o: Outcome)
    requires Shape(s) && AckReady(s) && !s.pc.Done? && !(s.pc.Receive? && s.queue == [])
    requires forall k: nat :: !BlockedAt(s, k)
    ensures !o.Fails? && CanDispatch(s, o) && DispatchStep(s, o).pc != s.pc
  {
    o := if s.pc.Wait? && !Ready(s.consumers[s.pc.k]) then Again else Fine;
    if s.pc.Write? {
      Numbering(s.pc.m.category, s.current[s.pc.m.category], s.groups, s.slots);
      assert !BlockedAt(s, Target(s, s.pc.m.category));
    } else if s.pc.StopWrite? {
      assert !BlockedAt(s, s.pc.k);
    }
  }

  // Fewer waits have failed on each consumer than its pipes hold messages.
  ghost predicate FewSkips(s: State) {
    forall k :: 0 <= k < |s.consumers| ==> s.consumers[k].log.skipped < s.consumers[k].room
  }

  // Until all have finished, some process can go on without any call failing, unless the
  // dispatcher is waiting for a message to be queued, or it and a consumer wait for each other;
  // and that takes as many failed waits on the consumer as a pipe holds messages.
  lemma NoDeadlock(s: State, groups: nat, slots: nat)
    requires groups > 0 && slots > 0 && Reachable(s, groups, slots)
    requires !Finished(s) && !(s.pc.Receive? && s.queue == [])
    ensures Stuck(s) ==> Jammed(s)
    ensures FewSkips(s) ==> !Stuck(s)
  {
    ReachableInv(s, groups, slots);
    ReachableAckReady(s, groups, slots);
    if Stuck(s) {
      GoesOn(s);
      NoJam(s, groups, slots);
    }
  }

  lemma NoJam(s: State, groups: nat, slots: nat)
    requires groups > 0 && slots > 0 && Reachable(s, groups, slots)
    ensures FewSkips(s) ==> !Jammed(s)
  {
    if Jammed(s) {
      var k: nat :| JammedAt(s, k);
      JamNeedsSkips(s, groups, slots, k);
    }
  }

  lemma GoesOn(s: State)
    requires Shape(s) && ConsumersInv(s) && AckReady(s)
    requires !Finished(s) && !(s.pc.Receive? && s.queue == [])
    ensures Stuck(s) ==> Jammed(s)
  {
    if s.pc.Done? {
      var k: nat :| k < |s.consumers| && !s.consumers[k].pc.Gone?;
      assert AtInv(s.consumers[k], PlaceOf(s.pc, k));
      ClosedNeverWaits(s.consumers[k]);
      ConsumerMoves(s, k);
    } else if k: nat :| BlockedAt(s, k) {
      assert ConsumerInv(s.consumers[k]);
      if !JammedAt(s, k) {
        ReaderGoesOn(s.consumers[k]);
        ConsumerMoves(s, k);
      }
    } else {
      var o := DispatcherGoesOn(s);
      assert Step(s, Dispatch(o)).pc != s.pc;
      assert Enabled(s, Dispatch(o)) && Calm(Dispatch(o));
    }
  }

  lemma ConsumerMoves(s: State, k: nat)
    requires k < |s.consumers| && CanConsume(s.consumers[k], Fine)
    requires ConsumeStep(s.consumers[k], Fine).pc != s.consumers[k].pc
    ensures !Stuck(s)
  {
    assert Step(s, Consume(k, Fine)).consumers[k] != s.consumers[k];
    assert Enabled(s, Consume(k, Fine)) && Calm(Consume(k, Fine));
  }

  // Once they wait for each other only a failing call ends it.
  lemma JamStays(s: State, mv: Move, k: nat)
    requires JammedAt(s, k) && (Calm(mv) || mv.Enqueue?)
    ensures JammedAt(Step(s, mv), k)
  {}

  // Moves of the processes, each of which took effect.
  ghost predicate Effective(s: State, moves: seq<Move>) {
    moves == [] ||
    var before, last := moves[..|moves| - 1], moves[|moves| - 1];
    Effective(s, before) && !last.Enqueue? && Enabled(Run(s, before), last)
  }

  lemma {:induction false} EveryRunEnds(s: State, moves: seq<Move>)
    requires Inv(s) && Stopping(s.pc) && Effective(s, moves)
    ensures Stopping(Run(s, moves).pc) && 0 <= StepsLeft(Run(s, moves)) <= StepsLeft(s) - |moves|
  {
    if moves == [] {
      assert PcInv(s);
      LeftNonNegative(s);
    } else {
      var before := moves[..|moves| - 1];
      EveryRunEnds(s, before);
      RunInv(s, before);
      StoppingDecreases(Run(s, before), moves[|moves| - 1]);
    }
  }

  // Once the dispatcher has left its loop, every run of the processes is bounded, failing calls
  // or not; and it can go on without a failing call until all processes have finished, unless the
  // dispatcher and a consumer wait for each other.
  lemma Termination(s: State, groups: nat, slots: nat, moves: seq<Move>)
    requires groups > 0 && slots > 0 && Reachable(s, groups, slots)
    requires Stopping(s.pc) && Effective(s, moves)
    ensures |moves| <= StepsLeft(s)
    ensures Finished(Run(s, moves)) ==> Stuck(Run(s, moves))
    ensures Stuck(Run(s, moves)) ==> Finished(Run(s, moves)) || Jammed(Run(s, moves))
    ensures FewSkips(Run(s, moves)) ==> (Finished(Run(s, moves)) <==> Stuck(Run(s, moves)))
  {
    ReachableInv(s, groups, slots);
    EveryRunEnds(s, moves);
    RunInv(s, moves);
    ReachableAckReady(s, groups, slots);
    RunAckReady(s, moves);
    var end := Run(s, moves);
    ReachableRun(s, groups, slots, moves);
    NoJam(end, groups, slots);
    if Finished(end) { AllStopped(end); } else { GoesOn(end); }
  }

  lemma ReachableRun(s: State, groups: nat, slots: nat, moves: seq<Move>)
    requires Reachable(s, groups, slots)
    ensures Reachable(Run(s, moves), groups, slots)
  {
    var room: nat, before :| room > 0 && s == Run(Init(groups, slots, room), before);
    RunAppend(Init(groups, slots, room), before, moves);
  }

  lemma AllStopped(s: State)
    requires Finished(s)
    ensures Stuck(s)
  {}

  // No read by this consumer and no write to it has failed.
  predicate Clean(c: Consumer) {
    !c.log.readFailed && c.log.failed == 0
  }

  // It stays so while no call fails: a stop is written only where the consumer still reads.
  lemma CalmStepClean(s: State, mv: Move, k: nat)
    requires Inv(s) && Stopping(s.pc) && Calm(mv) && Enabled(s, mv) && k < |s.consumers| && Clean(s.consumers[k])
    ensures |Step(s, mv).consumers| == |s.consumers| && Clean(Step(s, mv).consumers[k])
  {
    assert ConsumerInv(s.consumers[k]) && AtInv(s.consumers[k], PlaceOf(s.pc, k));
    match mv
    case Dispatch(o) => CalmDispatchClean(s, o, k);
    case Consume(i, o) =>
  }

  lemma CalmDispatchClean(s: State, o: Outcome, k: nat)
    requires Stopping(s.pc) && !o.Fails? && CanDispatch(s, o) && k < |s.consumers| && Clean(s.consumers[k])
    requires LeftForAReason(s.consumers[k]) && AtInv(s.consumers[k], PlaceOf(s.pc, k))
    ensures |DispatchStep(s, o).consumers| == |s.consumers| && Clean(DispatchStep(s, o).consumers[k])
  {
    match s.pc
    case Wait(i, wrote, round) =>
      if !o.Fine? {
        assert DispatchStep(s, o).consumers == s.consumers[i := EndRound(s.consumers[i], wrote, o)];
      }
    case ReadAck(i, wrote, round) =>
      assert DispatchStep(s, o).consumers == s.consumers[i := EndRound(s.consumers[i], wrote, o)];
    case StopWrite(i) => assert i == k ==> s.consumers[k].readOpen;
    case _ =>
  }

  lemma {:induction false} CalmRunClean(s: State, moves: seq<Move>, k: nat)
    requires Inv(s) && Stopping(s.pc) && Effective(s, moves) && k < |s.consumers| && Clean(s.consumers[k])
    requires forall mv :: mv in moves ==> Calm(mv)
    ensures |Run(s, moves).consumers| == |s.consumers| && Clean(Run(s, moves).consumers[k])
  {
    if moves != [] {
      var before := moves[..|moves| - 1];
      assert moves[|moves| - 1] in moves && forall mv :: mv in before ==> mv in moves;
      CalmRunClean(s, before, k);
      EveryRunEnds(s, before);
      RunInv(s, before);
      CalmStepClean(Run(s, before), moves[|moves| - 1], k);
    }
  }

  lemma CalmStepSkips(s: State, mv: Move)
    requires Enabled(s, mv) && Calm(mv) && FewSkips(s)
    ensures FewSkips(Step(s, mv))
  {
    var s' := Step(s, mv);
    forall k | 0 <= k < |s'.consumers| ensures s'.consumers[k].log.skipped < s'.consumers[k].room {
      if mv.Dispatch? { DispatchSkips(s, mv.o, k); } else { ConsumeHeld(s.consumers[mv.k], mv.o); }
    }
  }

  lemma DispatchSkips(s: State, o: Outcome, k: nat)
    requires CanDispatch(s, o) && !o.Fails? && k < |s.consumers|
    ensures var s' := DispatchStep(s, o);
            |s'.consumers| == |s.consumers| && s'.consumers[k].room == s.consumers[k].room &&
            s'.consumers[k].log.skipped == s.consumers[k].log.skipped
  {
    if (s.pc.Wait? && !o.Fine?) || s.pc.ReadAck? {
      assert DispatchStep(s, o).consumers == s.consumers[s.pc.k := EndRound(s.consumers[s.pc.k], s.pc.wrote, o)];
    }
  }

  lemma {:induction false} CalmRunSkips(s: State, moves: seq<Move>)
    requires Effective(s, moves) && FewSkips(s) && (forall mv :: mv in moves ==> Calm(mv))
    ensures FewSkips(Run(s, moves))
  {
    if moves != [] {
      var before := moves[..|moves| - 1];
      assert moves[|moves| - 1] in moves && forall mv :: mv in before ==> mv in moves;
      CalmRunSkips(s, before);
      CalmStepSkips(Run(s, before), moves[|moves| - 1]);
    }
  }

  // So where no call fails any more and nothing is left to do, every consumer that no failure
  // hit before has handled all messages addressed to it, in order, then one stop, and has gone;
  // unless the dispatcher and a consumer wait for each other, for which it takes, before, as many
  // failed waits as a pipe holds messages.
  lemma CalmRunDrains(s: State, groups: nat, slots: nat, moves: seq<Move>, k: nat)
    requires groups > 0 && slots > 0 && Reachable(s, groups, slots)
    requires Stopping(s.pc) && Effective(s, moves) && (forall mv :: mv in moves ==> Calm(mv))
    requires Stuck(Run(s, moves)) && k < |s.consumers| && Clean(s.consumers[k])
    ensures |Run(s, moves).consumers| == |s.consumers|
    ensures var c := Run(s, moves).consumers[k];
            !Jammed(Run(s, moves)) ==>
              && c.pc.Gone? && !c.readOpen && !c.ackOpen && !c.writeOpen && !c.listenOpen
              && c.down == [] && c.log.handled == c.log.addressed + [STOP_MSG]
    ensures FewSkips(s) ==> !Jammed(Run(s, moves))
  {
    if FewSkips(s) {
      CalmRunSkips(s, moves);
      ReachableRun(s, groups, slots, moves);
      NoJam(Run(s, moves), groups, slots);
    }
    ReachableInv(s, groups, slots);
    CalmRunClean(s, moves, k);
    Termination(s, groups, slots, moves);
    RunInv(s, moves);
    if !Jammed(Run(s, moves)) {
      assert ConsumerInv(Run(s, moves).consumers[k]);
      assert AtInv(Run(s, moves).consumers[k], PlaceOf(Run(s, moves).pc, k));
      EmptiedPipe(Run(s, moves).consumers[k]);
    }
  }

  // ---------- what the event handler feeds ----------

  lemma {:induction false} OtherGroupsEmpty(ms: seq<Message>, g: nat)
    requires g != FILE_ACTIVITY_MONITORING && forall m :: m in ms ==> m.category == FILE_ACTIVITY_MONITORING
    ensures OfGroup(ms, g) == []
  {
    if ms != [] {
      OtherGroupsEmpty(ms[..|ms| - 1], g);
      assert ms[|ms| - 1] in ms;
    }
  }

  lemma RoutedArrived(s: State, m: Message)
    requires QueueInv(s) && m in s.routed
    ensures m in s.arrived && m.op != STOP_MESSAGE
  {
    assert s.routed <= s.received <= s.arrived;
  }

  lemma PastFirst(k: nat, slots: nat)
    requires 0 < slots <= k
    ensures k / slots > 0
  {
    assert k == slots * (k / slots) + k % slots;
  }

  // If all data ever queued is of the first group, the consumers of the other groups never get
  // a message.
  lemma OnlyFirstGroup(s: State, groups: nat, slots: nat, k: nat)
    requires groups > 0 && slots > 0 && Reachable(s, groups, slots) && slots <= k < |s.consumers|
    requires forall m :: m in s.arrived && m.op != STOP_MESSAGE ==> m.category == FILE_ACTIVITY_MONITORING
    ensures s.consumers[k].log.addressed == []
  {
    ReachableInv(s, groups, slots);
    forall m | m in s.routed ensures m.category == FILE_ACTIVITY_MONITORING {
      RoutedArrived(s, m);
    }
    PastFirst(k, slots);
    OtherGroupsEmpty(s.routed, k / slots);
    assert DealtAt(s, k);
  }
}
