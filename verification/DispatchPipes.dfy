/** How full the pipes of a consumer get, and when that brings the dispatcher and the consumer to
    wait for each other for ever: both pipes full, one writing a message and the other an
    acknowledgement. */
module DispatchPipes {
  import opened Messages
  import opened DispatchMachine
  import opened DispatchInvariant

  // What the two pipes and the consumer hold between them.
  function Held(c: Consumer): nat {
    |c.down| + InHand(c) + |c.up|
  }

  // Between rounds that is one more than a pipe holds, and one for each round in which select()
  // or read() failed: a wait runs out only when there is nothing to read.
  ghost predicate HeldInv(c: Consumer, waiting: nat) {
    Held(c) <= c.room + 1 + c.log.skipped + waiting
  }

  ghost predicate PipesInv(s: State) {
    forall k :: 0 <= k < |s.consumers| ==> HeldInv(s.consumers[k], Waiting(s.pc, k))
  }

  lemma ConsumeHeld(c: Consumer, o: Outcome)
    requires CanConsume(c, o)
    ensures Held(ConsumeStep(c, o)) <= Held(c)
    ensures ConsumeStep(c, o).room == c.room && ConsumeStep(c, o).log.skipped == c.log.skipped
  {
    match c.pc
    case Reading =>
    case Acking(_) =>
    case _ =>
  }

  lemma EndRoundHeld(c: Consumer, wrote: bool, how: Outcome)
    requires HeldInv(c, if wrote then 1 else 0) && |c.down| <= c.room && (how.Again? ==> c.up == [])
    requires c.up == [] || how.Fine? || how.Fails?
    ensures HeldInv(EndRound(c, wrote, how), 0)
  {}

  lemma ConcludeHeld(s: State, o: Outcome)
    requires Shape(s) && PipesInv(s) && CanDispatch(s, o) && ((s.pc.Wait? && !o.Fine?) || s.pc.ReadAck?)
    requires |s.consumers[s.pc.k].down| <= s.consumers[s.pc.k].room
    ensures PipesInv(DispatchStep(s, o))
  {
    ConcludeShape(s, o);
    var s' := DispatchStep(s, o);
    forall k | 0 <= k < |s'.consumers| ensures HeldInv(s'.consumers[k], Waiting(s'.pc, k)) {
      assert HeldInv(s.consumers[k], Waiting(s.pc, k));
      if k == s.pc.k { EndRoundHeld(s.consumers[k], s.pc.wrote, o); }
    }
  }

  lemma DispatchHeld(s: State, o: Outcome)
    requires Shape(s) && PipesInv(s) && CanDispatch(s, o)
    requires forall k :: 0 <= k < |s.consumers| ==> |s.consumers[k].down| <= s.consumers[k].room
    ensures PipesInv(DispatchStep(s, o))
  {
    if (s.pc.Wait? && !o.Fine?) || s.pc.ReadAck? {
      ConcludeHeld(s, o);
    } else {
      var s' := DispatchStep(s, o);
      forall k | 0 <= k < |s'.consumers| ensures HeldInv(s'.consumers[k], Waiting(s'.pc, k)) {
        assert HeldInv(s.consumers[k], Waiting(s.pc, k));
      }
    }
  }

  lemma StepHeld(s: State, mv: Move)
    requires Inv(s) && PipesInv(s)
    ensures PipesInv(Step(s, mv))
  {
    if Enabled(s, mv) {
      match mv
      case Enqueue(_) =>
      case Dispatch(o) =>
        assert forall k :: 0 <= k < |s.consumers| ==> ConsumerInv(s.consumers[k]);
        DispatchHeld(s, o);
      case Consume(i, o) =>
        ConsumeHeld(s.consumers[i], o);
        forall k | 0 <= k < |s.consumers| ensures HeldInv(Step(s, mv).consumers[k], Waiting(s.pc, k)) {
          assert HeldInv(s.consumers[k], Waiting(s.pc, k));
        }
    }
  }

  lemma {:induction false} RunHeld(s: State, moves: seq<Move>)
    requires Inv(s) && PipesInv(s)
    ensures PipesInv(Run(s, moves))
  {
    if moves != [] {
      RunHeld(s, moves[..|moves| - 1]);
      RunInv(s, moves[..|moves| - 1]);
      StepHeld(Run(s, moves[..|moves| - 1]), moves[|moves| - 1]);
    }
  }

  // In every reachable state each pipe holds at most its capacity, and both with the consumer one
  // message more than that, apart from failed waits and the round that is going on.
  lemma PipesBound(s: State, groups: nat, slots: nat, k: nat)
    requires groups > 0 && slots > 0 && Reachable(s, groups, slots) && k < |s.consumers|
    ensures var c := s.consumers[k];
            && |c.down| <= c.room && |c.up| <= c.room
            && Held(c) <= c.room + 1 + c.log.skipped + Waiting(s.pc, k)
  {
    var room: nat, moves :| room > 0 && s == Run(Init(groups, slots, room), moves);
    InitInv(groups, slots, room);
    RunHeld(Init(groups, slots, room), moves);
    ReachableInv(s, groups, slots);
    assert ConsumerInv(s.consumers[k]) && HeldInv(s.consumers[k], Waiting(s.pc, k));
  }

  // ---------- waiting for each other ----------

  // The dispatcher is about to write to consumer `k`.
  predicate StartsRound(s: State, k: nat) {
    (s.pc.Write? && s.pc.m.category < |s.current| && Target(s, s.pc.m.category) == k) || s.pc == StopWrite(k)
  }

  predicate BlockedAt(s: State, k: nat) {
    StartsRound(s, k) && k < |s.consumers| &&
    !CanWrite(|s.consumers[k].down|, s.consumers[k].room, s.consumers[k].readOpen)
  }

  predicate JammedAt(s: State, k: nat) {
    BlockedAt(s, k) && s.consumers[k].pc.Acking? &&
    !CanWrite(|s.consumers[k].up|, s.consumers[k].room, s.consumers[k].listenOpen)
  }

  // The dispatcher and a consumer wait for each other.
  ghost predicate Jammed(s: State) {
    exists k: nat :: JammedAt(s, k)
  }

  // It takes as many failed waits on that consumer as a pipe holds messages.
  lemma JamNeedsSkips(s: State, groups: nat, slots: nat, k: nat)
    requires groups > 0 && slots > 0 && Reachable(s, groups, slots) && JammedAt(s, k)
    ensures s.consumers[k].log.skipped >= s.consumers[k].room
  {
    PipesBound(s, groups, slots, k);
  }

  // A blocked dispatcher whose consumer is not stuck in turn: the consumer can go on.
  lemma ReaderGoesOn(c: Consumer)
    requires LeftForAReason(c) && PipesFit(c) && !CanWrite(|c.down|, c.room, c.readOpen)
    requires c.pc.Acking? ==> CanWrite(|c.up|, c.room, c.listenOpen)
    ensures CanConsume(c, Fine) && ConsumeStep(c, Fine).pc != c.pc
  {}

  // ---------- a run into it ----------

  lemma OneMove(s0: State, moves: seq<Move>, s: State, mv: Move) returns (moves': seq<Move>, s': State)
    requires s == Run(s0, moves)
    ensures s' == Run(s0, moves') && s' == Step(s, mv) && moves' == moves + [mv]
  {
    moves' := moves + [mv];
    s' := Run(s0, moves');
    assert moves'[..|moves'| - 1] == moves;
  }

  // What matters of a system of one consumer with pipes for one message.
  ghost predicate Stands(s: State, pc: DispatcherPc, queue: seq<Message>, at: ConsumerPc, down: seq<Message>,
                         up: nat, skipped: nat, failed: nat) {
    && s.pc == pc && s.queue == queue && s.groups == s.slots == 1 && s.current == [0] && |s.consumers| == 1
    && var c := s.consumers[0];
    && c.pc == at && c.down == down && |c.up| == up && c.room == 1
    && c.log.skipped == skipped && c.log.failed == failed && c.log.lost == 0
    && (c.readOpen <==> !c.pc.LeavingWrite?) && c.ackOpen && c.writeOpen && c.listenOpen
    && (c.pc.Acking? ==> c.log.handled != [])
  }

  lemma Queued(m: Message) returns (moves: seq<Move>, s: State)
    requires m.op != STOP_MESSAGE && m.category == 0
    ensures s == Run(Init(1, 1, 1), moves) && Stands(s, Receive, [m, m, m, m], Reading, [], 0, 0, 0)
  {
    var s0 := Init(1, 1, 1);
    moves, s := [], s0;
    assert Stands(s, Receive, [], Reading, [], 0, 0, 0);
    moves, s := OneMove(s0, moves, s, Enqueue(m));
    moves, s := OneMove(s0, moves, s, Enqueue(m));
    moves, s := OneMove(s0, moves, s, Enqueue(m));
    assert Stands(s, Receive, [m, m, m], Reading, [], 0, 0, 0);
    moves, s := OneMove(s0, moves, s, Enqueue(m));
  }

  // A message is received and written.
  lemma Written(s0: State, moves: seq<Move>, s: State, m: Message, queue: seq<Message>, at: ConsumerPc,
                up: nat) returns (moves': seq<Move>, s': State)
    requires m.op != STOP_MESSAGE && m.category == 0 && !at.LeavingWrite?
    requires s == Run(s0, moves) && Stands(s, Receive, [m] + queue, at, [], up, 0, 0)
    ensures s' == Run(s0, moves') && Stands(s', Wait(0, true, Data(0)), queue, at, [m], up, 0, 0)
  {
    moves', s' := OneMove(s0, moves, s, Dispatch(Fine));
    assert Stands(s', Write(m), queue, at, [], up, 0, 0);
    moves', s' := OneMove(s0, moves', s', Dispatch(Fine));
  }

  // Two waits run out: one message is in the consumer's hand, one in its pipe.
  lemma TwoUnanswered(m: Message) returns (moves: seq<Move>, s: State)
    requires m.op != STOP_MESSAGE && m.category == 0
    ensures s == Run(Init(1, 1, 1), moves) && Stands(s, Receive, [m, m], Acking(m), [m], 0, 0, 0)
  {
    var s0 := Init(1, 1, 1);
    moves, s := Queued(m);
    moves, s := Written(s0, moves, s, m, [m, m, m], Reading, 0);
    moves, s := OneMove(s0, moves, s, Dispatch(Again));
    assert Stands(s, Receive, [m, m, m], Reading, [m], 0, 0, 0);
    moves, s := OneMove(s0, moves, s, Consume(0, Fine));
    moves, s := Written(s0, moves, s, m, [m, m], Acking(m), 0);
    moves, s := OneMove(s0, moves, s, Dispatch(Again));
  }

  // Pipes for one message and one failed wait: the dispatcher and the consumer wait for each other.
  lemma JamPossible(m: Message) returns (moves: seq<Move>)
    requires m.op != STOP_MESSAGE && m.category == 0
    ensures var s := Run(Init(1, 1, 1), moves);
            JammedAt(s, 0) && s.consumers[0].log.skipped == s.consumers[0].room == 1
  {
    var s0, s := Init(1, 1, 1), Init(1, 1, 1);
    moves, s := TwoUnanswered(m);
    moves, s := OneMove(s0, moves, s, Consume(0, Fine));
    assert Stands(s, Receive, [m, m], Reading, [m], 1, 0, 0);
    moves, s := OneMove(s0, moves, s, Consume(0, Fine));
    moves, s := Written(s0, moves, s, m, [m], Acking(m), 1);
    moves, s := OneMove(s0, moves, s, Dispatch(Fails));
    assert Stands(s, Receive, [m], Acking(m), [m], 1, 1, 0);
    moves, s := OneMove(s0, moves, s, Dispatch(Fine));
  }
}
