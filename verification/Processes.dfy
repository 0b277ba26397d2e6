/** The dispatcher and a consumer as the loops they are, each against a world in which the other
    processes move between its calls. Both are proved to be runs of the step system, so what is
    proved of every run holds of the loops. */
module Processes {
  import opened Messages
  import opened DispatchMachine
  import opened DispatchInvariant
  import Counters

  // What the environment does at one call: the others move, then the call comes out this way.
  datatype Turn = Turn(before: seq<Move>, o: Outcome)

  // When the script has ended, calls fail.
  function TurnAt(script: seq<Turn>, t: nat): Turn {
    if t < |script| then script[t] else Turn([], Fails)
  }

  // The moves of all processes but the dispatcher, and of all but consumer `k`.
  predicate NoDispatch(moves: seq<Move>) {
    forall i :: 0 <= i < |moves| ==> !moves[i].Dispatch?
  }

  predicate NoConsume(moves: seq<Move>, k: nat) {
    forall i :: 0 <= i < |moves| ==> !(moves[i].Consume? && moves[i].k == k)
  }

  // The dispatcher's own part of the state, and a consumer's.
  predicate SameDispatcher(s: State, s': State) {
    s'.pc == s.pc && s'.current == s.current && s'.groups == s.groups && s'.slots == s.slots && s'.routed == s.routed
  }

  predicate SameConsumer(c: Consumer, c': Consumer) {
    && c'.readOpen == c.readOpen && c'.ackOpen == c.ackOpen
    && c'.pc == c.pc && c'.log.handled == c.log.handled && c'.log.lost == c.log.lost
  }

  lemma {:induction false} OthersLeaveDispatcher(s: State, moves: seq<Move>)
    requires NoDispatch(moves)
    ensures SameDispatcher(s, Run(s, moves))
  {
    if moves != [] {
      OthersLeaveDispatcher(s, moves[..|moves| - 1]);
    }
  }

  lemma DispatchLeaves(s: State, o: Outcome, k: nat)
    requires CanDispatch(s, o) && k < |s.consumers|
    ensures var s' := DispatchStep(s, o);
            |s'.consumers| == |s.consumers| && SameConsumer(s.consumers[k], s'.consumers[k])
  {
    if (s.pc.Wait? && !o.Fine?) || s.pc.ReadAck? {
      assert DispatchStep(s, o).consumers == s.consumers[s.pc.k := EndRound(s.consumers[s.pc.k], s.pc.wrote, o)];
    }
  }

  lemma {:induction false} OthersLeaveConsumer(s: State, moves: seq<Move>, k: nat)
    requires NoConsume(moves, k) && k < |s.consumers|
    ensures |Run(s, moves).consumers| == |s.consumers| && SameConsumer(s.consumers[k], Run(s, moves).consumers[k])
  {
    if moves != [] {
      var (before, last) := (Run(s, moves[..|moves| - 1]), moves[|moves| - 1]);
      OthersLeaveConsumer(s, moves[..|moves| - 1], k);
      if last.Dispatch? && Enabled(before, last) { DispatchLeaves(before, last.o, k); }
    }
  }

  // The end of a round moves the dispatcher on, whatever was read.
  lemma RoundEnds(s: State, s': State, o: Outcome)
    requires SameDispatcher(s, s') && |s'.consumers| == |s.consumers|
    requires CanDispatch(s', o) && ((s.pc.Wait? && !o.Fine?) || s.pc.ReadAck?)
    ensures SameDispatcher(Advance(s, s.pc.k, s.pc.round), DispatchStep(s', o))
  {}

  // No move changes how many groups and consumers there are.
  predicate SameSize(s: State, s': State) {
    s'.groups == s.groups && s'.slots == s.slots && |s'.current| == |s.current| && |s'.consumers| == |s.consumers|
  }

  lemma StepSize(s: State, mv: Move)
    ensures SameSize(s, Step(s, mv))
  {}

  lemma {:induction false} RunSize(s: State, moves: seq<Move>)
    ensures SameSize(s, Run(s, moves))
  {
    if moves != [] {
      RunSize(s, moves[..|moves| - 1]);
      StepSize(Run(s, moves[..|moves| - 1]), moves[|moves| - 1]);
    }
  }

  lemma ServedAt(s: State, s': State, m: Message, k: nat)
    requires Shape(s) && Routed(s) && Shape(s') && Routed(s') && k < |s.consumers| == |s'.consumers|
    requires s'.slots == s.slots && s.pc == Write(m) && m.category < s.groups && s'.routed == s.routed + [m]
    ensures s'.consumers[k].log.addressed ==
            s.consumers[k].log.addressed + if k == Target(s, m.category) then [m] else []
  {
    assert DealtAt(s, k) && DealtAt(s', k);
    DealtOneMore(s.routed, m, s.slots, k / s.slots, k % s.slots);
    NumberIs(k, m.category, s.current[m.category], s.groups, s.slots);
    assert NextSlot(s, m.category) == s.current[m.category];
  }

  // Consumer by consumer, `s'` has one more message addressed to the one in turn.
  predicate ServedOnly(s: State, s': State, m: Message) {
    && m.category < |s.current| && |s'.consumers| == |s.consumers|
    && forall k :: 0 <= k < |s.consumers| ==>
         s'.consumers[k].log.addressed ==
         s.consumers[k].log.addressed + if k == Target(s, m.category) then [m] else []
  }

  // What the dispatcher owes each consumer in the end: a stop was tried, both its ends are closed.
  predicate StopTried(s: State) {
    forall k :: 0 <= k < |s.consumers| ==> s.consumers[k].log.stopTried
  }

  predicate Closed(s: State) {
    forall k :: 0 <= k < |s.consumers| ==> !s.consumers[k].writeOpen && !s.consumers[k].listenOpen
  }

  lemma AtEnds(s: State)
    requires ConsumersInv(s)
    ensures s.pc == CloseListen(0) || s.pc.Done? ==> StopTried(s)
    ensures s.pc.Done? ==> Closed(s)
  {
    forall k | 0 <= k < |s.consumers| ensures AtInv(s.consumers[k], PlaceOf(s.pc, k)) {}
  }

  class World {
    const groups: nat
    const slots: nat
    const room: nat
    const count: nat             // of consumers
    var state: State
    ghost var moves: seq<Move>   // every move so far

    ghost predicate Valid()
      reads this
    {
      && groups > 0 && slots > 0 && room > 0 && state == Run(Init(groups, slots, room), moves)
      && state.groups == groups && state.slots == slots && |state.current| == groups && |state.consumers| == count
    }

    constructor (groups: nat, slots: nat, room: nat)
      requires groups > 0 && slots > 0 && room > 0
      ensures Valid() && this.groups == groups && this.slots == slots && this.room == room
      ensures state == Init(groups, slots, room)
    {
      this.groups, this.slots, this.room, state := groups, slots, room, Init(groups, slots, room);
      count := |Init(groups, slots, room).consumers|;
      moves := [];
    }

    lemma Shaped()
      requires Valid()
      ensures Shape(state) && count == groups * slots
    {
      InitInv(groups, slots, room);
      RunInv(Init(groups, slots, room), moves);
    }

    // The number of the first consumer of group `i`.
    ghost predicate IsFirst(i: nat, first: nat) {
      first == i * slots
    }

    lemma NextGroup(i: nat, first: nat)
      requires IsFirst(i, first)
      ensures IsFirst(i + 1, first + slots)
    {}

    lemma LastGroup(first: nat)
      requires Valid() && IsFirst(groups, first)
      ensures first == count
    {
      Shaped();
    }

    // The last two phases are over only when every consumer has been served.
    lemma PhasesOver()
      requires Valid()
      ensures state.pc == CloseListen(0) || state.pc.Done? ==> StopTried(state)
      ensures state.pc.Done? ==> Closed(state)
    {
      InitInv(groups, slots, room);
      RunInv(Init(groups, slots, room), moves);
      AtEnds(state);
    }

    // What a consumer has dealt with has been answered, or the answer was lost.
    lemma Dealt()
      requires Valid()
      ensures forall k :: 0 <= k < count ==>
                var c := state.consumers[k];
                && |c.log.acked| + |c.up| + c.log.lost == |c.log.handled| - InHand(c)
                && (c.pc.Acking? ==> c.log.handled != [])
    {
      InitInv(groups, slots, room);
      RunInv(Init(groups, slots, room), moves);
      forall k | 0 <= k < count ensures ConsumerInv(state.consumers[k]) {}
    }

    // Routing one more message gives it to the consumer whose turn it was, and to no other.
    lemma Served(s: State, moves: seq<Move>, m: Message)
      requires Valid() && s == Run(Init(groups, slots, room), moves)
      requires |s.current| == groups && |s.consumers| == count && s.pc == Write(m) && m.category < groups
      requires state.routed == s.routed + [m] && s.slots == slots
      ensures ServedOnly(s, state, m)
    {
      InitInv(groups, slots, room);
      RunInv(Init(groups, slots, room), moves);
      RunInv(Init(groups, slots, room), this.moves);
      forall k | 0 <= k < count
        ensures state.consumers[k].log.addressed ==
                s.consumers[k].log.addressed + if k == Target(s, m.category) then [m] else []
      {
        ServedAt(s, state, m, k);
      }
    }

    lemma Numbered(i: nat, j: nat)
      requires Valid() && i < groups && j < slots
      ensures i * slots + j < count
    {
      Shaped();
      Numbering(i, j, groups, slots);
    }

    method Pass(others: seq<Move>)
      requires Valid()
      modifies this
      ensures Valid() && state == Run(old(state), others) && moves == old(moves) + others
    {
      RunAppend(Init(groups, slots, room), moves, others);
      RunSize(state, others);
      state := Run(state, others);
      moves := moves + others;
    }

    // The others move while the dispatcher, or consumer `k`, is about to make a call.
    method DispatcherPasses(others: seq<Move>)
      requires Valid() && NoDispatch(others)
      modifies this
      ensures Valid() && old(moves) <= moves
      ensures SameDispatcher(old(state), state)
    {
      OthersLeaveDispatcher(state, others);
      Pass(others);
    }

    method ConsumerPasses(k: nat, others: seq<Move>)
      requires Valid() && NoConsume(others, k) && k < count
      modifies this
      ensures Valid() && old(moves) <= moves
      ensures SameConsumer(old(state).consumers[k], state.consumers[k])
    {
      OthersLeaveConsumer(state, others, k);
      Pass(others);
    }

    method Perform(mv: Move)
      requires Valid() && Enabled(state, mv)
      modifies this
      ensures Valid() && state == Step(old(state), mv) && moves == old(moves) + [mv]
    {
      StepSize(state, mv);
      assert (moves + [mv])[..|moves|] == moves;
      state := Step(state, mv);
      moves := moves + [mv];
    }

    // ---------- the dispatcher's calls ----------

    // mq_receive(): a turn spent waiting on an empty queue, or an EAGAIN, is `Again`.
    method Receive(turn: Turn) returns (status: Outcome, m: Message)
      requires Valid() && state.pc.Receive? && NoDispatch(turn.before)
      modifies this
      ensures Valid() && old(moves) <= moves
      ensures SameDispatcher(old(state).(pc := state.pc), state)
      ensures status.Fine? && m.op != STOP_MESSAGE ==> state.pc == Write(m) && m.category < state.groups
      ensures status.Fine? && m.op == STOP_MESSAGE ==> state.pc == StopWrite(0)
      ensures status.Again? ==> state.pc == DispatcherPc.Receive
      ensures status.Fails? ==> state.pc == StopWrite(0)
      ensures (status.Fails? <==> turn.o.Fails?) && (turn.o.Fine? && status.Again? ==> state.queue == [])
    {
      DispatcherPasses(turn.before);
      status := if turn.o.Fine? && state.queue == [] then Again else turn.o;
      m := if status.Fine? then state.queue[0] else STOP_MSG;
      Perform(Dispatch(status));
      Shaped();
    }

    // Waits until the pipe to consumer `k` takes a message, or the write fails.
    method AwaitRoom(k: nat, script: seq<Turn>, t: nat) returns (o: Outcome, t': nat)
      requires Valid() && k < count
      requires forall i :: 0 <= i < |script| ==> NoDispatch(script[i].before)
      modifies this
      ensures Valid() && old(moves) <= moves && SameDispatcher(old(state), state)
      ensures t < t' && TakesWrite(state.consumers[k], o)
      ensures (forall i :: t <= i < t' ==> TurnAt(script, i).o.Fine?) ==> o.Fine?
    {
      var turn := TurnAt(script, t);
      DispatcherPasses(turn.before);
      t' := t + 1;
      while turn.o.Fine? && !TakesWrite(state.consumers[k], Fine)
        invariant Valid() && old(moves) <= moves && SameDispatcher(old(state), state)
        invariant t < t' && (turn.o.Fine? ==> t' <= |script|) && turn == TurnAt(script, t' - 1)
        decreases |script| - t'
      {
        turn := TurnAt(script, t');
        DispatcherPasses(turn.before);
        t' := t' + 1;
      }
      o := if turn.o.Fine? then Fine else Fails;
    }

    // write() of a data message or of a stop to consumer `k`.
    method WriteTo(k: nat, m: Message, script: seq<Turn>, t: nat) returns (wrote: bool, t': nat)
      requires Valid() && k < count
      requires forall i :: 0 <= i < |script| ==> NoDispatch(script[i].before)
      requires if state.pc.Write?
               then state.pc.m == m && m.category < |state.current| && k == Target(state, m.category)
               else state.pc == StopWrite(k) && m == STOP_MSG
      modifies this
      ensures Valid() && old(moves) <= moves
      ensures t < t' && (wrote ==> state.consumers[k].readOpen)
      ensures state.consumers[k].readOpen && (forall i :: t <= i < t' ==> TurnAt(script, i).o.Fine?) ==> wrote
      ensures state.pc == Wait(k, wrote, if old(state).pc.Write? then Data(m.category) else Stop)
      ensures var routed := if old(state).pc.Write? then old(state).routed + [m] else old(state).routed;
              SameDispatcher(old(state).(pc := state.pc, routed := routed), state)
    {
      var o;
      o, t' := AwaitRoom(k, script, t);
      wrote := o.Fine? && state.consumers[k].readOpen;
      Perform(Dispatch(o));
    }

    // select() on the return pipe of consumer `k`: ready, timed out or failed.
    method Select(k: nat, turn: Turn) returns (status: Outcome)
      requires Valid() && NoDispatch(turn.before) && state.pc.Wait? && state.pc.k == k < count
      modifies this
      ensures Valid() && old(moves) <= moves
      ensures status.Fails? <==> turn.o.Fails?
      ensures !status.Fails? ==> (status.Fine? <==> Ready(state.consumers[k]))
      ensures var pc := old(state).pc;
              if status.Fine? then SameDispatcher(old(state).(pc := DispatcherPc.ReadAck(k, pc.wrote, pc.round)), state)
              else SameDispatcher(Advance(old(state), k, pc.round), state)
    {
      DispatcherPasses(turn.before);
      var ready := Ready(state.consumers[k]);
      status := if ready && turn.o.Again? then Fine else if !ready && turn.o.Fine? then Again else turn.o;
      if !status.Fine? { RoundEnds(old(state), state, status); }
      Perform(Dispatch(status));
    }

    // read() from it.
    method ReadAck(k: nat, turn: Turn)
      requires Valid() && NoDispatch(turn.before) && state.pc.ReadAck? && state.pc.k == k < count
      modifies this
      ensures Valid() && old(moves) <= moves
      ensures SameDispatcher(Advance(old(state), k, old(state).pc.round), state)
    {
      DispatcherPasses(turn.before);
      var o := if turn.o.Fine? && Ready(state.consumers[k]) then Fine else Fails;
      RoundEnds(old(state), state, o);
      Perform(Dispatch(o));
    }

    // close() of both ends that the dispatcher holds towards consumer `k`.
    method Close(k: nat)
      requires Valid() && state.pc == CloseListen(k) && k < count
      modifies this
      ensures Valid() && old(moves) <= moves
      ensures SameDispatcher(old(state).(pc := ClosePc(count, k + 1)), state)
    {
      Perform(Dispatch(Fine));
      Perform(Dispatch(Fine));
    }

    // ---------- a consumer's calls ----------

    // Waits until the consumer's read or write can return: there is a message or room for one, or
    // the other end is closed, or the call fails.
    method AwaitCall(k: nat, script: seq<Turn>, t: nat) returns (o: Outcome, t': nat)
      requires Valid() && k < count && (state.consumers[k].pc.Reading? || state.consumers[k].pc.Acking?)
      requires forall i :: 0 <= i < |script| ==> NoConsume(script[i].before, k)
      modifies this
      ensures Valid() && old(moves) <= moves
      ensures SameConsumer(old(state).consumers[k], state.consumers[k]) && CanConsume(state.consumers[k], o)
      ensures t < t' && (o.Fine? ==> t < |script|)
      ensures (forall i :: t <= i < t' ==> TurnAt(script, i).o.Fine?) ==> o.Fine?
    {
      var turn := TurnAt(script, t);
      ConsumerPasses(k, turn.before);
      t' := t + 1;
      while turn.o.Fine? && !CanConsume(state.consumers[k], Fine)
        invariant Valid() && old(moves) <= moves
        invariant SameConsumer(old(state).consumers[k], state.consumers[k])
        invariant t < t' && (turn.o.Fine? ==> t' <= |script|) && turn == TurnAt(script, t' - 1)
        decreases |script| - t'
      {
        turn := TurnAt(script, t');
        ConsumerPasses(k, turn.before);
        t' := t' + 1;
      }
      o := if turn.o.Fine? then Fine else Fails;
    }

    // read(): `Fine` with a message, `Again` at end of file.
    method Read(k: nat, script: seq<Turn>, t: nat) returns (status: Outcome, m: Message, t': nat)
      requires Valid() && k < count && state.consumers[k].pc.Reading?
      requires forall i :: 0 <= i < |script| ==> NoConsume(script[i].before, k)
      modifies this
      ensures Valid() && old(moves) <= moves
      ensures t < t' && (status.Fine? ==> t < |script|)
      ensures var (c, c') := (old(state).consumers[k], state.consumers[k]);
              && c'.log.lost == c.log.lost
              && if status.Fine? then c'.pc == Acking(m) && c'.log.handled == c.log.handled + [m]
                 else c'.pc == LeavingRead && c'.log.handled == c.log.handled
    {
      var o;
      o, t' := AwaitCall(k, script, t);
      var c := state.consumers[k];
      m := if c.down != [] then c.down[0] else STOP_MSG;
      status := if o.Fine? && c.down == [] then Again else o;
      Perform(Consume(k, o));
      assert state.consumers[k] == ConsumeStep(c, o);
    }

    // write() of an acknowledgement, a stop's as any other's. It fails only if the environment
    // makes it fail or the dispatcher no longer listens; that is reported and otherwise ignored.
    method WriteAck(k: nat, script: seq<Turn>, t: nat) returns (ok: bool, t': nat)
      requires Valid() && k < count && state.consumers[k].pc.Acking?
      requires forall i :: 0 <= i < |script| ==> NoConsume(script[i].before, k)
      modifies this
      ensures Valid() && old(moves) <= moves
      ensures t < t'
      ensures state.consumers[k].pc == if old(state).consumers[k].pc.m.op == STOP_MESSAGE then LeavingRead else Reading
      ensures state.consumers[k].log.handled == old(state).consumers[k].log.handled
      ensures state.consumers[k].log.lost == old(state).consumers[k].log.lost + if ok then 0 else 1
      ensures state.consumers[k].listenOpen && (forall i :: t <= i < t' ==> TurnAt(script, i).o.Fine?) ==> ok
    {
      var o;
      o, t' := AwaitCall(k, script, t);
      Dealt();
      ok := o.Fine? && state.consumers[k].listenOpen;
      Perform(Consume(k, o));
    }

    method CloseBoth(k: nat)
      requires Valid() && k < count && state.consumers[k].pc.LeavingRead?
      modifies this
      ensures Valid() && old(moves) <= moves
      ensures state.consumers[k].pc.Gone? && !state.consumers[k].readOpen && !state.consumers[k].ackOpen
      ensures state.consumers[k].log.handled == old(state).consumers[k].log.handled
      ensures state.consumers[k].log.lost == old(state).consumers[k].log.lost
    {
      Perform(Consume(k, Fine));
      Perform(Consume(k, Fine));
    }
  }

  // Where the dispatcher is before stopping consumer `k` of `n`, and before closing its pipes.
  function StopPc(n: nat, k: nat): DispatcherPc { if k < n then StopWrite(k) else CloseListen(0) }

  function ClosePc(n: nat, k: nat): DispatcherPc { if k < n then CloseListen(k) else DispatcherPc.Done }

  // ---------- the dispatcher ----------

  lemma AdvanceSame(s: State, s': State, k: nat, round: Round)
    requires SameDispatcher(s.(pc := s'.pc), s') && |s.consumers| == |s'.consumers|
    requires round.Data? ==> round.group < |s.current| && s.slots > 0
    ensures SameDispatcher(Advance(s, k, round), Advance(s', k, round))
  {}

  // A message to consumer `k`, and the wait for its acknowledgement.
  method OneRound(w: World, k: nat, m: Message, script: seq<Turn>, t: nat) returns (t': nat)
    requires w.Valid() && k < w.count
    requires forall i :: 0 <= i < |script| ==> NoDispatch(script[i].before)
    requires if w.state.pc.Write?
             then w.state.pc.m == m && m.category < |w.state.current| && k == Target(w.state, m.category)
             else w.state.pc == StopWrite(k) && m == STOP_MSG
    modifies w
    ensures w.Valid() && old(w.moves) <= w.moves && t < t'
    ensures old(w.state).pc.Write? ==>
              SameDispatcher(Advance(old(w.state).(routed := old(w.state).routed + [m]), k, Data(m.category)), w.state)
    ensures !old(w.state).pc.Write? ==> SameDispatcher(Advance(old(w.state), k, Stop), w.state)
  {
    var _, u := w.WriteTo(k, m, script, t);
    ghost var (before, round) := (w.state, w.state.pc.round);
    AdvanceSame(old(w.state).(routed := w.state.routed), before, k, round);
    var ready := w.Select(k, TurnAt(script, u));
    if ready.Fine? {
      w.ReadAck(k, TurnAt(script, u + 1));
    }
    t' := u + 2;
  }

  // One data message: to the consumer whose turn it is, and the wait for its acknowledgement.
  method DeliverOne(w: World, current: array<nat>, m: Message, script: seq<Turn>, t: nat) returns (t': nat)
    requires w.Valid() && w.state.pc == Write(m) && m.category < w.state.groups && current[..] == w.state.current
    requires forall i :: 0 <= i < |script| ==> NoDispatch(script[i].before)
    modifies w, current
    ensures w.Valid() && old(w.moves) <= w.moves && current[..] == w.state.current && t < t'
    ensures var (g, s) := (m.category, old(w.state));
            && w.slots > 0 && g < |s.current|
            && SameDispatcher(w.state, s.(pc := DispatcherPc.Receive, routed := s.routed + [m],
                                          current := s.current[g := (s.current[g] + 1) % w.slots]))
    ensures ServedOnly(old(w.state), w.state, m)
  {
    ghost var s := w.state;
    var g, slots := m.category, w.slots;
    var k := g * slots + current[g];
    w.Shaped();
    w.Numbered(g, current[g]);
    t' := OneRound(w, k, m, script, t);
    current[g] := (current[g] + 1) % slots;
    w.Served(s, old(w.moves), m);
  }

  // The receive loop. `current` is the program's own array.
  method Deliver(w: World, current: array<nat>, script: seq<Turn>) returns (t: nat)
    requires w.Valid() && w.state.pc.Receive? && current[..] == w.state.current
    requires forall i :: 0 <= i < |script| ==> NoDispatch(script[i].before)
    modifies w, current
    ensures w.Valid() && old(w.moves) <= w.moves && w.state.pc == StopWrite(0)
    ensures current[..] == w.state.current
  {
    var mustStop := false;
    t := 0;
    while !mustStop
      invariant w.Valid() && old(w.moves) <= w.moves && current[..] == w.state.current
      invariant w.state.pc == if mustStop then StopWrite(0) else DispatcherPc.Receive
      decreases !mustStop, |script| - t
    {
      var status, m := w.Receive(TurnAt(script, t));
      t := t + 1;
      if status.Fine? {
        if m.op == STOP_MESSAGE {
          mustStop := true;
        } else {
          t := DeliverOne(w, current, m, script, t);
        }
      } else if status.Fails? {
        break;
      }
    }
  }

  // One stop and the wait for its acknowledgement.
  method StopOne(w: World, k: nat, script: seq<Turn>, t: nat) returns (t': nat)
    requires w.Valid() && k < w.count && w.state.pc == StopWrite(k)
    requires forall i :: 0 <= i < |script| ==> NoDispatch(script[i].before)
    modifies w
    ensures w.Valid() && old(w.moves) <= w.moves
    ensures SameDispatcher(old(w.state).(pc := StopPc(w.count, k + 1)), w.state)
  {
    t' := OneRound(w, k, STOP_MSG, script, t);
  }

  method StopGroup(w: World, i: nat, first: nat, script: seq<Turn>, t: nat) returns (t': nat)
    requires w.Valid() && i < w.groups && w.IsFirst(i, first) && w.state.pc == StopPc(w.count, first)
    requires forall i :: 0 <= i < |script| ==> NoDispatch(script[i].before)
    modifies w
    ensures w.Valid() && old(w.moves) <= w.moves && w.state.pc == StopPc(w.count, first + w.slots)
  {
    t' := t;
    for j := 0 to w.slots
      invariant w.Valid() && old(w.moves) <= w.moves && w.state.pc == StopPc(w.count, first + j)
    {
      w.Numbered(i, j);
      t' := StopOne(w, first + j, script, t');
    }
  }

  method StopAll(w: World, script: seq<Turn>, t: nat)
    requires w.Valid() && w.state.pc == StopWrite(0)
    requires forall i :: 0 <= i < |script| ==> NoDispatch(script[i].before)
    modifies w
    ensures w.Valid() && old(w.moves) <= w.moves && w.state.pc == CloseListen(0)
    ensures StopTried(w.state)
  {
    var first: nat, u: nat := 0, t;
    w.Numbered(0, 0);
    for i := 0 to w.groups
      invariant w.Valid() && old(w.moves) <= w.moves && w.IsFirst(i, first)
      invariant w.state.pc == StopPc(w.count, first)
    {
      u := StopGroup(w, i, first, script, u);
      w.NextGroup(i, first);
      first := first + w.slots;
    }
    w.LastGroup(first);
    w.PhasesOver();
  }

  method CloseGroup(w: World, i: nat, first: nat)
    requires w.Valid() && i < w.groups && w.IsFirst(i, first) && w.state.pc == ClosePc(w.count, first)
    modifies w
    ensures w.Valid() && old(w.moves) <= w.moves && w.state.pc == ClosePc(w.count, first + w.slots)
  {
    for j := 0 to w.slots
      invariant w.Valid() && old(w.moves) <= w.moves && w.state.pc == ClosePc(w.count, first + j)
    {
      w.Numbered(i, j);
      w.Close(first + j);
    }
  }

  method CloseAll(w: World)
    requires w.Valid() && w.state.pc == CloseListen(0)
    modifies w
    ensures w.Valid() && old(w.moves) <= w.moves && w.state.pc == DispatcherPc.Done
    ensures Closed(w.state)
  {
    var first: nat := 0;
    w.Numbered(0, 0);
    for i := 0 to w.groups
      invariant w.Valid() && old(w.moves) <= w.moves && w.IsFirst(i, first)
      invariant w.state.pc == ClosePc(w.count, first)
    {
      CloseGroup(w, i, first);
      w.NextGroup(i, first);
      first := first + w.slots;
    }
    w.LastGroup(first);
    w.PhasesOver();
  }

  // Whatever the others do and however its calls come out, the dispatcher's loops make a run of
  // the step system that ends with everything closed.
  method Dispatcher(groups: nat, slots: nat, room: nat, script: seq<Turn>) returns (w: World)
    requires groups > 0 && slots > 0 && room > 0
    requires forall i :: 0 <= i < |script| ==> NoDispatch(script[i].before)
    ensures fresh(w) && Reachable(w.state, groups, slots) && w.state.pc == DispatcherPc.Done
    ensures |w.state.consumers| == groups * slots && StopTried(w.state) && Closed(w.state)
  {
    w := new World(groups, slots, room);
    var current := new nat[groups](_ => 0);
    assert current[..] == w.state.current;
    var t := Deliver(w, current, script);
    StopAll(w, script, t);
    CloseAll(w);
    w.PhasesOver();
    w.Shaped();
  }

  // ---------- a consumer ----------

  // The codes of the data messages among `ms`.
  function DataCodes(ms: seq<Message>): seq<Byte> {
    if ms == [] then []
    else DataCodes(ms[..|ms| - 1]) + if ms[|ms| - 1].op == STOP_MESSAGE then [] else [ms[|ms| - 1].op]
  }

  lemma CountedOneMore(ms: seq<Message>, m: Message, counts: seq<nat>)
    requires |counts| == Counters.CODES
    ensures Counters.BumpAll(counts, DataCodes(ms + [m])) ==
            if m.op == STOP_MESSAGE then Counters.BumpAll(counts, DataCodes(ms))
            else Counters.Bump(Counters.BumpAll(counts, DataCodes(ms)), m.op)
  {
    assert (ms + [m])[..|ms|] == ms;
    assert (DataCodes(ms) + [m.op])[..|DataCodes(ms)|] == DataCodes(ms);
    assert DataCodes(ms) + [] == DataCodes(ms);
  }

  // A stop is not counted.
  method CountOne(counters: Counters.OperationCounters, m: Message, ghost before: seq<Message>, ghost base: seq<nat>)
    requires |base| == Counters.CODES && counters.Counts() == Counters.BumpAll(base, DataCodes(before))
    modifies counters
    ensures counters.Counts() == Counters.BumpAll(base, DataCodes(before + [m]))
  {
    CountedOneMore(before, m, base);
    if m.op != STOP_MESSAGE {
      counters.IncrementCounter(m.op);
    }
  }

  // A consumer's loop is a run of the step system, too; it ends with both its ends closed, has
  // counted exactly the data messages it handled, and has answered all messages, the stop
  // included, but for the failed writes it reported.
  method RunConsumer(w: World, k: nat, counters: Counters.OperationCounters, script: seq<Turn>)
    returns (unanswered: nat)
    requires w.Valid() && k < w.count
    requires w.state.consumers[k].pc.Reading? && w.state.consumers[k].log.handled == []
    requires forall i :: 0 <= i < |script| ==> NoConsume(script[i].before, k)
    modifies w, counters
    ensures w.Valid() && old(w.moves) <= w.moves
    ensures w.state.consumers[k].pc.Gone? && !w.state.consumers[k].readOpen && !w.state.consumers[k].ackOpen
    ensures var c := w.state.consumers[k]; |c.log.acked| + |c.up| + unanswered == |c.log.handled|
    ensures counters.Counts() == Counters.BumpAll(old(counters.Counts()), DataCodes(w.state.consumers[k].log.handled))
  {
    var mustStop, t := false, 0;
    unanswered := 0;
    w.Dealt();
    while !mustStop
      invariant w.Valid() && old(w.moves) <= w.moves && w.state.consumers[k].log.lost == unanswered
      invariant w.state.consumers[k].pc == if mustStop then LeavingRead else Reading
      invariant counters.Counts() ==
                Counters.BumpAll(old(counters.Counts()), DataCodes(w.state.consumers[k].log.handled))
      decreases !mustStop, |script| - t
    {
      ghost var before := w.state.consumers[k].log.handled;
      var status, m, t' := w.Read(k, script, t);
      t := t';
      if status.Fine? {
        if m.op == STOP_MESSAGE {
          mustStop := true;
        }
        CountOne(counters, m, before, old(counters.Counts()));
        var ok;
        ok, t := w.WriteAck(k, script, t);
        if !ok {
          unanswered := unanswered + 1;
        }
      } else {
        break;
      }
    }
    w.CloseBoth(k);
    w.Dealt();
  }
}
