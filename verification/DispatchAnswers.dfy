/** Which acknowledgements get lost: exactly those whose write fails, and those that are written
    when the dispatcher has closed its end. Every other message a consumer handles is answered, a
    stop included. */
module DispatchAnswers {
  import opened DispatchMachine
  import opened DispatchInvariant
  import opened DispatchTheorems

  // Whether this move of consumer `k` tries to write an acknowledgement in vain.
  predicate AnswersInVain(s: State, mv: Move, k: nat) {
    mv.Consume? && mv.k == k && Enabled(s, mv) && s.consumers[k].pc.Acking? &&
    (mv.o.Fails? || !s.consumers[k].listenOpen)
  }

  // How often that happens in a run.
  function Losses(s: State, moves: seq<Move>, k: nat): nat {
    if moves == [] then 0
    else
      var before, last := moves[..|moves| - 1], moves[|moves| - 1];
      Losses(s, before, k) + if AnswersInVain(Run(s, before), last, k) then 1 else 0
  }

  lemma ConsumeLoses(c: Consumer, o: Outcome)
    requires ConsumerInv(c) && CanConsume(c, o)
    ensures ConsumeStep(c, o).log.lost ==
            c.log.lost + if c.pc.Acking? && (o.Fails? || !c.listenOpen) then 1 else 0
  {
    match c.pc
    case Reading =>
    case Acking(_) =>
    case _ =>
  }

  // The dispatcher changes none of it; its end, once closed, stays closed.
  lemma DispatchLoses(s: State, o: Outcome, k: nat)
    requires CanDispatch(s, o) && k < |s.consumers|
    ensures |DispatchStep(s, o).consumers| == |s.consumers|
    ensures var (c, c') := (s.consumers[k], DispatchStep(s, o).consumers[k]);
            c'.log.lost == c.log.lost && c'.log.readFailed == c.log.readFailed && (c'.listenOpen ==> c.listenOpen)
  {
    if (s.pc.Wait? && !o.Fine?) || s.pc.ReadAck? {
      assert DispatchStep(s, o).consumers == s.consumers[s.pc.k := EndRound(s.consumers[s.pc.k], s.pc.wrote, o)];
    }
  }

  lemma {:induction false} LostExactly(s: State, moves: seq<Move>, k: nat)
    requires Inv(s) && k < |s.consumers|
    ensures |Run(s, moves).consumers| == |s.consumers|
    ensures Run(s, moves).consumers[k].log.lost == s.consumers[k].log.lost + Losses(s, moves, k)
  {
    if moves != [] {
      var (before, last) := (moves[..|moves| - 1], moves[|moves| - 1]);
      var t := Run(s, before);
      LostExactly(s, before, k);
      RunInv(s, before);
      if Enabled(t, last) {
        match last
        case Enqueue(_) =>
        case Dispatch(o) => DispatchLoses(t, o, k);
        case Consume(i, o) =>
          assert ConsumerInv(t.consumers[i]);
          ConsumeLoses(t.consumers[i], o);
      }
    }
  }

  // In every run each handled message, but the one in hand, was answered by an acknowledgement
  // that was read or is on its way, or was answered in vain.
  lemma EveryAnswer(groups: nat, slots: nat, room: nat, moves: seq<Move>, k: nat)
    requires groups > 0 && slots > 0 && room > 0
    requires k < |Init(groups, slots, room).consumers|
    ensures var s := Init(groups, slots, room);
            var s' := Run(s, moves);
            && |s'.consumers| == |s.consumers|
            && var c := s'.consumers[k];
            |c.log.handled| - InHand(c) == |c.log.acked| + |c.up| + Losses(s, moves, k)
  {
    var s := Init(groups, slots, room);
    InitInv(groups, slots, room);
    LostExactly(s, moves, k);
    RunInv(s, moves);
    assert ConsumerInv(Run(s, moves).consumers[k]);
  }

  // No call of consumer `k` fails.
  predicate Sound(moves: seq<Move>, k: nat) {
    forall mv :: mv in moves && mv.Consume? && mv.k == k ==> mv.o.Fine?
  }

  lemma StepClosed(s: State, mv: Move, k: nat)
    requires k < |s.consumers|
    ensures |Step(s, mv).consumers| == |s.consumers|
    ensures Step(s, mv).consumers[k].listenOpen ==> s.consumers[k].listenOpen
  {
    if mv.Dispatch? && Enabled(s, mv) { DispatchLoses(s, mv.o, k); }
  }

  lemma {:induction false} NoneLost(s: State, moves: seq<Move>, k: nat)
    requires k < |s.consumers| && Sound(moves, k)
    ensures |Run(s, moves).consumers| == |s.consumers|
    ensures Run(s, moves).consumers[k].listenOpen ==> Losses(s, moves, k) == 0
  {
    if moves != [] {
      var (before, last) := (moves[..|moves| - 1], moves[|moves| - 1]);
      assert last in moves && forall mv :: mv in before ==> mv in moves;
      NoneLost(s, before, k);
      StepClosed(Run(s, before), last, k);
    }
  }

  // So where none of its calls failed, and while the dispatcher listens, a consumer has answered
  // every message it has dealt with, in order: the i-th acknowledgement answers the i-th message.
  lemma AllAnswered(groups: nat, slots: nat, room: nat, moves: seq<Move>, k: nat)
    requires groups > 0 && slots > 0 && room > 0
    requires k < |Init(groups, slots, room).consumers| && Sound(moves, k)
    ensures |Run(Init(groups, slots, room), moves).consumers| == |Init(groups, slots, room).consumers|
    ensures var c := Run(Init(groups, slots, room), moves).consumers[k];
            c.listenOpen ==>
              && c.log.lost == 0
              && |c.log.acked + c.up| == |c.log.handled| - InHand(c)
              && forall i :: 0 <= i < |c.log.acked + c.up| ==> (c.log.acked + c.up)[i] == i
  {
    var s := Init(groups, slots, room);
    InitInv(groups, slots, room);
    NoneLost(s, moves, k);
    LostExactly(s, moves, k);
    RunInv(s, moves);
    assert ConsumerInv(Run(s, moves).consumers[k]);
  }

  // The stop included: a consumer that has left its loop so, to which no write failed, has sent
  // one acknowledgement for each message addressed to it and one for its stop.
  lemma StopAnswered(groups: nat, slots: nat, room: nat, moves: seq<Move>, k: nat)
    requires groups > 0 && slots > 0 && room > 0
    requires k < |Init(groups, slots, room).consumers| && Sound(moves, k)
    ensures |Run(Init(groups, slots, room), moves).consumers| == |Init(groups, slots, room).consumers|
    ensures var c := Run(Init(groups, slots, room), moves).consumers[k];
            Left(c) && c.listenOpen && c.log.failed == 0 ==> |c.log.acked| + |c.up| == |c.log.addressed| + 1
  {
    var s := Init(groups, slots, room);
    AllAnswered(groups, slots, room, moves, k);
    InitInv(groups, slots, room);
    RunInv(s, moves);
    NeverFailedToRead(s, moves, k);
    var c := Run(s, moves).consumers[k];
    assert ConsumerInv(c);
    if Left(c) && c.log.failed == 0 { EmptiedPipe(c); }
  }

  lemma {:induction false} NeverFailedToRead(s: State, moves: seq<Move>, k: nat)
    requires k < |s.consumers| && Sound(moves, k) && !s.consumers[k].log.readFailed
    ensures |Run(s, moves).consumers| == |s.consumers| && !Run(s, moves).consumers[k].log.readFailed
  {
    if moves != [] {
      var (before, last) := (moves[..|moves| - 1], moves[|moves| - 1]);
      assert last in moves && forall mv :: mv in before ==> mv in moves;
      NeverFailedToRead(s, before, k);
      ReadStays(Run(s, before), last, k);
    }
  }

  lemma ReadStays(s: State, mv: Move, k: nat)
    requires k < |s.consumers| && (mv.Consume? && mv.k == k ==> mv.o.Fine?)
    ensures |Step(s, mv).consumers| == |s.consumers|
    ensures Step(s, mv).consumers[k].log.readFailed == s.consumers[k].log.readFailed
  {
    if mv.Dispatch? && Enabled(s, mv) { DispatchLoses(s, mv.o, k); }
  }
}
