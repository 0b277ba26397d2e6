/** The acknowledgement deficit of a consumer, sends minus acknowledgements read, from one moment
    between rounds to another. It can shrink: a round whose write failed may read an old
    acknowledgement. This is when, and by how much. */
module DispatchDeficit {
  import opened Messages
  import opened DispatchMachine
  import opened DispatchInvariant
  import opened DispatchPipes
  import opened DispatchTheorems

  // The deficit is what is under way (`AcknowledgementDeficit`), and nothing but sends and
  // acknowledgements read changes it.
  lemma Deficit(c: Consumer)
    requires ConsumerInv(c)
    ensures UnderWay(c) == |c.log.sent| - |c.log.acked|
  {}

  // Between rounds it changes by the rounds that wrote and missed their acknowledgement, less the
  // rounds that read one without having written.
  lemma DeficitChange(s: State, groups: nat, slots: nat, moves: seq<Move>, k: nat)
    requires groups > 0 && slots > 0 && Reachable(s, groups, slots) && k < |s.consumers|
    requires !InRound(s.pc) && !InRound(Run(s, moves).pc)
    ensures |Run(s, moves).consumers| == |s.consumers|
    ensures var (c, c') := (s.consumers[k], Run(s, moves).consumers[k]);
            UnderWay(c') - UnderWay(c) == (c'.log.missed - c.log.missed) - (c'.log.spare - c.log.spare)
  {
    ReachableInv(s, groups, slots);
    RunInv(s, moves);
    RunGrows(s, moves, k);
    Between(s, k);
    Between(Run(s, moves), k);
  }

  lemma Between(s: State, k: nat)
    requires Inv(s) && k < |s.consumers| && !InRound(s.pc)
    ensures UnderWay(s.consumers[k]) == s.consumers[k].log.missed - s.consumers[k].log.spare
  {
    assert ConsumerInv(s.consumers[k]) && AtInv(s.consumers[k], PlaceOf(s.pc, k));
    Deficit(s.consumers[k]);
  }

  // ---------- how far it can shrink ----------

  // Failed writes that no round has made use of, and none may yet.
  function Unused(s: State, k: nat): int
    requires k < |s.consumers|
  {
    s.consumers[k].log.failed - s.consumers[k].log.spare - Owed(s.pc, k)
  }

  lemma ConsumeUnused(c: Consumer, o: Outcome)
    requires CanConsume(c, o)
    ensures ConsumeStep(c, o).log.failed == c.log.failed && ConsumeStep(c, o).log.spare == c.log.spare
  {
    match c.pc
    case Reading =>
    case Acking(_) =>
    case _ =>
  }

  lemma DispatchUnused(s: State, o: Outcome, k: nat)
    requires Shape(s) && CanDispatch(s, o) && k < |s.consumers|
    ensures |DispatchStep(s, o).consumers| == |s.consumers| && Unused(s, k) <= Unused(DispatchStep(s, o), k)
  {
    if (s.pc.Wait? && !o.Fine?) || s.pc.ReadAck? { ConcludeUnused(s, o, k); }
  }

  lemma ConcludeUnused(s: State, o: Outcome, k: nat)
    requires Shape(s) && CanDispatch(s, o) && k < |s.consumers| && ((s.pc.Wait? && !o.Fine?) || s.pc.ReadAck?)
    ensures |DispatchStep(s, o).consumers| == |s.consumers| && Unused(s, k) <= Unused(DispatchStep(s, o), k)
  {
    ConcludeShape(s, o);
  }

  lemma {:induction false} RunUnused(s: State, moves: seq<Move>, k: nat)
    requires Inv(s) && k < |s.consumers|
    ensures |Run(s, moves).consumers| == |s.consumers| && Unused(s, k) <= Unused(Run(s, moves), k)
  {
    if moves != [] {
      var (before, last) := (Run(s, moves[..|moves| - 1]), moves[|moves| - 1]);
      RunUnused(s, moves[..|moves| - 1], k);
      RunInv(s, moves[..|moves| - 1]);
      if Enabled(before, last) {
        match last
        case Enqueue(_) =>
        case Dispatch(o) => DispatchUnused(before, o, k);
        case Consume(i, o) => ConsumeUnused(before.consumers[i], o);
      }
    }
  }

  // It shrinks by no more than the number of writes that failed in between; so it never shrinks
  // while writes succeed.
  lemma DeficitBound(s: State, groups: nat, slots: nat, moves: seq<Move>, k: nat)
    requires groups > 0 && slots > 0 && Reachable(s, groups, slots) && k < |s.consumers|
    requires !InRound(s.pc) && !InRound(Run(s, moves).pc)
    ensures |Run(s, moves).consumers| == |s.consumers|
    ensures var (c, c') := (s.consumers[k], Run(s, moves).consumers[k]);
            UnderWay(c) <= UnderWay(c') + (c'.log.failed - c.log.failed)
  {
    ReachableInv(s, groups, slots);
    DeficitChange(s, groups, slots, moves, k);
    RunUnused(s, moves, k);
    RunGrows(s, moves, k);
  }

  // ---------- one round ----------

  // `moves` take it through that round and no further, whatever the others do meanwhile.
  ghost predicate OneRound(s: State, moves: seq<Move>, k: nat) {
    && StartsRound(s, k)
    && (forall i :: 0 <= i < |moves| ==> UpTo(s, Run(s, moves[..i])))
    && !UpTo(s, Run(s, moves))
  }

  predicate UpTo(s: State, t: State) {
    t.pc == s.pc || InRound(t.pc)
  }

  // What consumer `k`'s log says `t` is up to: nothing, the write, or the whole round.
  ghost predicate RoundSoFar(s: State, t: State, k: nat) {
    && k < |s.consumers| && |t.consumers| == |s.consumers| && t.slots == s.slots
    && var (c, d) := (s.consumers[k].log, t.consumers[k].log);
    if t.pc == s.pc then
      t.current == s.current && d.sent == c.sent && d.failed == c.failed && d.acked == c.acked
    else
      && |d.sent| + d.failed == |c.sent| + c.failed + 1 && c.failed <= d.failed <= c.failed + 1
      && (InRound(t.pc) ==> t.pc.k == k && d.acked == c.acked)
      && |c.acked| <= |d.acked| <= |c.acked| + 1
  }

  lemma RoundConsume(s: State, t: State, i: nat, o: Outcome, k: nat)
    requires RoundSoFar(s, t, k) && i < |t.consumers| && CanConsume(t.consumers[i], o)
    ensures RoundSoFar(s, SetConsumer(t, i, ConsumeStep(t.consumers[i], o)), k)
  {
    var c' := ConsumeStep(t.consumers[i], o);
    assert c'.log.sent == t.consumers[i].log.sent && c'.log.failed == t.consumers[i].log.failed;
    assert c'.log.acked == t.consumers[i].log.acked;
  }

  lemma RoundWrite(s: State, t: State, o: Outcome, k: nat)
    requires RoundSoFar(s, t, k) && StartsRound(s, k) && t.pc == s.pc && CanDispatch(t, o)
    ensures RoundSoFar(s, DispatchStep(t, o), k)
  {}

  lemma RoundGoesOn(s: State, t: State, o: Outcome, k: nat)
    requires RoundSoFar(s, t, k) && StartsRound(s, k) && InRound(t.pc) && PcInv(t) && CanDispatch(t, o)
    requires Sized(t)
    ensures RoundSoFar(s, DispatchStep(t, o), k) || DispatchStep(t, o).pc == s.pc
  {
    if (t.pc.Wait? && !o.Fine?) || t.pc.ReadAck? {
      assert DispatchStep(t, o).consumers == t.consumers[k := EndRound(t.consumers[k], t.pc.wrote, o)];
    }
  }

  // A data round ends at the receive, a stop round beyond its consumer: never where it began.
  lemma RoundLeaves(s: State, t: State, o: Outcome, k: nat)
    requires RoundSoFar(s, t, k) && StartsRound(s, k) && InRound(t.pc) && PcInv(t) && CanDispatch(t, o)
    requires Sized(t)
    ensures DispatchStep(t, o).pc != s.pc
  {}

  lemma {:induction false} RunRound(s: State, moves: seq<Move>, k: nat)
    requires Inv(s) && k < |s.consumers| && StartsRound(s, k)
    requires forall i :: 0 <= i < |moves| ==> UpTo(s, Run(s, moves[..i]))
    ensures RoundSoFar(s, Run(s, moves), k)
  {
    if moves != [] {
      var (before, last) := (moves[..|moves| - 1], moves[|moves| - 1]);
      var t := Run(s, before);
      forall i | 0 <= i < |before| ensures UpTo(s, Run(s, before[..i])) {
        assert before[..i] == moves[..i];
      }
      RunRound(s, before, k);
      RunInv(s, before);
      assert UpTo(s, t);
      if Enabled(t, last) { RoundStep(s, t, last, k); }
    }
  }

  lemma RoundStep(s: State, t: State, mv: Move, k: nat)
    requires RoundSoFar(s, t, k) && StartsRound(s, k) && UpTo(s, t) && PcInv(t) && Sized(t) && Enabled(t, mv)
    ensures RoundSoFar(s, Step(t, mv), k)
  {
    match mv
    case Enqueue(_) =>
    case Dispatch(o) =>
      if t.pc == s.pc {
        RoundWrite(s, t, o, k);
      } else {
        RoundGoesOn(s, t, o, k);
        RoundLeaves(s, t, o, k);
      }
    case Consume(i, o) => RoundConsume(s, t, i, o, k);
  }

  // A round on a consumer shrinks its deficit if and only if its write failed and it read an
  // acknowledgement; it lets it grow exactly if its write succeeded and it read none.
  lemma RoundDeficit(s: State, groups: nat, slots: nat, moves: seq<Move>, k: nat)
    requires groups > 0 && slots > 0 && Reachable(s, groups, slots) && k < |s.consumers|
    requires OneRound(s, moves, k)
    ensures |Run(s, moves).consumers| == |s.consumers|
    ensures var (c, c') := (s.consumers[k], Run(s, moves).consumers[k]);
            var (wrote, acked) := (c'.log.failed == c.log.failed, |c'.log.acked| > |c.log.acked|);
            && (UnderWay(c') < UnderWay(c) <==> !wrote && acked)
            && (UnderWay(c') > UnderWay(c) <==> wrote && !acked)
            && UnderWay(c) - 1 <= UnderWay(c') <= UnderWay(c) + 1
  {
    ReachableInv(s, groups, slots);
    RunInv(s, moves);
    RunRound(s, moves, k);
    assert ConsumerInv(s.consumers[k]) && ConsumerInv(Run(s, moves).consumers[k]);
    Deficit(s.consumers[k]);
    Deficit(Run(s, moves).consumers[k]);
  }

  // ---------- a run in which it shrinks ----------

  // One message is written, and the wait for its acknowledgement runs out.
  lemma EarlyRun(m: Message) returns (early: seq<Move>, s: State)
    requires m.op != STOP_MESSAGE && m.category == 0
    ensures s == Run(Init(1, 1, 1), early) && Stands(s, Receive, [m], Reading, [m], 0, 0, 0)
  {
    var s0 := Init(1, 1, 1);
    early, s := [], s0;
    assert Stands(s, Receive, [], Reading, [], 0, 0, 0);
    early, s := OneMove(s0, early, s, Enqueue(m));
    early, s := OneMove(s0, early, s, Enqueue(m));
    assert Stands(s, Receive, [m, m], Reading, [], 0, 0, 0);
    early, s := OneMove(s0, early, s, Dispatch(Fine));
    early, s := OneMove(s0, early, s, Dispatch(Fine));
    assert Stands(s, Wait(0, true, Data(0)), [m], Reading, [m], 0, 0, 0);
    early, s := OneMove(s0, early, s, Dispatch(Again));
  }

  // The consumer answers late, then a read of it fails and it closes its read end.
  lemma LateAnswer(s: State, m: Message) returns (late: seq<Move>, s': State)
    requires m.op != STOP_MESSAGE && Stands(s, Receive, [m], Reading, [m], 0, 0, 0)
    ensures s' == Run(s, late) && Stands(s', Receive, [m], LeavingWrite, [], 1, 0, 0)
    ensures late == [Consume(0, Fine), Consume(0, Fine), Consume(0, Fails), Consume(0, Fine)]
  {
    late, s' := OneMove(s, [], s, Consume(0, Fine));
    assert Stands(s', Receive, [m], Acking(m), [], 0, 0, 0);
    late, s' := OneMove(s, late, s', Consume(0, Fine));
    assert Stands(s', Receive, [m], Reading, [], 1, 0, 0);
    late, s' := OneMove(s, late, s', Consume(0, Fails));
    assert Stands(s', Receive, [m], LeavingRead, [], 1, 0, 0);
    late, s' := OneMove(s, late, s', Consume(0, Fine));
  }

  // So the next write has no reader any more, and its round takes the late answer for its own. No
  // call of the dispatcher fails but for that.
  lemma DeficitCanShrink(m: Message) returns (early: seq<Move>, late: seq<Move>)
    requires m.op != STOP_MESSAGE && m.category == 0
    ensures forall mv :: mv in late && mv.Dispatch? ==> mv.o.Fine?
    ensures var s := Run(Init(1, 1, 1), early);
            var s' := Run(s, late);
            && s.pc == Receive && s'.pc == Receive && |s.consumers| == |s'.consumers| == 1
            && UnderWay(s.consumers[0]) == 1 && UnderWay(s'.consumers[0]) == 0
            && s'.consumers[0].log.failed == 1 && !s'.consumers[0].readOpen
  {
    var s, s';
    early, s := EarlyRun(m);
    late, s' := LateAnswer(s, m);
    late, s' := OneMove(s, late, s', Dispatch(Fine));
    assert Stands(s', Write(m), [], LeavingWrite, [], 1, 0, 0);
    late, s' := OneMove(s, late, s', Dispatch(Fine));
    assert Stands(s', Wait(0, false, Data(0)), [], LeavingWrite, [], 1, 0, 1);
    late, s' := OneMove(s, late, s', Dispatch(Fine));
    assert Stands(s', ReadAck(0, false, Data(0)), [], LeavingWrite, [], 1, 0, 1);
    late, s' := OneMove(s, late, s', Dispatch(Fine));
  }
}
