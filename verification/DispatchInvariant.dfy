/** What every step of the dispatcher, the consumers and the environment keeps. */
module DispatchInvariant {
  import opened Messages
  import opened Dealing
  import opened DispatchMachine

  // ---------- one consumer with its pipes ----------

  function InHand(c: Consumer): nat { if c.pc.Acking? then 1 else 0 }

  predicate Left(c: Consumer) { c.pc.LeavingRead? || c.pc.LeavingWrite? || c.pc.Gone? }

  // Acknowledgements come back in the order of the messages; without a loss, one for each. `tags`
  // are the numbers read so far and those still in the pipe, `answered` the messages dealt with.
  ghost predicate AcksInOrder(tags: seq<nat>, lost: nat, answered: int) {
    && |tags| + lost == answered
    && (forall i :: 0 <= i < |tags| ==> i <= tags[i] < answered)
    && (forall i, j :: 0 <= i < j < |tags| ==> tags[i] < tags[j])
    && (lost == 0 ==> forall i :: 0 <= i < |tags| ==> tags[i] == i)
  }

  // The pipe is first in, first out, and nothing follows a stop.
  ghost predicate PipeInOrder(c: Consumer) {
    && c.log.sent == c.log.handled + c.down
    && (c.pc.Acking? ==> c.log.handled != [] && c.log.handled[|c.log.handled| - 1] == c.pc.m)
    && (c.log.stopSent ==> c.log.stopTried && c.log.sent != [])
    && (forall i :: 0 <= i < |c.log.sent| ==>
          (c.log.sent[i].op == STOP_MESSAGE <==> c.log.stopSent && i == |c.log.sent| - 1))
    && (forall m :: m in c.log.addressed ==> m.op != STOP_MESSAGE)
    && (c.log.failed == 0 ==> c.log.sent == c.log.addressed + if c.log.stopTried then [STOP_MSG] else [])
  }

  // Why a consumer is no longer reading.
  ghost predicate LeftForAReason(c: Consumer) {
    && (c.pc.Reading? && c.log.stopSent ==> c.down != [])
    && (Left(c) && !c.log.readFailed ==> c.down == [] && c.log.stopTried && (c.log.stopSent || !c.writeOpen))
    && (!c.writeOpen ==> c.log.stopTried)
    && (c.readOpen <==> !c.pc.LeavingWrite? && !c.pc.Gone?)
    && (c.ackOpen <==> !c.pc.Gone?)
  }

  // No pipe holds more than it can.
  ghost predicate PipesFit(c: Consumer) {
    c.room > 0 && |c.down| <= c.room && |c.up| <= c.room
  }

  ghost predicate ConsumerInv(c: Consumer) {
    && AcksInOrder(c.log.acked + c.up, c.log.lost, |c.log.handled| - InHand(c))
    && PipeInOrder(c) && LeftForAReason(c) && PipesFit(c)
  }

  lemma ConsumeKeeps(c: Consumer, o: Outcome)
    requires ConsumerInv(c) && CanConsume(c, o)
    ensures ConsumerInv(ConsumeStep(c, o))
  {
    if c.pc.Reading? && o.Fine? && c.down != [] {
      ReadKeeps(c);
    } else if c.pc.Acking? {
      AckKeeps(c, o);
    }
  }

  lemma ReadKeeps(c: Consumer)
    requires ConsumerInv(c) && c.pc.Reading? && c.down != []
    ensures ConsumerInv(ConsumeStep(c, Fine))
  {
    var c' := ConsumeStep(c, Fine);
    assert c'.log.sent == c'.log.handled + c'.down;
  }

  lemma AckInOrder(c: Consumer, o: Outcome)
    requires ConsumerInv(c) && c.pc.Acking? && CanConsume(c, o)
    ensures var c' := ConsumeStep(c, o); AcksInOrder(c'.log.acked + c'.up, c'.log.lost, |c'.log.handled| - InHand(c'))
  {
    var c' := ConsumeStep(c, o);
    if c'.log.lost == c.log.lost {
      assert c'.log.acked + c'.up == (c.log.acked + c.up) + [|c.log.handled| - 1];
    } else {
      assert c'.log.acked + c'.up == c.log.acked + c.up;
    }
  }

  // The message in hand is a stop exactly when nothing more will come.
  lemma StopIsLast(c: Consumer)
    requires PipeInOrder(c) && c.pc.Acking?
    ensures c.pc.m.op == STOP_MESSAGE <==> c.log.stopSent && c.down == []
  {
    assert c.log.sent[|c.log.handled| - 1] == c.pc.m;
  }

  lemma AckPipe(c: Consumer, o: Outcome)
    requires ConsumerInv(c) && c.pc.Acking? && CanConsume(c, o)
    ensures PipeInOrder(ConsumeStep(c, o)) && LeftForAReason(ConsumeStep(c, o)) && PipesFit(ConsumeStep(c, o))
  {
    StopIsLast(c);
  }

  lemma AckKeeps(c: Consumer, o: Outcome)
    requires ConsumerInv(c) && c.pc.Acking? && CanConsume(c, o)
    ensures ConsumerInv(ConsumeStep(c, o))
  {
    AckInOrder(c, o);
    AckPipe(c, o);
  }

  lemma SendDataKeeps(c: Consumer, m: Message, wrote: bool)
    requires ConsumerInv(c) && !c.log.stopTried && m.op != STOP_MESSAGE && (wrote ==> |c.down| < c.room)
    ensures ConsumerInv(SendData(c, m, wrote))
  {
    var c' := SendData(c, m, wrote);
    assert c'.log.sent == c'.log.handled + c'.down;
    assert c'.log.acked + c'.up == c.log.acked + c.up;
  }

  lemma SendStopKeeps(c: Consumer, wrote: bool)
    requires ConsumerInv(c) && !c.log.stopTried && (wrote ==> |c.down| < c.room)
    ensures ConsumerInv(SendStop(c, wrote))
  {
    var c' := SendStop(c, wrote);
    assert c'.log.sent == c'.log.handled + c'.down;
    assert c'.log.acked + c'.up == c.log.acked + c.up;
    assert c.log.addressed + [] == c.log.addressed;
  }

  lemma AckReadKeeps(c: Consumer, c': Consumer)
    requires ConsumerInv(c) && c.up != []
    requires c' == c.(up := c.up[1..], log := c'.log)
    requires c'.log == c.log.(acked := c.log.acked + [c.up[0]], spare := c'.log.spare)
    ensures ConsumerInv(c')
  {
    assert c'.log.acked + c'.up == c.log.acked + c.up;
  }

  lemma EndRoundKeeps(c: Consumer, wrote: bool, how: Outcome)
    requires ConsumerInv(c)
    ensures ConsumerInv(EndRound(c, wrote, how))
  {
    var c' := EndRound(c, wrote, how);
    if how.Fine? && c.up != [] {
      assert c'.log.acked + c'.up == c.log.acked + c.up;
      AckReadKeeps(c, c');
    }
  }

  // ---------- where the dispatcher is ----------

  predicate InRound(pc: DispatcherPc) { pc.Wait? || pc.ReadAck? }

  function Waiting(pc: DispatcherPc, k: nat): nat {
    if InRound(pc) && pc.k == k && pc.wrote then 1 else 0
  }

  // A round that failed to write and may still read an acknowledgement.
  function Owed(pc: DispatcherPc, k: nat): nat {
    if InRound(pc) && pc.k == k && !pc.wrote then 1 else 0
  }

  predicate StopTriedAt(pc: DispatcherPc, k: nat) {
    match pc
    case Receive => false
    case Write(_) => false
    case Wait(i, _, round) => round.Stop? && k <= i
    case ReadAck(i, _, round) => round.Stop? && k <= i
    case StopWrite(i) => k < i
    case _ => true
  }

  predicate ListenOpenAt(pc: DispatcherPc, k: nat) {
    match pc
    case CloseListen(i) => k >= i
    case CloseWrite(i) => k > i
    case Done => false
    case _ => true
  }

  predicate WriteOpenAt(pc: DispatcherPc, k: nat) {
    match pc
    case CloseListen(i) => k >= i
    case CloseWrite(i) => k >= i
    case Done => false
    case _ => true
  }

  // The dispatcher's place as consumer `k` sees it.
  datatype Place = Place(tried: bool, listening: bool, writing: bool, waiting: nat, owed: nat)

  function PlaceOf(pc: DispatcherPc, k: nat): Place {
    Place(StopTriedAt(pc, k), ListenOpenAt(pc, k), WriteOpenAt(pc, k), Waiting(pc, k), Owed(pc, k))
  }

  // Sends minus acknowledgements read are the rounds that ended without one, minus the rounds
  // that failed to write and still read one, plus one while a round that wrote is going on.
  ghost predicate AtInv(c: Consumer, p: Place) {
    && c.log.stopTried == p.tried
    && c.listenOpen == p.listening
    && c.writeOpen == p.writing
    && |c.log.sent| - |c.log.acked| == c.log.missed - c.log.spare + p.waiting
    && c.log.spare + p.owed <= c.log.failed
  }

  // The slot that the next message of group `g` goes to.
  function NextSlot(s: State, g: nat): nat
    requires g < |s.current| && s.slots > 0
  {
    if InRound(s.pc) && s.pc.round == Data(g) then (s.current[g] + 1) % s.slots else s.current[g]
  }

  ghost predicate PcInv(s: State) {
    match s.pc
    case Write(m) => m.category < s.groups && m.op != STOP_MESSAGE
    case Wait(k, _, Data(g)) => g < |s.current| && k < |s.consumers| && k == Target(s, g)
    case ReadAck(k, _, Data(g)) => g < |s.current| && k < |s.consumers| && k == Target(s, g)
    case Wait(k, _, Stop) => k < |s.consumers|
    case ReadAck(k, _, Stop) => k < |s.consumers|
    case StopWrite(k) => k < |s.consumers|
    case CloseListen(k) => k < |s.consumers|
    case CloseWrite(k) => k < |s.consumers|
    case _ => true
  }

  ghost predicate Sized(s: State) {
    s.slots > 0 && |s.current| == s.groups
  }

  ghost predicate Shape(s: State) {
    && s.groups > 0 && Sized(s) && |s.consumers| == s.groups * s.slots
    && (forall g :: 0 <= g < s.groups ==> s.current[g] < s.slots)
    && PcInv(s)
  }

  // The messages of a group have been dealt to its consumers in turn.
  ghost predicate Routed(s: State)
    requires Sized(s)
  {
    && (forall g :: 0 <= g < s.groups ==> NextSlot(s, g) == |OfGroup(s.routed, g)| % s.slots)
    && (forall k :: 0 <= k < |s.consumers| ==> DealtAt(s, k))
  }

  ghost predicate DealtAt(s: State, k: nat)
    requires Sized(s) && k < |s.consumers|
  {
    s.consumers[k].log.addressed == Deal(OfGroup(s.routed, k / s.slots), s.slots, k % s.slots)
  }

  // What was received and is not routed: the message in hand, or the stop.
  ghost predicate Taken(s: State) {
    match s.pc
    case Receive => s.received == s.routed
    case Write(m) => s.received == s.routed + [m]
    case Wait(_, _, Data(_)) => s.received == s.routed
    case ReadAck(_, _, Data(_)) => s.received == s.routed
    case _ => s.received == s.routed || (exists m: Message :: m.op == STOP_MESSAGE && s.received == s.routed + [m])
  }

  ghost predicate QueueInv(s: State) {
    && s.arrived == s.received + s.queue && |s.queue| <= QUEUE_SIZE
    && (forall m :: m in s.queue ==> Sendable(m, s.groups))
    && (forall m :: m in s.routed ==> m.op != STOP_MESSAGE)
    && Taken(s)
  }

  ghost predicate ConsumersInv(s: State) {
    forall k :: 0 <= k < |s.consumers| ==> ConsumerInv(s.consumers[k]) && AtInv(s.consumers[k], PlaceOf(s.pc, k))
  }

  ghost predicate Inv(s: State) {
    Shape(s) && ConsumersInv(s) && Routed(s) && QueueInv(s)
  }

  // ---------- numbering ----------

  lemma Numbering(g: nat, j: nat, groups: nat, slots: nat)
    requires g < groups && j < slots
    ensures g * slots + j < groups * slots
    ensures (g * slots + j) / slots == g && (g * slots + j) % slots == j
  {
    MulGap(slots, g, groups);
    assert g * slots == slots * g && groups * slots == slots * groups;
    Quotient(g * slots + j, slots, g, j);
  }

  // ---------- one consumer changes ----------

  // `s'` is `s` with consumer `k` replaced and the dispatcher moved.
  ghost predicate ChangesOnly(s: State, s': State, k: nat) {
    && k < |s.consumers| && |s'.consumers| == |s.consumers|
    && forall j :: 0 <= j < |s.consumers| && j != k ==>
         s'.consumers[j] == s.consumers[j] && PlaceOf(s'.pc, j) == PlaceOf(s.pc, j)
  }

  lemma ConsumersKept(s: State, s': State, k: nat)
    requires ConsumersInv(s) && ChangesOnly(s, s', k)
    requires ConsumerInv(s'.consumers[k]) && AtInv(s'.consumers[k], PlaceOf(s'.pc, k))
    ensures ConsumersInv(s')
  {
    forall j | 0 <= j < |s'.consumers|
      ensures ConsumerInv(s'.consumers[j]) && AtInv(s'.consumers[j], PlaceOf(s'.pc, j))
    {
      if j != k { assert ConsumerInv(s.consumers[j]) && AtInv(s.consumers[j], PlaceOf(s.pc, j)); }
    }
  }

  lemma RoutesKept(s: State, s': State)
    requires Sized(s) && Sized(s') && Routed(s) && |s'.consumers| == |s.consumers|
    requires s'.routed == s.routed && s'.groups == s.groups && s'.slots == s.slots
    requires forall k :: 0 <= k < |s.consumers| ==> s'.consumers[k].log.addressed == s.consumers[k].log.addressed
    requires forall g :: 0 <= g < s.groups ==> NextSlot(s', g) == NextSlot(s, g)
    ensures Routed(s')
  {
    forall k | 0 <= k < |s'.consumers| ensures DealtAt(s', k) {
      assert DealtAt(s, k);
    }
  }

  // ---------- the steps ----------

  lemma EnqueueKeeps(s: State, m: Message)
    requires Inv(s) && Enabled(s, Enqueue(m))
    ensures Inv(Step(s, Enqueue(m)))
  {
    assert s.received + (s.queue + [m]) == (s.received + s.queue) + [m];
    RoutesKept(s, Step(s, Enqueue(m)));
  }

  lemma ConsumeAt(c: Consumer, o: Outcome, p: Place)
    requires CanConsume(c, o) && AtInv(c, p)
    ensures AtInv(ConsumeStep(c, o), p) && ConsumeStep(c, o).log.addressed == c.log.addressed
  {
    var c' := ConsumeStep(c, o);
    assert c'.log.sent == c.log.sent && c'.log.acked == c.log.acked;
    assert c'.log.missed == c.log.missed && c'.log.spare == c.log.spare;
  }

  lemma ConsumerKeeps(s: State, k: nat, o: Outcome)
    requires Inv(s) && Enabled(s, Consume(k, o))
    ensures Inv(Step(s, Consume(k, o)))
  {
    var s' := Step(s, Consume(k, o));
    ConsumeKeeps(s.consumers[k], o);
    ConsumeAt(s.consumers[k], o, PlaceOf(s.pc, k));
    ConsumersKept(s, s', k);
    RoutesKept(s, s');
  }

  lemma ReceiveKeeps(s: State, o: Outcome)
    requires Inv(s) && s.pc.Receive? && CanDispatch(s, o)
    ensures Inv(DispatchStep(s, o))
  {
    var s' := DispatchStep(s, o);
    Numbering(0, 0, s.groups, s.slots);
    if o.Fine? {
      assert s.queue[0] in s.queue;
      assert s.received + s.queue == (s.received + [s.queue[0]]) + s.queue[1..];
    }
    assert ChangesOnly(s, s', 0);
    ConsumersKept(s, s', 0);
    RoutesKept(s, s');
  }

  lemma SendDataAt(c: Consumer, m: Message, wrote: bool, p: Place)
    requires AtInv(c, p) && p.waiting == p.owed == 0
    ensures AtInv(SendData(c, m, wrote), p.(waiting := if wrote then 1 else 0, owed := if wrote then 0 else 1))
  {}

  lemma WriteKeeps(s: State, o: Outcome)
    requires Inv(s) && s.pc.Write? && CanDispatch(s, o)
    ensures Inv(DispatchStep(s, o))
  {
    var (m, s') := (s.pc.m, DispatchStep(s, o));
    var g, k := m.category, Target(s, m.category);
    var wrote := Writes(s.consumers[k], o);
    SendDataKeeps(s.consumers[k], m, wrote);
    SendDataAt(s.consumers[k], m, wrote, PlaceOf(s.pc, k));
    ConsumersKept(s, s', k);
    WriteServes(s, o);
    RoutesExtended(s, s', m);
  }

  lemma DealOneMore(ms: seq<Message>, m: Message, slots: nat, j: nat)
    requires slots > 0
    ensures Deal(ms + [m], slots, j) == Deal(ms, slots, j) + if |ms| % slots == j then [m] else []
  {
    assert (ms + [m])[..|ms|] == ms;
  }

  lemma OfGroupOneMore(ms: seq<Message>, m: Message, g: nat)
    ensures OfGroup(ms + [m], g) == OfGroup(ms, g) + if m.category == g then [m] else []
  {
    assert (ms + [m])[..|ms|] == ms;
  }

  lemma NextInTurn(j: nat, slots: nat)
    requires j < slots
    ensures (j + 1) % slots == if j == slots - 1 then 0 else j + 1
  {
    if j == slots - 1 { Quotient(j + 1, slots, 1, 0); } else { Quotient(j + 1, slots, 0, j + 1); }
  }

  // A number belongs to one place only.
  lemma NumberIs(k: nat, g: nat, j: nat, groups: nat, slots: nat)
    requires g < groups && j < slots
    ensures k == g * slots + j <==> k / slots == g && k % slots == j
  {
    Numbering(g, j, groups, slots);
    assert k == slots * (k / slots) + k % slots;
    assert g * slots == slots * g;
  }

  // Routing one message serves the next slot of its group and nobody else.
  lemma DealtOneMore(routed: seq<Message>, m: Message, slots: nat, h: nat, j: nat)
    requires slots > 0
    ensures Deal(OfGroup(routed + [m], h), slots, j) ==
            Deal(OfGroup(routed, h), slots, j) +
            if m.category == h && |OfGroup(routed, h)| % slots == j then [m] else []
  {
    OfGroupOneMore(routed, m, h);
    if m.category == h { DealOneMore(OfGroup(routed, h), m, slots, j); }
    else { assert OfGroup(routed + [m], h) == OfGroup(routed, h); }
  }

  // `s'` is `s` after the dispatcher routed `m`.
  ghost predicate Routes(s: State, s': State, m: Message)
    requires Sized(s) && Sized(s')
  {
    && m.category < s.groups && s'.groups == s.groups && s'.slots == s.slots
    && s'.routed == s.routed + [m] && |s'.consumers| == |s.consumers|
    && (forall h :: 0 <= h < s.groups ==>
          NextSlot(s', h) == if h == m.category then (NextSlot(s, h) + 1) % s.slots else NextSlot(s, h))
    && (forall k :: 0 <= k < |s.consumers| ==>
          s'.consumers[k].log.addressed ==
          s.consumers[k].log.addressed + if ServedNext(s, m, k) then [m] else [])
  }

  // Consumer `k` is the one whose turn it is.
  predicate ServedNext(s: State, m: Message, k: nat)
    requires Sized(s) && m.category < s.groups
  {
    k / s.slots == m.category && k % s.slots == NextSlot(s, m.category)
  }

  lemma Turns(s: State, s': State, m: Message, h: nat)
    requires Sized(s) && Sized(s') && Routed(s) && Routes(s, s', m) && h < s.groups
    ensures NextSlot(s', h) == |OfGroup(s'.routed, h)| % s.slots
  {
    OfGroupOneMore(s.routed, m, h);
    var n := |OfGroup(s.routed, h)|;
    assert NextSlot(s, h) == n % s.slots;
    DivStep(n, s.slots);
    NextInTurn(n % s.slots, s.slots);
  }

  lemma Served(s: State, s': State, m: Message, k: nat, h: nat, j: nat)
    requires Sized(s) && Sized(s') && Routed(s) && Routes(s, s', m)
    requires k < |s.consumers| && k / s.slots == h && k % s.slots == j
    ensures s'.consumers[k].log.addressed == Deal(OfGroup(s'.routed, h), s.slots, j)
  {
    assert DealtAt(s, k);
    assert NextSlot(s, m.category) == |OfGroup(s.routed, m.category)| % s.slots;
    DealtOneMore(s.routed, m, s.slots, h, j);
  }

  lemma RoutesExtended(s: State, s': State, m: Message)
    requires Sized(s) && Sized(s') && Routed(s) && Routes(s, s', m)
    ensures Routed(s')
  {
    forall h | 0 <= h < s'.groups ensures NextSlot(s', h) == |OfGroup(s'.routed, h)| % s'.slots {
      Turns(s, s', m, h);
    }
    forall k | 0 <= k < |s'.consumers| ensures DealtAt(s', k) {
      Served(s, s', m, k, k / s.slots, k % s.slots);
    }
  }

  lemma WriteServes(s: State, o: Outcome)
    requires Shape(s) && s.pc.Write? && CanDispatch(s, o)
    ensures var s' := DispatchStep(s, o); Sized(s') && Routes(s, s', s.pc.m)
  {
    var (m, s') := (s.pc.m, DispatchStep(s, o));
    forall k | 0 <= k < |s.consumers| ensures k == Target(s, m.category) <==> ServedNext(s, m, k) {
      NumberIs(k, m.category, s.current[m.category], s.groups, s.slots);
    }
  }

  lemma EndRoundAt(c: Consumer, p: Place, wrote: bool, how: Outcome)
    requires AtInv(c, p) && p.waiting == (if wrote then 1 else 0) && p.owed == 1 - p.waiting
    ensures AtInv(EndRound(c, wrote, how), p.(waiting := 0, owed := 0))
    ensures EndRound(c, wrote, how).log.addressed == c.log.addressed
  {
    var c' := EndRound(c, wrote, how);
    if how.Fine? && c.up != [] {
      assert |c'.log.acked| == |c.log.acked| + 1 && c'.log.missed == c.log.missed;
    } else {
      assert c'.log.acked == c.log.acked && c'.log.spare == c.log.spare;
    }
  }

  lemma ConcludeShape(s: State, o: Outcome)
    requires Shape(s) && CanDispatch(s, o) && ((s.pc.Wait? && !o.Fine?) || s.pc.ReadAck?)
    ensures var s' := DispatchStep(s, o);
            && Shape(s') && s'.routed == s.routed && !InRound(s'.pc)
            && s'.consumers == s.consumers[s.pc.k := EndRound(s.consumers[s.pc.k], s.pc.wrote, o)]
            && (forall g :: 0 <= g < s.groups ==> NextSlot(s', g) == NextSlot(s, g))
            && (forall j :: 0 <= j < |s.consumers| ==>
                  PlaceOf(s'.pc, j) == PlaceOf(s.pc, j).(waiting := 0, owed := 0))
  {
    if s.pc.round.Data? { NextInTurn(s.current[s.pc.round.group], s.slots); }
  }

  lemma ConcludeConsumers(s: State, o: Outcome)
    requires Inv(s) && CanDispatch(s, o) && ((s.pc.Wait? && !o.Fine?) || s.pc.ReadAck?)
    ensures ConsumersInv(DispatchStep(s, o))
  {
    var (k, s') := (s.pc.k, DispatchStep(s, o));
    ConcludeShape(s, o);
    EndRoundKeeps(s.consumers[k], s.pc.wrote, o);
    EndRoundAt(s.consumers[k], PlaceOf(s.pc, k), s.pc.wrote, o);
    ConsumersKept(s, s', k);
  }

  lemma ConcludeRoutes(s: State, o: Outcome)
    requires Shape(s) && Routed(s) && CanDispatch(s, o) && ((s.pc.Wait? && !o.Fine?) || s.pc.ReadAck?)
    ensures Shape(DispatchStep(s, o)) && Routed(DispatchStep(s, o))
  {
    ConcludeShape(s, o);
    RoutesKept(s, DispatchStep(s, o));
  }

  lemma ConcludeQueue(s: State, o: Outcome)
    requires PcInv(s) && QueueInv(s) && CanDispatch(s, o) && ((s.pc.Wait? && !o.Fine?) || s.pc.ReadAck?)
    requires |s.current| == s.groups && s.slots > 0
    ensures QueueInv(DispatchStep(s, o))
  {
    var s' := DispatchStep(s, o);
    assert s'.received == s.received && s'.routed == s.routed && s'.queue == s.queue && s'.arrived == s.arrived;
  }

  lemma ConcludeKeeps(s: State, o: Outcome)
    requires Inv(s) && CanDispatch(s, o)
    requires (s.pc.Wait? && !o.Fine?) || s.pc.ReadAck?
    ensures Inv(DispatchStep(s, o))
  {
    ConcludeConsumers(s, o);
    ConcludeRoutes(s, o);
    ConcludeQueue(s, o);
  }

  lemma AckWaitKeeps(s: State)
    requires Inv(s) && s.pc.Wait? && CanDispatch(s, Fine)
    ensures Inv(DispatchStep(s, Fine))
  {
    var s' := DispatchStep(s, Fine);
    ConsumersKept(s, s', s.pc.k);
    RoutesKept(s, s');
  }

  lemma StopWriteKeeps(s: State, o: Outcome)
    requires Inv(s) && s.pc.StopWrite? && CanDispatch(s, o)
    ensures Inv(DispatchStep(s, o))
  {
    var (k, s') := (s.pc.k, DispatchStep(s, o));
    SendStopKeeps(s.consumers[k], Writes(s.consumers[k], o));
    ConsumersKept(s, s', k);
    RoutesKept(s, s');
  }

  lemma CloseOneKeeps(c: Consumer, listen: bool)
    requires ConsumerInv(c) && c.log.stopTried
    ensures ConsumerInv(if listen then c.(listenOpen := false) else c.(writeOpen := false))
  {
    var c' := if listen then c.(listenOpen := false) else c.(writeOpen := false);
    assert c'.log.acked + c'.up == c.log.acked + c.up;
  }

  lemma CloseKeeps(s: State, o: Outcome)
    requires Inv(s) && (s.pc.CloseListen? || s.pc.CloseWrite?) && CanDispatch(s, o)
    ensures Inv(DispatchStep(s, o))
  {
    var (k, s') := (s.pc.k, DispatchStep(s, o));
    CloseOneKeeps(s.consumers[k], s.pc.CloseListen?);
    ConsumersKept(s, s', k);
    RoutesKept(s, s');
  }

  lemma DispatchKeeps(s: State, o: Outcome)
    requires Inv(s) && CanDispatch(s, o)
    ensures Inv(DispatchStep(s, o))
  {
    match s.pc
    case Receive => ReceiveKeeps(s, o);
    case Write(_) => WriteKeeps(s, o);
    case Wait(_, _, _) => if o.Fine? { AckWaitKeeps(s); } else { ConcludeKeeps(s, o); }
    case ReadAck(_, _, _) => ConcludeKeeps(s, o);
    case StopWrite(_) => StopWriteKeeps(s, o);
    case _ => CloseKeeps(s, o);
  }

  lemma InitInv(groups: nat, slots: nat, room: nat)
    requires groups > 0 && slots > 0 && room > 0
    ensures Inv(Init(groups, slots, room))
  {
    Quotient(0, slots, 0, 0);
  }

  lemma StepInv(s: State, mv: Move)
    requires Inv(s)
    ensures Inv(Step(s, mv))
  {
    if Enabled(s, mv) {
      match mv
      case Enqueue(m) => EnqueueKeeps(s, m);
      case Dispatch(o) => DispatchKeeps(s, o);
      case Consume(k, o) => ConsumerKeeps(s, k, o);
    }
  }

  // The states of `groups` groups of `slots` consumers after any run, with pipes of any capacity.
  ghost predicate Reachable(s: State, groups: nat, slots: nat) {
    exists room: nat, moves :: room > 0 && s == Run(Init(groups, slots, room), moves)
  }

  lemma {:induction false} RunInv(s: State, moves: seq<Move>)
    requires Inv(s)
    ensures Inv(Run(s, moves)) && Run(s, moves).groups == s.groups && Run(s, moves).slots == s.slots
  {
    if moves != [] {
      RunInv(s, moves[..|moves| - 1]);
      StepInv(Run(s, moves[..|moves| - 1]), moves[|moves| - 1]);
    }
  }

  lemma {:induction false} RunAppend(s: State, a: seq<Move>, b: seq<Move>)
    ensures Run(s, a + b) == Run(Run(s, a), b)
  {
    if b == [] {
      assert a + b == a;
    } else {
      RunAppend(s, a, b[..|b| - 1]);
      assert (a + b)[..|a + b| - 1] == a + b[..|b| - 1];
    }
  }

  lemma ReachableInv(s: State, groups: nat, slots: nat)
    requires groups > 0 && slots > 0 && Reachable(s, groups, slots)
    ensures Inv(s) && s.groups == groups && s.slots == slots
  {
    var room: nat, moves :| room > 0 && s == Run(Init(groups, slots, room), moves);
    InitInv(groups, slots, room);
    RunInv(Init(groups, slots, room), moves);
  }
}
