/** Who holds which pipe end after start-up: pipes are made, consumers and the dispatcher are
    forked with copies of the parent's descriptors, and everyone closes what it does not use.
    Closing a descriptor that is not open is an error the code ignores. */
module Descriptors {
  datatype Link = ToConsumer | ToDispatcher

  datatype Side = ReadEnd | WriteEnd

  // The pipe ends of consumer `j` of group `i`.
  datatype End = End(link: Link, i: nat, j: nat, side: Side)

  predicate InRange(e: End, groups: nat, slots: nat) {
    e.i < groups && e.j < slots
  }

  // The ends for consumer (i, j) come before those for (x, y) in the nested loops.
  predicate Before(e: End, i: nat, j: nat) {
    e.i < i || (e.i == i && e.j < j)
  }

  predicate ConsumerEnd(e: End) {
    (e.link.ToConsumer? && e.side.ReadEnd?) || (e.link.ToDispatcher? && e.side.WriteEnd?)
  }

  class Process {
    var open: set<End>

    constructor ()
      ensures open == {}
    {
      open := {};
    }

    // The child of a fork starts with the parent's descriptors.
    constructor Fork(parent: Process)
      ensures open == parent.open
    {
      open := parent.open;
    }

    method Close(e: End)
      modifies this
      ensures open == old(open) - {e}
    {
      open := open - {e};
    }

    method CloseAll(i: nat, j: nat)
      modifies this
      ensures forall e :: e in open <==> e in old(open) && !(e.i == i && e.j == j)
    {
      Close(End(ToConsumer, i, j, ReadEnd));
      Close(End(ToConsumer, i, j, WriteEnd));
      Close(End(ToDispatcher, i, j, ReadEnd));
      Close(End(ToDispatcher, i, j, WriteEnd));
      EndsAreAll(i, j);
      assert open == old(open) - Ends(i, j);
    }
  }

  // The four ends of a consumer's two pipes.
  function Ends(i: nat, j: nat): set<End> {
    {End(ToConsumer, i, j, ReadEnd), End(ToConsumer, i, j, WriteEnd),
     End(ToDispatcher, i, j, ReadEnd), End(ToDispatcher, i, j, WriteEnd)}
  }

  lemma EndsAreAll(i: nat, j: nat)
    ensures forall e :: e in Ends(i, j) <==> e.i == i && e.j == j
  {
    forall e: End | e.i == i && e.j == j ensures e in Ends(i, j) {
      match e
      case End(ToConsumer, _, _, ReadEnd) =>
      case End(ToConsumer, _, _, WriteEnd) =>
      case End(ToDispatcher, _, _, ReadEnd) =>
      case End(ToDispatcher, _, _, WriteEnd) =>
    }
  }

  // The environment's choice: the consumers for which a call fails.
  type Failures = set<(nat, nat)>

  ghost predicate NoneIn(f: Failures, groups: nat, slots: nat) {
    forall i: nat, j: nat :: i < groups && j < slots ==> (i, j) !in f
  }

  // `init_pipe`; where pipe() fails, for the way down or the way up, the ends made so far stay open.
  method InitPipes(p: Process, groups: nat, slots: nat, down: Failures, up: Failures) returns (ok: bool)
    requires p.open == {}
    modifies p
    ensures ok <==> NoneIn(down + up, groups, slots)
    ensures forall e :: e in p.open ==> InRange(e, groups, slots)
    ensures ok ==> forall e :: e in p.open <==> InRange(e, groups, slots)
  {
    var i := 0;
    while i < groups
      invariant 0 <= i <= groups
      invariant forall e :: e in p.open <==> e.i < i && e.j < slots
      invariant forall x: nat, y: nat :: x < i && y < slots ==> (x, y) !in down + up
    {
      var j := 0;
      while j < slots
        invariant 0 <= j <= slots
        invariant forall e :: e in p.open <==> InRange(e, groups, slots) && Before(e, i, j)
        invariant forall x: nat, y: nat :: (x < i || (x == i && y < j)) && y < slots ==> (x, y) !in down + up
      {
        if (i, j) in down {
          return false;
        }
        ghost var before := p.open;
        p.open := p.open + {End(ToConsumer, i, j, ReadEnd), End(ToConsumer, i, j, WriteEnd)};
        if (i, j) in up {
          return false;
        }
        p.open := p.open + {End(ToDispatcher, i, j, ReadEnd), End(ToDispatcher, i, j, WriteEnd)};
        EndsAreAll(i, j);
        assert p.open == before + Ends(i, j);
        j := j + 1;
      }
      i := i + 1;
    }
    return true;
  }

  // What consumer (i, j) does with its copy of the descriptors before it starts to read.
  method ConsumerCloses(p: Process, i: nat, j: nat, groups: nat, slots: nat)
    requires i < groups && j < slots
    modifies p
    ensures forall e :: e in p.open <==>
              e in old(p.open) && (InRange(e, groups, slots) ==> e.i == i && e.j == j && ConsumerEnd(e))
  {
    p.Close(End(ToConsumer, i, j, WriteEnd));
    p.Close(End(ToDispatcher, i, j, ReadEnd));
    var x := 0;
    while x < groups
      invariant 0 <= x <= groups
      invariant forall e :: e in p.open <==> e in old(p.open) && ConsumerKeeps(e, i, j, x, 0, slots)
    {
      var y := 0;
      while y < slots
        invariant 0 <= y <= slots
        invariant forall e :: e in p.open <==> e in old(p.open) && ConsumerKeeps(e, i, j, x, y, slots)
      {
        if x != i || y != j {
          p.CloseAll(x, y);
        }
        y := y + 1;
      }
      x := x + 1;
    }
  }

  // What is left when the closing loops of consumer (i, j) have reached (x, y).
  predicate ConsumerKeeps(e: End, i: nat, j: nat, x: nat, y: nat, slots: nat) {
    if e.i == i && e.j == j then ConsumerEnd(e) else !(e.j < slots && Before(e, x, y))
  }

  // `init_consumer`; fork may fail, and then the consumers started so far remain.
  method InitConsumers(p: Process, groups: nat, slots: nat, forks: Failures)
    returns (ok: bool, consumers: map<(nat, nat), Process>)
    requires forall e :: e in p.open <==> InRange(e, groups, slots)
    modifies p
    ensures forall k :: k in consumers ==> fresh(consumers[k])
    ensures forall k :: k in consumers ==> k.0 < groups && k.1 < slots && HoldsOwn(consumers[k].open, k.0, k.1)
    ensures ok <==> NoneIn(forks, groups, slots)
    ensures ok ==> forall i: nat, j: nat :: i < groups && j < slots ==> (i, j) in consumers
    ensures ok ==> forall e :: e in p.open <==> InRange(e, groups, slots) && !ConsumerEnd(e)
  {
    consumers := map[];
    var i := 0;
    while i < groups
      invariant 0 <= i <= groups
      invariant forall e :: e in p.open <==> InRange(e, groups, slots) && (Before(e, i, 0) ==> !ConsumerEnd(e))
      invariant forall k :: k in consumers ==> fresh(consumers[k]) && k.0 < groups && k.1 < slots
      invariant forall k :: k in consumers ==> HoldsOwn(consumers[k].open, k.0, k.1)
      invariant forall x: nat, y: nat :: x < i && y < slots ==> (x, y) in consumers && (x, y) !in forks
    {
      var j := 0;
      while j < slots
        invariant 0 <= j <= slots
        invariant forall e :: e in p.open <==> InRange(e, groups, slots) && (Before(e, i, j) ==> !ConsumerEnd(e))
        invariant forall k :: k in consumers ==> fresh(consumers[k]) && k.0 < groups && k.1 < slots
        invariant forall k :: k in consumers ==> HoldsOwn(consumers[k].open, k.0, k.1)
        invariant forall x: nat, y: nat ::
                    (x < i || (x == i && y < j)) && y < slots ==> (x, y) in consumers && (x, y) !in forks
      {
        if (i, j) in forks {
          return false, consumers;
        }
        var child := new Process.Fork(p);
        ConsumerCloses(child, i, j, groups, slots);
        consumers := consumers[(i, j) := child];
        p.Close(End(ToConsumer, i, j, ReadEnd));
        p.Close(End(ToDispatcher, i, j, WriteEnd));
        j := j + 1;
      }
      i := i + 1;
    }
    return true, consumers;
  }

  // Exactly the two ends a consumer uses.
  predicate HoldsOwn(open: set<End>, i: nat, j: nat) {
    open == {End(ToConsumer, i, j, ReadEnd), End(ToDispatcher, i, j, WriteEnd)}
  }

  // The closing loops of `main`.
  method ParentCloses(p: Process, groups: nat, slots: nat)
    modifies p
    ensures forall e :: e in p.open <==> e in old(p.open) && !InRange(e, groups, slots)
  {
    var i := 0;
    while i < groups
      invariant 0 <= i <= groups
      invariant forall e :: e in p.open <==> e in old(p.open) && !(e.i < i && e.j < slots)
    {
      var j := 0;
      while j < slots
        invariant 0 <= j <= slots
        invariant forall e :: e in p.open <==> e in old(p.open) && !(e.j < slots && Before(e, i, j))
      {
        p.CloseAll(i, j);
        j := j + 1;
      }
      i := i + 1;
    }
  }

  // The start-up sequence of `main`; `lastFork` is whether the dispatcher is forked. When nothing
  // fails, each consumer holds exactly its own read end and acknowledgement end, the dispatcher
  // exactly the opposite ends, the parent none.
  method StartUp(groups: nat, slots: nat, down: Failures, up: Failures, forks: Failures, lastFork: bool)
    returns (ok: bool, parent: Process, dispatcher: Process?, consumers: map<(nat, nat), Process>)
    ensures ok <==> NoneIn(down + up + forks, groups, slots) && lastFork
    ensures ok ==> parent.open == {} && dispatcher != null
    ensures ok ==> forall k :: k in consumers <==> k.0 < groups && k.1 < slots
    ensures ok ==> forall k :: k in consumers ==> HoldsOwn(consumers[k].open, k.0, k.1)
    ensures ok ==> forall e :: e in dispatcher.open <==> InRange(e, groups, slots) && !ConsumerEnd(e)
  {
    parent := new Process();
    dispatcher, consumers := null, map[];
    ok := InitPipes(parent, groups, slots, down, up);
    if !ok {
      return;
    }
    ok, consumers := InitConsumers(parent, groups, slots, forks);
    if !ok {
      return;
    }
    if !lastFork {
      ok := false;
      return;
    }
    dispatcher := new Process.Fork(parent);
    ParentCloses(parent, groups, slots);
  }

  // Every pipe end then has exactly one owner: the consumer it is for, or the dispatcher.
  lemma OneOwner(groups: nat, slots: nat, dispatcher: set<End>, consumers: map<(nat, nat), set<End>>, e: End)
    requires forall k :: k in consumers <==> k.0 < groups && k.1 < slots
    requires forall k :: k in consumers ==> HoldsOwn(consumers[k], k.0, k.1)
    requires forall e :: e in dispatcher <==> InRange(e, groups, slots) && !ConsumerEnd(e)
    ensures e in dispatcher ==> forall k :: k in consumers ==> e !in consumers[k]
    ensures forall k, k' :: k in consumers && k' in consumers && e in consumers[k] && e in consumers[k'] ==> k == k'
    ensures InRange(e, groups, slots) <==> e in dispatcher || exists k :: k in consumers && e in consumers[k]
  {
    if InRange(e, groups, slots) && ConsumerEnd(e) {
      assert (e.i, e.j) in consumers && e in consumers[(e.i, e.j)];
    }
  }
}
