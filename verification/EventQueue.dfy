/** The event queue as one thread sees it: real nodes, `head` at a dummy, `tail` at the last node
    or one behind it. The weak compare-and-swap that follows a successful link may fail
    spuriously and leaves `tail` behind, so the helping branches run here too; the others are
    retried by the code and are modelled as succeeding when their values match. */
module EventQueue {
  import opened Messages

  // What one push does to a queue that evicts when it holds `cap` entries.
  function Pushed(q: seq<Message>, m: Message, cap: nat): seq<Message> {
    if |q| >= cap then (q + [m])[1..] else q + [m]
  }

  function PushedAll(q: seq<Message>, ms: seq<Message>, cap: nat): seq<Message> {
    if ms == [] then q else Pushed(PushedAll(q, ms[..|ms| - 1], cap), ms[|ms| - 1], cap)
  }

  function Last(ms: seq<Message>, n: nat): seq<Message> {
    if |ms| <= n then ms else ms[|ms| - n..]
  }

  // A sole producer keeps exactly the newest `cap` messages, in order.
  lemma {:induction false} Window(ms: seq<Message>, cap: nat)
    ensures PushedAll([], ms, cap) == Last(ms, cap)
  {
    if ms != [] {
      Window(ms[..|ms| - 1], cap);
      assert ms == ms[..|ms| - 1] + [ms[|ms| - 1]];
    }
  }

  // ---------- what the table view shows ----------

  // The entry `a` shows message `m`; the fields that are not copied keep what was there.
  predicate ShownAs(a: Message, m: Message) {
    && a.op == m.op && a.gid == m.gid && a.uid == m.uid
    && a.comm == Fit(m.comm, COMM_SIZE) && a.file == Fit(m.file, FILE_SIZE)
    && (m.op == OP_RENAME ==> a.newFile == Fit(m.newFile, FILE_SIZE))
  }

  // An entry at which the table view stops.
  predicate StopsTable(m: Message) {
    m.op == STOP_MESSAGE || m.file == ""
  }

  // The rows the table view selects: the longest prefix without a stopping entry.
  function TableRows(q: seq<Message>): (n: nat)
    ensures n <= |q|
    ensures forall k :: 0 <= k < n ==> !StopsTable(q[k])
    ensures n < |q| ==> StopsTable(q[n])
  {
    if q == [] || StopsTable(q[0]) then 0 else 1 + TableRows(q[1..])
  }

  lemma TableRowsUnique(q: seq<Message>, n: nat)
    requires n <= |q| && (forall k :: 0 <= k < n ==> !StopsTable(q[k])) && (n < |q| ==> StopsTable(q[n]))
    ensures n == TableRows(q)
  {
    var r := TableRows(q);
    assert n < |q| ==> StopsTable(q[n]);
    assert r < |q| ==> StopsTable(q[r]);
  }

  // How full a sole producer leaves the queue.
  lemma WindowLength(ms: seq<Message>, cap: nat)
    ensures |PushedAll([], ms, cap)| == Min(|ms|, cap)
  {
    Window(ms, cap);
  }

  // ---------- the queue ----------

  class Node {
    var msg: Message
    var next: Node?

    constructor (msg: Message)
      ensures this.msg == msg && next == null
    {
      this.msg := msg;
      next := null;
    }
  }

  class Dequeue {
    var head: Node?
    var tail: Node?
    var size: int
    const cap: nat
    ghost var nodes: seq<Node>          // from the dummy to the last node
    ghost var contents: seq<Message>    // the messages behind the dummy
    ghost var created: set<Node>
    ghost var freed: set<Node>

    ghost predicate Chained()
      reads this, nodes
    {
      && |nodes| >= 1 && head == nodes[0]
      && (forall i, j :: 0 <= i < j < |nodes| ==> nodes[i] != nodes[j])
      && (forall i {:trigger nodes[i].next} :: 0 <= i < |nodes| ==>
            nodes[i].next == if i + 1 < |nodes| then nodes[i + 1] else null)
      && (tail == nodes[|nodes| - 1] || (|nodes| >= 2 && tail == nodes[|nodes| - 2]))
    }

    // All of `Valid` but the size counter, which a push updates last.
    ghost predicate Linked()
      reads this, nodes
    {
      && Chained()
      && |contents| + 1 == |nodes|
      && (forall i {:trigger contents[i]} :: 0 <= i < |contents| ==> contents[i] == nodes[i + 1].msg)
      && (forall n :: n in nodes ==> n !in freed)
      && created == freed + (set n | n in nodes)
    }

    ghost predicate Valid()
      reads this, nodes
    {
      Linked() && size == |contents|
    }

    // `initDequeue`.
    constructor (cap: nat)
      ensures Valid() && contents == [] && this.cap == cap && freed == {} && fresh(created)
    {
      var dummy := new Node(Message(0, 0, 0, 0, 0, "", "", ""));
      this.cap := cap;
      head, tail, size := dummy, dummy, 0;
      nodes, contents := [dummy], [];
      created, freed := {dummy}, {};
    }

    // `isEmpty` and `isFull`.
    method IsEmpty() returns (b: bool)
      requires Valid()
      ensures b <==> contents == []
    {
      b := size == 0;
    }

    method IsFull() returns (b: bool)
      requires Valid()
      ensures b <==> |contents| >= cap
    {
      b := size >= cap;
    }

    // `popFront`: the oldest entry, and the old dummy is freed.
    method PopFront() returns (ok: bool, msg: Message)
      requires Valid()
      modifies this
      ensures Valid() && created == old(created)
      ensures ok <==> old(contents) != []
      ensures ok ==> msg == old(contents)[0] && contents == old(contents)[1..]
      ensures ok ==> nodes == old(nodes)[1..] && freed == old(freed) + {old(nodes)[0]}
      ensures !ok ==> contents == old(contents) && nodes == old(nodes) && freed == old(freed)
    {
      msg := Message(0, 0, 0, 0, 0, "", "", "");
      while true
        invariant Valid() && contents == old(contents) && nodes == old(nodes)
        invariant created == old(created) && freed == old(freed)
        decreases if tail == nodes[|nodes| - 1] then 0 else 1
      {
        var h, t := head, tail;
        var next := h.next;
        if h == head {
          if h == t {
            if next == null {
              return false, msg;
            }
            tail := next;
          } else {
            msg := next.msg;
            head, size := next, size - 1;
            assert h !in freed;
            freed := freed + {h};
            nodes, contents := nodes[1..], contents[1..];
            return true, msg;
          }
        }
      }
    }

    // The successful compare-and-swap on the last node's `next`, and the swing of `tail`.
    method Link(node: Node, swung: bool)
      requires Valid() && tail.next == null && node !in created && node.next == null
      modifies this, tail
      ensures Linked() && size == old(size)
      ensures nodes == old(nodes) + [node] && contents == old(contents) + [node.msg]
      ensures created == old(created) + {node} && freed == old(freed)
    {
      var t := tail;
      ghost var n := |nodes|;
      assert t == nodes[n - 1] && node !in nodes;
      t.next := node;
      assert forall i {:trigger nodes[i].next} :: 0 <= i < n - 1 ==> nodes[i].next == nodes[i + 1];
      if swung {
        tail := node;
      }
      nodes, contents := nodes + [node], contents + [node.msg];
      created := created + {node};
    }

    // The counter update of a push, and the eviction when the counter had reached the capacity.
    method Count()
      requires Linked() && size + 1 == |contents|
      modifies this
      ensures Valid() && created == old(created)
      ensures contents == if |old(contents)| > cap then old(contents)[1..] else old(contents)
      ensures nodes == if |old(contents)| > cap then old(nodes)[1..] else old(nodes)
      ensures freed == old(freed) + if |old(contents)| > cap then {old(nodes)[0]} else {}
    {
      var oldSize := size;
      size := size + 1;
      if oldSize >= cap {
        var _, _ := PopFront();
      }
    }

    // `pushRear`; `room` says whether malloc succeeds, `swung` whether the tail swing after the
    // link takes effect.
    method PushRear(msg: Message, room: bool, swung: bool) returns (ok: bool, ghost added: Node?)
      requires Valid()
      modifies this, created
      ensures Valid() && fresh(created - old(created))
      ensures ok == room
      ensures contents == if room then Pushed(old(contents), msg, cap) else old(contents)
      ensures !room ==> nodes == old(nodes) && freed == old(freed)
      ensures room ==> freed == old(freed) + if |old(contents)| >= cap then {old(nodes)[0]} else {}
      ensures if room then added != null && fresh(added) && created == old(created) + {added}
              else created == old(created)
      ensures room ==> nodes == (old(nodes) + [added])[if |old(contents)| >= cap then 1 else 0..]
    {
      if !room {
        return false, null;
      }
      var node := new Node(msg);
      while true
        invariant Valid() && contents == old(contents) && nodes == old(nodes)
        invariant created == old(created) && freed == old(freed)
        invariant node.msg == msg && node.next == null && fresh(node) && node !in created
        decreases if tail == nodes[|nodes| - 1] then 0 else 1
      {
        var t := tail;
        var next := t.next;
        if t == tail {
          if next == null {
            Link(node, swung);
            Count();
            return true, node;
          } else {
            tail := next;
          }
        }
      }
    }

    // `displayEntries`. The terminator is written behind the last entry; when `cap` entries
    // were collected that place is outside the array, which `overrun` reports.
    method DisplayEntries(room: bool) returns (shown: array?<Message>, ghost count: nat, overrun: bool)
      requires Valid()
      ensures count == if room then Min(|contents|, cap) else 0
      ensures (shown == null) <==> (count == 0)
      ensures shown != null ==> fresh(shown) && shown.Length == cap
      ensures shown != null ==> forall k :: 0 <= k < count ==> ShownAs(shown[k], contents[k])
      ensures shown != null ==>
                forall k :: 0 <= k < count ==>
                  var (a, m) := (shown[k], contents[k]);
                  && a.op == m.op && a.uid == m.uid && a.gid == m.gid
                  && a.comm == m.comm[..Min(|m.comm|, 15)] && a.file == m.file[..Min(|m.file|, 127)]
                  && (m.op == 10 ==> a.newFile == m.newFile[..Min(|m.newFile|, 127)])
      ensures overrun <==> (room && 0 < cap <= |contents|)
      ensures count > 0 && !overrun ==> shown[count].op == 254
    {
      if !room {
        return null, 0, false;
      }
      var a := new Message[cap];
      var current, index := head.next, 0;
      while current != null && index < cap
        invariant Valid() && 0 <= index <= Min(|contents|, cap)
        invariant current == if index < |contents| then nodes[index + 1] else null
        invariant forall k :: 0 <= k < index ==> ShownAs(a[k], contents[k])
        decreases |contents| - index
      {
        var m := current.msg;
        a[index] := a[index].(op := m.op, gid := m.gid, uid := m.uid,
                              comm := Fit(m.comm, COMM_SIZE), file := Fit(m.file, FILE_SIZE));
        if m.op == OP_RENAME {
          a[index] := a[index].(newFile := Fit(m.newFile, FILE_SIZE));
        }
        current := current.next;
        index := index + 1;
      }
      if index == 0 {
        return null, 0, false;
      }
      shown, count, overrun := a, index, index >= cap;
      if index < cap {
        a[index] := a[index].(op := STOP_MESSAGE);
      }
    }

    // `update_table` without the drawing: how many entries become rows.
    method UpdateTable(room: bool) returns (rows: nat)
      requires Valid()
      ensures rows == if room then TableRows(contents[..Min(|contents|, cap)]) else 0
    {
      var shown, count, overrun := DisplayEntries(room);
      if shown == null {
        return 0;
      }
      ghost var q := contents[..count];
      rows := 0;
      while rows < shown.Length
        invariant 0 <= rows <= count
        invariant forall k :: 0 <= k < rows ==> !StopsTable(q[k])
      {
        if shown[rows].op == STOP_MESSAGE || shown[rows].file == "" {
          break;
        }
        assert rows < count;
        assert ShownAs(shown[rows], q[rows]);
        rows := rows + 1;
      }
      if rows < count { assert ShownAs(shown[rows], q[rows]); }
      TableRowsUnique(q, rows);
    }

    // `freeDequeue`: what is left of the chain is freed, so every node has been freed, once.
    method FreeDequeue()
      requires Valid()
      modifies this
      ensures head == null && tail == null && size == 0
      ensures freed == created == old(created)
    {
      var current := head;
      ghost var k := 0;
      while current != null
        invariant 0 <= k <= |nodes| && Chained() && nodes == old(nodes) && created == old(created)
        invariant current == if k < |nodes| then nodes[k] else null
        invariant freed == old(freed) + set n | n in nodes[..k]
        decreases |nodes| - k
      {
        var next := current.next;
        assert current !in freed;
        freed := freed + {current};
        assert nodes[..k + 1] == nodes[..k] + [nodes[k]];
        k := k + 1;
        current := next;
      }
      assert nodes[..k] == nodes;
      head, tail, size := null, null, 0;
    }
  }

  // The write behind the array is within easy reach: a new queue, `cap` or more pushes, one call.
  method FullQueueOverruns(ms: seq<Message>, cap: nat) returns (overrun: bool)
    requires 0 < cap
    ensures overrun <==> cap <= |ms|
  {
    var q := new Dequeue(cap);
    var i := 0;
    while i < |ms|
      invariant 0 <= i <= |ms| && q.Valid() && q.cap == cap && fresh(q) && fresh(q.created)
      invariant q.contents == PushedAll([], ms[..i], cap)
    {
      assert ms[..i + 1][..i] == ms[..i];
      var _, _ := q.PushRear(ms[i], true, true);
      i := i + 1;
    }
    assert ms[..i] == ms;
    WindowLength(ms, cap);
    var _, _, o := q.DisplayEntries(true);
    overrun := o;
  }
}
