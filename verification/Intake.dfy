/** From a kernel report to a message: recognition of the operation, counting, queueing, sending. */
module Intake {
  import opened Options
  import opened Messages
  import OperationTable
  import Counters
  import EventQueue
  import FileMonitor
  import DispatchMachine
  import DispatchInvariant
  import DispatchTheorems

  // The message built from an event. `junk` is the uninitialised record it is built in: the
  // timestamp is never set, and the second file name only for a rename.
  function BuildMessage(table: OperationTable.Table, e: FileMonitor.Event, junk: Message): Message
  {
    var code := OperationTable.Lookup(table, e.operation);
    junk.(gid := e.gid, uid := e.uid, category := FILE_ACTIVITY_MONITORING,
          newFile := if code == Some(OP_RENAME) then Fit(e.newFilename, FILE_SIZE) else junk.newFile,
          op := if code.Some? then code.value else OP_UNKNOWN,
          comm := Fit(e.comm, COMM_SIZE), file := Fit(e.filename, FILE_SIZE))
  }

  // Whatever the event, its message carries an operation code or "unknown", and so it is never
  // taken for an acknowledgement or a stop; and it goes to the first group.
  lemma CodesStayApart(e: FileMonitor.Event, junk: Message)
    ensures var m := BuildMessage(OperationTable.FRESH, e, junk);
            && (m.op <= OP_RENAME || m.op == OP_UNKNOWN)
            && m.op != 253 && m.op != 254 && 253 == ACK_MESSAGE && 254 == STOP_MESSAGE
            && m.category == FILE_ACTIVITY_MONITORING
            && (EventQueue.StopsTable(m) <==> e.filename == "")
  {
    OperationTable.ExactRecognition(e.operation);
  }

  // Of all reports of the kernel side, exactly those of the symlink hook are not recognised, and
  // the others get the code of the operation they name.
  lemma ReportsRecognised(cache: FileMonitor.Cache, target: FileMonitor.Ino, h: FileMonitor.Hook,
                          c: FileMonitor.Context, k: nat, junk: Message)
    requires k < |FileMonitor.Reports(cache, target, h, c)|
    ensures var e := FileMonitor.Reports(cache, target, h, c)[k];
            var m := BuildMessage(OperationTable.FRESH, e, junk);
            && (m.op == OP_UNKNOWN <==> h.InodeNamed? && h.what.Symlink?)
            && (m.op != OP_UNKNOWN ==> m.op <= OP_RENAME && OperationTable.OPERATIONS[m.op] == (e.operation, m.op))
  {
    var e := FileMonitor.Reports(cache, target, h, c)[k];
    OperationTable.ExactRecognition(e.operation);
    if h.InodeNamed? && h.what.Symlink? {
      OperationTable.SymlinkUnknown();
    } else {
      NameListed(e.operation, h);
    }
  }

  lemma NameListed(name: string, h: FileMonitor.Hook)
    requires match h
             case FileOpen(_, _, _, _) => name == "open"
             case FilePermission(_, _, _) => name == "read" || name == "write"
             case InodeNamed(what, _, _) => !what.Symlink? && name == FileMonitor.OperationName(what)
             case InodeRename(_, _, _, _) => name == "rename"
    ensures exists i :: 0 <= i < |OperationTable.OPERATIONS| && OperationTable.OPERATIONS[i].0 == name
  {
    var ops := OperationTable.OPERATIONS;
    assert ops[0].0 == "open" && ops[1].0 == "read" && ops[2].0 == "write" && ops[3].0 == "create";
    assert ops[4].0 == "link" && ops[5].0 == "unlink" && ops[7].0 == "mkdir" && ops[8].0 == "rmdir";
    assert ops[9].0 == "mknod" && ops[10].0 == "rename";
  }

  // ---------- from a hook to its message ----------

  // What a message tells of a hook triggered in context `c`: the user, the command, the operation
  // and the file, texts cut to their fields.
  predicate Tells(m: Message, c: FileMonitor.Context, op: int, file: string) {
    && m.uid == c.uidGid % 0x1_0000_0000
    && m.gid == c.uidGid / 0x1_0000_0000 % 0x1_0000_0000
    && m.category == 0 && m.op == op
    && m.comm == c.comm[..Min(|c.comm|, 15)]
    && m.file == file[..Min(|file|, 127)]
  }

  // What the message about the k-th report of a hook has to tell.
  ghost predicate TellsOf(m: Message, cache: FileMonitor.Cache, h: FileMonitor.Hook, c: FileMonitor.Context, k: nat) {
    match h
    case FileOpen(_, hasPath, path, _) => Tells(m, c, 0, if hasPath then path else "")
    case FilePermission(_, ino, mask) =>
      Tells(m, c, if mask % 4 == 2 || k == 1 then 2 else 1, if ino in cache then cache[ino].filename else "")
    case InodeNamed(what, _, name) =>
      && (what.Create? ==> Tells(m, c, 3, name)) && (what.Link? ==> Tells(m, c, 4, name))
      && (what.Unlink? ==> Tells(m, c, 5, name)) && (what.Symlink? ==> Tells(m, c, 255, name))
      && (what.Mkdir? ==> Tells(m, c, 7, name)) && (what.Rmdir? ==> Tells(m, c, 8, name))
      && (what.Mknod? ==> Tells(m, c, 9, name))
    case InodeRename(_, _, name, newName) =>
      Tells(m, c, 10, name) && m.newFile == newName[..Min(|newName|, 127)]
  }

  lemma EventTold(e: FileMonitor.Event, c: FileMonitor.Context, time: nat, operation: string, file: string,
                  newFile: string, junk: Message)
    requires FileMonitor.Says(e, c, time, operation, file, newFile)
    ensures var m := BuildMessage(OperationTable.FRESH, e, junk);
            var code := OperationTable.Lookup(OperationTable.FRESH, operation);
            && Tells(m, c, if code.Some? then code.value else 255, file)
            && (code == Some(10) ==> m.newFile == newFile[..Min(|newFile|, 127)])
  {}

  // Every report of every hook becomes a message that tells what the hook saw.
  lemma HookTold(cache: FileMonitor.Cache, target: FileMonitor.Ino, h: FileMonitor.Hook, c: FileMonitor.Context,
                 k: nat, junk: Message)
    requires k < |FileMonitor.Reports(cache, target, h, c)|
    ensures var e := FileMonitor.Reports(cache, target, h, c)[k];
            TellsOf(BuildMessage(OperationTable.FRESH, e, junk), cache, h, c, k)
  {
    assert c.scratchFound && FileMonitor.Watched(h, target);
    var e := FileMonitor.Reports(cache, target, h, c)[k];
    OperationTable.NamesAndCodes(e.operation);
    EventTold(e, c, e.timestamp, e.operation, e.filename, e.newFilename, junk);
    match h
    case FileOpen(_, hasPath, path, ino) => FileMonitor.OpenReport(cache, target, hasPath, path, ino, c);
    case FilePermission(_, ino, mask) => FileMonitor.AccessReport(cache, target, ino, mask, c);
    case InodeNamed(what, _, name) => FileMonitor.NamedReport(cache, target, what, name, c);
    case InodeRename(dir, newDir, name, newName) =>
      FileMonitor.RenameReport(cache, target, dir, newDir, name, newName, c);
  }

  // ---------- the handler in memory ----------

  // What the environment decides while an event is handled.
  datatype Luck = Luck(junk: Message, room: bool, swung: bool, sendOk: bool)

  type Arrival = (FileMonitor.Event, Luck)

  function Built(t: OperationTable.Table, a: Arrival): Message {
    BuildMessage(t, a.0, a.1.junk)
  }

  // The codes of a run of events, and the messages for which the queue found memory.
  function Codes(t: OperationTable.Table, run: seq<Arrival>): seq<Byte> {
    if run == [] then [] else Codes(t, run[..|run| - 1]) + [Built(t, run[|run| - 1]).op]
  }

  function Stored(t: OperationTable.Table, run: seq<Arrival>): seq<Message> {
    if run == [] then []
    else Stored(t, run[..|run| - 1]) + if run[|run| - 1].1.room then [Built(t, run[|run| - 1])] else []
  }

  // No stored message carries a control code.
  lemma {:induction false} StoredNeverStops(t: OperationTable.Table, run: seq<Arrival>)
    requires t == OperationTable.FRESH
    ensures forall m :: m in Stored(t, run) ==> m.op != ACK_MESSAGE && m.op != STOP_MESSAGE
  {
    if run != [] {
      StoredNeverStops(t, run[..|run| - 1]);
      CodesStayApart(run[|run| - 1].0, run[|run| - 1].1.junk);
    }
  }

  // The longest prefix of `q` without an empty file name.
  function Named(q: seq<Message>): (n: nat)
    ensures n <= |q|
    ensures forall k :: 0 <= k < n ==> q[k].file != ""
    ensures n < |q| ==> q[n].file == ""
  {
    if q == [] || q[0].file == "" then 0 else 1 + Named(q[1..])
  }

  lemma NamedRows(q: seq<Message>)
    requires forall m :: m in q ==> m.op != STOP_MESSAGE
    ensures EventQueue.TableRows(q) == Named(q)
  {
    forall k | 0 <= k < |q| ensures EventQueue.StopsTable(q[k]) <==> q[k].file == "" {
      assert q[k] in q;
    }
    EventQueue.TableRowsUnique(q, Named(q));
  }

  // ---------- what the dispatcher makes of it ----------

  // A message that the handler may send, or a stop.
  ghost predicate FromHandler(m: Message) {
    m.op == STOP_MESSAGE || exists e, junk :: m == BuildMessage(OperationTable.FRESH, e, junk)
  }

  // Fed by the event handler, the consumers of all groups but the first get nothing, and every
  // routed code is an operation or "unknown".
  lemma EventsReachFirstGroup(s: DispatchMachine.State, groups: nat, slots: nat, k: nat)
    requires groups > 0 && slots > 0 && DispatchInvariant.Reachable(s, groups, slots) && k < |s.consumers|
    requires forall m :: m in s.arrived ==> FromHandler(m)
    ensures k >= slots ==> s.consumers[k].log.addressed == []
    ensures forall m :: m in s.routed ==> m.op <= OP_RENAME || m.op == OP_UNKNOWN
  {
    forall m | m in s.arrived && m.op != STOP_MESSAGE
      ensures m.category == FILE_ACTIVITY_MONITORING && (m.op <= OP_RENAME || m.op == OP_UNKNOWN)
    {
      assert FromHandler(m);
      var e, junk :| m == BuildMessage(OperationTable.FRESH, e, junk);
      CodesStayApart(e, junk);
    }
    DispatchInvariant.ReachableInv(s, groups, slots);
    forall m | m in s.routed ensures m.op <= OP_RENAME || m.op == OP_UNKNOWN {
      DispatchTheorems.RoutedArrived(s, m);
    }
    if k >= slots { DispatchTheorems.OnlyFirstGroup(s, groups, slots, k); }
  }

  // ---------- a run of the handler ----------

  // The queue and the counters after handling `run` from the start.
  ghost predicate HandledAs(t: OperationTable.Table, run: seq<Arrival>, cap: nat,
                            contents: seq<Message>, counts: seq<nat>) {
    && contents == EventQueue.PushedAll([], Stored(t, run), cap)
    && counts == Counters.BumpAll(Counters.ZEROS, Codes(t, run))
  }

  lemma HandledOneMore(t: OperationTable.Table, run: seq<Arrival>, cap: nat,
                       contents: seq<Message>, counts: seq<nat>, a: Arrival)
    requires HandledAs(t, run, cap, contents, counts)
    ensures HandledAs(t, run + [a], cap,
                      if a.1.room then EventQueue.Pushed(contents, Built(t, a), cap) else contents,
                      Counters.Bump(counts, Built(t, a).op))
  {
    assert (run + [a])[..|run|] == run;
    assert (Stored(t, run) + [Built(t, a)])[..|Stored(t, run)|] == Stored(t, run);
    assert (Codes(t, run) + [Built(t, a).op])[..|Codes(t, run)|] == Codes(t, run);
    assert !a.1.room ==> Stored(t, run + [a]) == Stored(t, run);
  }

  twostate lemma TableUntouched(table: OperationTable.OperationMap)
    requires old(table.Valid())
    requires unchanged(table) && unchanged(table.items) && unchanged(table.created)
    ensures table.Valid() && table.View() == old(table.View())
  {}

  method FreshTable() returns (t: OperationTable.OperationMap)
    ensures t.Valid() && t.View() == OperationTable.FRESH
    ensures fresh(t) && fresh(t.items) && fresh(t.created)
  {
    t := new OperationTable.OperationMap();
    t.Init();
  }

  class Handler {
    const table: OperationTable.OperationMap
    ghost const known: OperationTable.Table   // what the table holds
    const counters: Counters.OperationCounters
    const queue: EventQueue.Dequeue
    var outbox: seq<Message>

    ghost predicate Valid()
      reads this, table, table.items, table.created, counters, queue, queue.nodes
    {
      && table.Valid() && table.View() == known
      && queue.Valid()
    }

    // `main`: an empty queue, a filled table, counters at zero.
    constructor (cap: nat)
      ensures Valid() && known == OperationTable.FRESH && queue.cap == cap && queue.contents == [] && outbox == []
      ensures counters.Counts() == Counters.ZEROS
      ensures fresh(table) && fresh(table.items) && fresh(table.created) && fresh(counters)
      ensures fresh(queue) && fresh(queue.created)
    {
      var t := FreshTable();
      table, known := t, t.View();
      counters := new Counters.OperationCounters();
      queue := new EventQueue.Dequeue(cap);
      outbox := [];
    }

    // The first half of `handle_event`: the message, field by field.
    method MakeMessage(e: FileMonitor.Event, junk: Message) returns (msg: Message)
      requires table.Valid()
      ensures msg == BuildMessage(table.View(), e, junk)
    {
      msg := junk;
      msg := msg.(gid := e.gid);
      msg := msg.(uid := e.uid);
      msg := msg.(category := FILE_ACTIVITY_MONITORING);
      var value, found := table.Get(e.operation);
      if found {
        if value == OP_RENAME {
          msg := msg.(newFile := Fit(e.newFilename, FILE_SIZE));
        }
        msg := msg.(op := value);
      } else {
        msg := msg.(op := OP_UNKNOWN);
      }
      msg := msg.(comm := Fit(e.comm, COMM_SIZE));
      msg := msg.(file := Fit(e.filename, FILE_SIZE));
    }

    method Store(msg: Message, luck: Luck)
      requires Valid()
      modifies queue, queue.created
      ensures Valid() && fresh(queue.created - old(queue.created)) && counters.Counts() == old(counters.Counts())
      ensures queue.contents == if luck.room then EventQueue.Pushed(old(queue.contents), msg, queue.cap)
                                else old(queue.contents)
    {
      var _, _ := queue.PushRear(msg, luck.room, luck.swung);
      TableUntouched(table);
    }

    // `handle_event`. Sending either enqueues the message once or not at all.
    method HandleEvent(e: FileMonitor.Event, luck: Luck)
      requires Valid()
      modifies this, counters, queue, queue.created
      ensures Valid() && fresh(queue.created - old(queue.created))
      ensures var m := BuildMessage(known, e, luck.junk);
              && counters.Counts() == Counters.Bump(old(counters.Counts()), m.op)
              && queue.contents == (if luck.room then EventQueue.Pushed(old(queue.contents), m, queue.cap)
                                    else old(queue.contents))
              && outbox == old(outbox) + if luck.sendOk then [m] else []
    {
      var msg := MakeMessage(e, luck.junk);
      counters.IncrementCounter(msg.op);
      Store(msg, luck);
      if luck.sendOk {
        outbox := outbox + [msg];
      }
    }

    // From a report of a hook to the queue and to the dispatcher: the newest entry, and what is
    // sent last, tell what the hook saw.
    method HandleReport(cache: FileMonitor.Cache, target: FileMonitor.Ino, h: FileMonitor.Hook,
                        c: FileMonitor.Context, k: nat, luck: Luck)
      requires Valid() && known == OperationTable.FRESH && queue.cap > 0
      requires k < |FileMonitor.Reports(cache, target, h, c)|
      modifies this, counters, queue, queue.created
      ensures Valid() && fresh(queue.created - old(queue.created))
      ensures luck.room ==> queue.contents != [] && TellsOf(queue.contents[|queue.contents| - 1], cache, h, c, k)
      ensures luck.sendOk ==> |outbox| == |old(outbox)| + 1 && TellsOf(outbox[|old(outbox)|], cache, h, c, k)
      ensures !luck.sendOk ==> outbox == old(outbox)
    {
      HookTold(cache, target, h, c, k, luck.junk);
      HandleEvent(FileMonitor.Reports(cache, target, h, c)[k], luck);
    }

    method HandleNext(run: seq<Arrival>, i: nat)
      requires Valid() && i < |run|
      requires HandledAs(known, run[..i], queue.cap, queue.contents, counters.Counts())
      modifies this, counters, queue, queue.created
      ensures Valid() && fresh(queue.created - old(queue.created))
      ensures HandledAs(known, run[..i + 1], queue.cap, queue.contents, counters.Counts())
    {
      assert run[..i + 1] == run[..i] + [run[i]];
      HandledOneMore(known, run[..i], queue.cap, queue.contents, counters.Counts(), run[i]);
      HandleEvent(run[i].0, run[i].1);
    }

    // The perf-buffer loop: after any number of events the queue is exactly the newest `cap`
    // messages for which memory was found, and every counter is the number of events with its
    // code, modulo the word.
    method HandleAll(run: seq<Arrival>)
      requires Valid()
      requires queue.contents == [] && counters.Counts() == Counters.ZEROS
      modifies this, counters, queue, queue.created
      ensures Valid()
      ensures queue.contents == EventQueue.Last(Stored(known, run), queue.cap)
      ensures forall code :: 0 <= code < Counters.CODES ==>
                counters.Counts()[code] == Counters.Tally(Codes(known, run), code) % WORD
    {
      var i := 0;
      while i < |run|
        invariant 0 <= i <= |run| && Valid()
        invariant fresh(queue.created - old(queue.created))
        invariant HandledAs(known, run[..i], queue.cap, queue.contents, counters.Counts())
      {
        HandleNext(run, i);
        i := i + 1;
      }
      assert run[..i] == run;
      EventQueue.Window(Stored(known, run), queue.cap);
      forall code | 0 <= code < Counters.CODES
        ensures counters.Counts()[code] == Counters.Tally(Codes(known, run), code) % WORD
      {
        Counters.CountersTally(Codes(known, run), code);
      }
    }

    // The whole way from the first event to the table: its rows are the longest prefix of the
    // newest messages without an empty file name.
    method HandleAndShow(run: seq<Arrival>, room: bool) returns (rows: nat)
      requires Valid() && known == OperationTable.FRESH
      requires queue.contents == [] && counters.Counts() == Counters.ZEROS
      modifies this, counters, queue, queue.created
      ensures Valid()
      ensures rows == if room then Named(EventQueue.Last(Stored(known, run), queue.cap)) else 0
    {
      HandleAll(run);
      rows := queue.UpdateTable(room);
      var shown := EventQueue.Last(Stored(known, run), queue.cap);
      assert queue.contents[..Min(|queue.contents|, queue.cap)] == shown;
      StoredNeverStops(known, run);
      NamedRows(shown);
    }
  }
}
