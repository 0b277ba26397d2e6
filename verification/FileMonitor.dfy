/** The kernel-side hooks: a bounded cache from inode to path, filled on open and read on
    read/write, and one scratch record that every hook clears and fills again. What the kernel's
    helpers return is an input of the hook. */
module FileMonitor {
  import opened Messages

  // `struct data_t`.
  datatype Event = Event(
    pid: nat,
    uid: nat,
    gid: nat,
    timestamp: nat,
    comm: string,
    filename: string,
    newFilename: string,
    operation: string)

  const CLEARED: Event := Event(0, 0, 0, 0, "", "", "", "")

  type Ino = nat

  // The hooks that report one name in a directory, and nothing else.
  datatype Named = Create | Link | Unlink | Symlink | Mkdir | Rmdir | Mknod

  function OperationName(n: Named): string {
    match n
    case Create => "create"
    case Link => "link"
    case Unlink => "unlink"
    case Symlink => "symlink"
    case Mkdir => "mkdir"
    case Rmdir => "rmdir"
    case Mknod => "mknod"
  }

  // A hook with the kernel objects it is given: the inode of the parent directory, whether the
  // path has a dentry and a mount, what `bpf_d_path` wrote, the inode, the access mask, names.
  datatype Hook =
    | FileOpen(dir: Ino, hasPath: bool, path: string, ino: Ino)
    | FilePermission(dir: Ino, ino: Ino, mask: int)
    | InodeNamed(what: Named, dir: Ino, name: string)
    | InodeRename(dir: Ino, newDir: Ino, name: string, newName: string)

  // Who triggered the hook and when; `later` is the clock at a second report of one hook.
  datatype Context = Context(scratchFound: bool, pidTgid: nat, uidGid: nat, comm: string, now: nat, later: nat)

  predicate MayRead(mask: int) { mask % 2 == 1 }

  predicate MayWrite(mask: int) { mask / 2 % 2 == 1 }

  function Stamp(e: Event, c: Context, time: nat): Event {
    e.(pid := c.pidTgid / HALF_WORD, timestamp := time,
       uid := c.uidGid % HALF_WORD, gid := c.uidGid / HALF_WORD % HALF_WORD, comm := c.comm)
  }

  // ---------- one hook as a value ----------

  type Cache = map<Ino, Event>

  predicate Watched(h: Hook, target: Ino) {
    h.dir == target || (h.InodeRename? && h.newDir == target)
  }

  // Updating an existing key always succeeds, adding one needs room.
  function CacheAfterHook(cache: Cache, cap: nat, target: Ino, h: Hook, c: Context): Cache {
    if Watched(h, target) && c.scratchFound && h.FileOpen? && h.hasPath && (h.ino in cache || |cache| < cap)
    then cache[h.ino := CLEARED.(filename := h.path)]
    else cache
  }

  // The reports of a hook. The scratch record's earlier contents are not among the inputs.
  function Reports(cache: Cache, target: Ino, h: Hook, c: Context): seq<Event> {
    if !Watched(h, target) || !c.scratchFound then []
    else match h
      case FileOpen(_, hasPath, path, _) =>
        [Stamp(CLEARED.(filename := if hasPath then path else "", operation := "open"), c, c.now)]
      case FilePermission(_, ino, mask) =>
        var e := CLEARED.(filename := if ino in cache then cache[ino].filename else "");
        (if MayRead(mask) then [Stamp(e.(operation := "read"), c, c.now)] else []) +
        (if MayWrite(mask) then [Stamp(e.(operation := "write"), c, if MayRead(mask) then c.later else c.now)] else [])
      case InodeNamed(what, _, name) =>
        [Stamp(CLEARED.(filename := name, operation := OperationName(what)), c, c.now)]
      case InodeRename(_, _, name, newName) =>
        [Stamp(CLEARED.(filename := name, newFilename := newName, operation := "rename"), c, c.now)]
  }

  // The report `e` of a hook triggered in context `c` at `time`: who, when, what and about which file.
  predicate Says(e: Event, c: Context, time: nat, operation: string, filename: string, newFilename: string) {
    && e.pid == c.pidTgid / 0x1_0000_0000
    && e.uid == c.uidGid % 0x1_0000_0000
    && e.gid == c.uidGid / 0x1_0000_0000 % 0x1_0000_0000
    && e.comm == c.comm && e.timestamp == time
    && e.operation == operation && e.filename == filename && e.newFilename == newFilename
  }

  // ---------- the hooks in memory ----------

  class Monitor {
    const target: Ino
    const capacity: nat
    var cache: Cache
    var scratch: Event
    var events: seq<Event>

    constructor (target: Ino, capacity: nat, scratch: Event)
      ensures this.target == target && this.capacity == capacity && cache == map[] && events == []
    {
      this.target, this.capacity, this.scratch := target, capacity, scratch;
      cache, events := map[], [];
    }

    // `submit_event`.
    method Submit(c: Context, time: nat)
      modifies this`scratch, this`events
      ensures scratch == Stamp(old(scratch), c, time) && events == old(events) + [scratch]
    {
      scratch := scratch.(pid := c.pidTgid / HALF_WORD);
      scratch := scratch.(timestamp := time);
      scratch := scratch.(uid := c.uidGid % HALF_WORD);
      scratch := scratch.(gid := c.uidGid / HALF_WORD % HALF_WORD);
      scratch := scratch.(comm := c.comm);
      events := events + [scratch];
    }

    method OnFileOpen(h: Hook, c: Context)
      requires h.FileOpen?
      modifies this
      ensures cache == CacheAfterHook(old(cache), capacity, target, h, c)
      ensures events == old(events) + Reports(old(cache), target, h, c)
      ensures h.dir == target && c.scratchFound ==>
                |events| == |old(events)| + 1 &&
                Says(events[|old(events)|], c, c.now, "open", if h.hasPath then h.path else "", "")
    {
      if h.dir != target {
        return;
      }
      if !c.scratchFound {
        return;
      }
      scratch := CLEARED;
      if h.hasPath {
        scratch := scratch.(filename := h.path);
        if h.ino in cache || |cache| < capacity {
          cache := cache[h.ino := scratch];
        }
      }
      scratch := scratch.(operation := "open");
      Submit(c, c.now);
    }

    method OnFilePermission(h: Hook, c: Context)
      requires h.FilePermission?
      modifies this
      ensures cache == CacheAfterHook(old(cache), capacity, target, h, c)
      ensures events == old(events) + Reports(old(cache), target, h, c)
    {
      if h.dir != target {
        return;
      }
      if !c.scratchFound {
        return;
      }
      scratch := CLEARED;
      if h.ino in cache {
        scratch := scratch.(filename := cache[h.ino].filename);
      }
      var time := c.now;
      if MayRead(h.mask) {
        scratch := scratch.(operation := "read");
        Submit(c, time);
        time := c.later;
      }
      if MayWrite(h.mask) {
        scratch := scratch.(operation := "write");
        Submit(c, time);
      }
    }

    method OnInodeNamed(h: Hook, c: Context)
      requires h.InodeNamed?
      modifies this
      ensures cache == CacheAfterHook(old(cache), capacity, target, h, c)
      ensures events == old(events) + Reports(old(cache), target, h, c)
    {
      if h.dir != target {
        return;
      }
      if !c.scratchFound {
        return;
      }
      scratch := CLEARED;
      scratch := scratch.(filename := h.name);
      scratch := scratch.(operation := OperationName(h.what));
      Submit(c, c.now);
    }

    method OnInodeRename(h: Hook, c: Context)
      requires h.InodeRename?
      modifies this
      ensures cache == CacheAfterHook(old(cache), capacity, target, h, c)
      ensures events == old(events) + Reports(old(cache), target, h, c)
      ensures (h.dir == target || h.newDir == target) && c.scratchFound ==>
                |events| == |old(events)| + 1 &&
                Says(events[|old(events)|], c, c.now, "rename", h.name, h.newName)
    {
      if h.dir != target && h.newDir != target {
        return;
      }
      if !c.scratchFound {
        return;
      }
      scratch := CLEARED;
      scratch := scratch.(filename := h.name);
      scratch := scratch.(newFilename := h.newName);
      scratch := scratch.(operation := "rename");
      Submit(c, c.now);
    }

    method OnHook(h: Hook, c: Context)
      modifies this
      ensures cache == CacheAfterHook(old(cache), capacity, target, h, c)
      ensures events == old(events) + Reports(old(cache), target, h, c)
    {
      match h
      case FileOpen(_, _, _, _) => OnFileOpen(h, c);
      case FilePermission(_, _, _) => OnFilePermission(h, c);
      case InodeNamed(_, _, _) => OnInodeNamed(h, c);
      case InodeRename(_, _, _, _) => OnInodeRename(h, c);
    }

    // The hooks of a whole trace.
    method RunTrace(trace: Trace)
      requires cache == map[]
      modifies this
      ensures cache == CacheAfter(trace, capacity, target)
      ensures events == old(events) + AllReports(trace, capacity, target)
    {
      var i := 0;
      while i < |trace|
        invariant 0 <= i <= |trace|
        invariant cache == CacheAfter(trace[..i], capacity, target)
        invariant events == old(events) + AllReports(trace[..i], capacity, target)
      {
        OneHookMore(trace, i, capacity, target);
        OnHook(trace[i].0, trace[i].1);
        i := i + 1;
      }
      assert trace[..i] == trace;
    }
  }

  // ---------- whole traces ----------

  type Trace = seq<(Hook, Context)>

  function CacheAfter(trace: Trace, cap: nat, target: Ino): Cache {
    if trace == [] then map[]
    else
      var last := trace[|trace| - 1];
      CacheAfterHook(CacheAfter(trace[..|trace| - 1], cap, target), cap, target, last.0, last.1)
  }

  // All reports of a trace, in order.
  function AllReports(trace: Trace, cap: nat, target: Ino): seq<Event> {
    if trace == [] then []
    else
      var before, last := trace[..|trace| - 1], trace[|trace| - 1];
      AllReports(before, cap, target) + Reports(CacheAfter(before, cap, target), target, last.0, last.1)
  }

  lemma OneHookMore(trace: Trace, i: nat, cap: nat, target: Ino)
    requires i < |trace|
    ensures var cache := CacheAfter(trace[..i], cap, target);
            && CacheAfter(trace[..i + 1], cap, target) == CacheAfterHook(cache, cap, target, trace[i].0, trace[i].1)
            && AllReports(trace[..i + 1], cap, target) ==
               AllReports(trace[..i], cap, target) + Reports(cache, target, trace[i].0, trace[i].1)
  {
    assert trace[..i + 1][..i] == trace[..i];
  }

  // The watched opens that could be cached: inode and path.
  function Opens(trace: Trace, target: Ino): seq<(Ino, string)> {
    if trace == [] then []
    else
      var (h, c) := trace[|trace| - 1];
      Opens(trace[..|trace| - 1], target) +
      if Watched(h, target) && c.scratchFound && h.FileOpen? && h.hasPath then [(h.ino, h.path)] else []
  }

  // The inodes opened, each once, in the order of their first open.
  function Distinct(opens: seq<(Ino, string)>): seq<Ino> {
    if opens == [] then []
    else
      var before := Distinct(opens[..|opens| - 1]);
      if opens[|opens| - 1].0 in before then before else before + [opens[|opens| - 1].0]
  }

  function LatestPath(opens: seq<(Ino, string)>, ino: Ino): string {
    if opens == [] then ""
    else if opens[|opens| - 1].0 == ino then opens[|opens| - 1].1
    else LatestPath(opens[..|opens| - 1], ino)
  }

  // The first `cap` inodes ever opened.
  function Kept(opens: seq<(Ino, string)>, cap: nat): seq<Ino> {
    var all := Distinct(opens);
    if |all| <= cap then all else all[..cap]
  }

  predicate Admitted(opens: seq<(Ino, string)>, cap: nat, ino: Ino) {
    ino in Kept(opens, cap)
  }

  lemma {:induction false} DistinctOnce(opens: seq<(Ino, string)>)
    ensures forall i, j :: 0 <= i < j < |Distinct(opens)| ==> Distinct(opens)[i] != Distinct(opens)[j]
  {
    if opens != [] {
      DistinctOnce(opens[..|opens| - 1]);
    }
  }

  lemma {:induction false} KeyCount(inos: seq<Ino>, cache: Cache)
    requires forall i, j :: 0 <= i < j < |inos| ==> inos[i] != inos[j]
    requires forall ino :: ino in cache <==> ino in inos
    ensures |cache| == |inos|
  {
    if inos == [] {
      assert cache == map[];
    } else {
      var last := inos[|inos| - 1];
      var rest := cache - {last};
      KeyCount(inos[..|inos| - 1], rest);
      assert cache == rest[last := cache[last]];
    }
  }

  ghost predicate Holds(cache: Cache, opens: seq<(Ino, string)>, cap: nat) {
    && (forall ino :: ino in cache <==> ino in Kept(opens, cap))
    && (forall ino :: ino in cache ==> cache[ino] == CLEARED.(filename := LatestPath(opens, ino)))
  }

  // One more open: a new inode is kept if there is room.
  lemma KeptAfterOpen(opens: seq<(Ino, string)>, cap: nat, e: (Ino, string))
    ensures Kept(opens + [e], cap) ==
            if e.0 in Kept(opens, cap) || |Kept(opens, cap)| == cap then Kept(opens, cap)
            else Kept(opens, cap) + [e.0]
  {
    assert (opens + [e])[..|opens|] == opens;
    assert Distinct(opens + [e]) == if e.0 in Distinct(opens) then Distinct(opens) else Distinct(opens) + [e.0];
  }

  lemma KeptOnce(opens: seq<(Ino, string)>, cap: nat, cache: Cache)
    requires Holds(cache, opens, cap)
    ensures |cache| == |Kept(opens, cap)| <= cap
  {
    DistinctOnce(opens);
    KeyCount(Kept(opens, cap), cache);
  }

  lemma OpenHolds(cache: Cache, opens: seq<(Ino, string)>, cap: nat, ino: Ino, path: string)
    requires Holds(cache, opens, cap)
    ensures Holds(if ino in cache || |cache| < cap then cache[ino := CLEARED.(filename := path)] else cache,
                  opens + [(ino, path)], cap)
  {
    assert (opens + [(ino, path)])[..|opens|] == opens;
    KeptOnce(opens, cap, cache);
    KeptAfterOpen(opens, cap, (ino, path));
  }

  // After any trace of hooks the cache holds exactly the first `cap` inodes ever opened, each
  // with the path of its latest open.
  lemma {:induction false} CacheTrace(trace: Trace, cap: nat, target: Ino)
    ensures Holds(CacheAfter(trace, cap, target), Opens(trace, target), cap)
  {
    if trace != [] {
      var before := trace[..|trace| - 1];
      var (h, c) := trace[|trace| - 1];
      CacheTrace(before, cap, target);
      if Watched(h, target) && c.scratchFound && h.FileOpen? && h.hasPath {
        OpenHolds(CacheAfter(before, cap, target), Opens(before, target), cap, h.ino, h.path);
      } else {
        assert Opens(trace, target) == Opens(before, target);
      }
    }
  }

  // A read or write reports the path of the file's latest open if its inode was admitted, and no
  // path otherwise; it reports what the access mask asks for, read before write.
  lemma AccessReports(trace: Trace, cap: nat, target: Ino, ino: Ino, mask: int, c: Context)
    requires c.scratchFound
    ensures var opens := Opens(trace, target);
            var events := Reports(CacheAfter(trace, cap, target), target, FilePermission(target, ino, mask), c);
            && (forall k :: 0 <= k < |events| ==>
                  events[k].filename == if Admitted(opens, cap, ino) then LatestPath(opens, ino) else "")
            && |events| == (if MayRead(mask) then 1 else 0) + (if MayWrite(mask) then 1 else 0)
            && (MayRead(mask) ==> events[0].operation == "read")
            && (MayWrite(mask) ==> events[|events| - 1].operation == "write")
  {
    CacheTrace(trace, cap, target);
    assert ino in CacheAfter(trace, cap, target) <==> Admitted(Opens(trace, target), cap, ino);
  }

  lemma {:induction false} DistinctGrows(opens: seq<(Ino, string)>, n: nat)
    requires n <= |opens|
    ensures Distinct(opens[..n]) <= Distinct(opens)
  {
    if n < |opens| {
      assert opens[..|opens| - 1][..n] == opens[..n];
      DistinctGrows(opens[..|opens| - 1], n);
    } else {
      assert opens[..n] == opens;
    }
  }

  lemma {:induction false} OpensGrow(trace: Trace, n: nat, target: Ino)
    requires n <= |trace|
    ensures Opens(trace[..n], target) <= Opens(trace, target)
  {
    if n < |trace| {
      assert trace[..|trace| - 1][..n] == trace[..n];
      OpensGrow(trace[..|trace| - 1], n, target);
    } else {
      assert trace[..n] == trace;
    }
  }

  lemma KeptGrows(opens: seq<(Ino, string)>, n: nat, cap: nat, ino: Ino)
    requires n <= |opens| && ino in Kept(opens[..n], cap)
    ensures ino in Kept(opens, cap)
  {
    DistinctGrows(opens, n);
    var few, all := Kept(opens[..n], cap), Kept(opens, cap);
    assert |few| <= |all| && few == all[..|few|];
  }

  // An inode in the cache stays there.
  lemma NeverRemoved(trace: Trace, n: nat, cap: nat, target: Ino, ino: Ino)
    requires n <= |trace| && ino in CacheAfter(trace[..n], cap, target)
    ensures ino in CacheAfter(trace, cap, target)
  {
    var few, all := Opens(trace[..n], target), Opens(trace, target);
    OpensGrow(trace, n, target);
    assert few == all[..|few|];
    assert ino in Kept(few, cap) by { CacheTrace(trace[..n], cap, target); }
    KeptGrows(all, |few|, cap, ino);
    CacheTrace(trace, cap, target);
  }

  // ---------- the reports, hook by hook ----------

  // Outside the watched directory, and without a scratch record, nothing happens.
  lemma UnwatchedSilent(cache: Cache, cap: nat, target: Ino, h: Hook, c: Context)
    requires (h.dir != target && (h.InodeRename? ==> h.newDir != target)) || !c.scratchFound
    ensures Reports(cache, target, h, c) == [] && CacheAfterHook(cache, cap, target, h, c) == cache
  {}

  // An open makes one report, with its path if it has one.
  lemma OpenReport(cache: Cache, target: Ino, hasPath: bool, path: string, ino: Ino, c: Context)
    requires c.scratchFound
    ensures var events := Reports(cache, target, FileOpen(target, hasPath, path, ino), c);
            |events| == 1 && Says(events[0], c, c.now, "open", if hasPath then path else "", "")
  {}

  // An access reports what its mask asks for: nothing, a read, a write, or a read and then a write.
  lemma AccessReport(cache: Cache, target: Ino, ino: Ino, mask: int, c: Context)
    requires c.scratchFound
    ensures var events := Reports(cache, target, FilePermission(target, ino, mask), c);
            var path := if ino in cache then cache[ino].filename else "";
            && (mask % 4 == 0 ==> events == [])
            && (mask % 4 == 1 ==> |events| == 1 && Says(events[0], c, c.now, "read", path, ""))
            && (mask % 4 == 2 ==> |events| == 1 && Says(events[0], c, c.now, "write", path, ""))
            && (mask % 4 == 3 ==>
                  |events| == 2 && Says(events[0], c, c.now, "read", path, "")
                  && Says(events[1], c, c.later, "write", path, ""))
  {
    assert mask % 2 == mask % 4 % 2 && mask / 2 % 2 == mask % 4 / 2;
  }

  // The seven directory hooks report the name in the directory.
  lemma NamedReport(cache: Cache, target: Ino, what: Named, name: string, c: Context)
    requires c.scratchFound
    ensures var events := Reports(cache, target, InodeNamed(what, target, name), c);
            && |events| == 1
            && (what == Create ==> Says(events[0], c, c.now, "create", name, ""))
            && (what == Link ==> Says(events[0], c, c.now, "link", name, ""))
            && (what == Unlink ==> Says(events[0], c, c.now, "unlink", name, ""))
            && (what == Symlink ==> Says(events[0], c, c.now, "symlink", name, ""))
            && (what == Mkdir ==> Says(events[0], c, c.now, "mkdir", name, ""))
            && (what == Rmdir ==> Says(events[0], c, c.now, "rmdir", name, ""))
            && (what == Mknod ==> Says(events[0], c, c.now, "mknod", name, ""))
  {}

  // A rename from or to the watched directory reports both names.
  lemma RenameReport(cache: Cache, target: Ino, dir: Ino, newDir: Ino, name: string, newName: string, c: Context)
    requires c.scratchFound && (dir == target || newDir == target)
    ensures var events := Reports(cache, target, InodeRename(dir, newDir, name, newName), c);
            |events| == 1 && Says(events[0], c, c.now, "rename", name, newName)
  {}

  // After an open with a path of an inode that is admitted, the next access reports that path.
  lemma OpenThenAccess(trace: Trace, cap: nat, target: Ino, path: string, ino: Ino, c: Context, mask: int, c': Context)
    requires c.scratchFound && c'.scratchFound
    requires var after := trace + [(FileOpen(target, true, path, ino), c)];
             ino in CacheAfter(after, cap, target)
    ensures var after := trace + [(FileOpen(target, true, path, ino), c)];
            var reported := Reports(CacheAfter(trace, cap, target), target, FileOpen(target, true, path, ino), c);
            var events := Reports(CacheAfter(after, cap, target), target, FilePermission(target, ino, mask), c');
            && |reported| == 1 && reported[0].filename == path
            && forall e :: e in events ==> e.filename == path
  {
    var open: (Hook, Context) := (FileOpen(target, true, path, ino), c);
    assert (trace + [open])[..|trace|] == trace;
    assert Opens(trace + [open], target) == Opens(trace, target) + [(ino, path)];
    CacheTrace(trace + [open], cap, target);
  }

  // Only a rename names a second file, and every report names one of eleven operations.
  lemma ReportShape(cache: Cache, target: Ino, h: Hook, c: Context, k: nat)
    requires k < |Reports(cache, target, h, c)|
    ensures var e := Reports(cache, target, h, c)[k];
            && (e.operation == "rename" <==> h.InodeRename?)
            && (if h.InodeRename? then e.filename == h.name && e.newFilename == h.newName else e.newFilename == "")
            && (e.operation == "open" || e.operation == "read" || e.operation == "write" || e.operation == "rename"
                || exists n: Named :: e.operation == OperationName(n))
  {
    if h.InodeNamed? { assert Reports(cache, target, h, c)[k].operation == OperationName(h.what); }
  }
}
