/** The operation table: direct-mapped, the first key to claim a slot keeps it, a colliding insert
    is dropped, and cleanup leaves stale pointers behind a lifecycle flag. */
module OperationTable {
  import opened Options
  import opened Messages

  const TABLE_SIZE: nat := 100

  // A C `char` is signed here, so bytes from 128 on count as negative.
  function CharValue(c: char): int {
    var b := c as int % 256;
    if b < 128 then b else b - 256
  }

  // The accumulator after `n` characters, in 64-bit arithmetic.
  function HashPrefix(key: string, n: nat): nat
    requires n <= |key|
  {
    if n == 0 then 0 else (HashPrefix(key, n - 1) * 37 + CharValue(key[n - 1])) % WORD
  }

  function Hash(key: string): (h: nat)
    ensures h < TABLE_SIZE
  {
    HashPrefix(key, |key|) % TABLE_SIZE
  }

  method ComputeHash(key: string) returns (h: nat)
    ensures h == Hash(key)
  {
    var value, i := 0, 0;
    while i < |key|
      invariant 0 <= i <= |key| && value == HashPrefix(key, i)
    {
      value := (value * 37 + CharValue(key[i])) % WORD;
      i := i + 1;
    }
    h := value % TABLE_SIZE;
  }

  // ---------- the table as a value ----------

  type Entry = (string, Byte)

  datatype Table = Table(initialized: bool, slots: map<nat, Entry>)

  datatype Call = Init | Insert(key: string, value: Byte) | Cleanup

  const OPERATIONS: seq<Entry> := [
    ("open", OP_OPEN), ("read", OP_READ), ("write", OP_WRITE), ("create", OP_CREATE),
    ("link", OP_LINK), ("unlink", OP_UNLINK), ("syslink", OP_SYSLINK), ("mkdir", OP_MKDIR),
    ("rmdir", OP_RMDIR), ("mknod", OP_MKNOD), ("rename", OP_RENAME)]

  function Put(slots: map<nat, Entry>, e: Entry): map<nat, Entry> {
    var h := Hash(e.0);
    if h !in slots || slots[h].0 == e.0 then slots[h := e] else slots
  }

  function PutAll(slots: map<nat, Entry>, es: seq<Entry>): map<nat, Entry> {
    if es == [] then slots else Put(PutAll(slots, es[..|es| - 1]), es[|es| - 1])
  }

  function Apply(t: Table, c: Call): Table {
    match c
    case Init => if t.initialized then t else Table(true, PutAll(map[], OPERATIONS))
    case Insert(k, v) => if t.initialized then Table(true, Put(t.slots, (k, v))) else t
    case Cleanup => if t.initialized then Table(false, map[]) else t
  }

  function Lookup(t: Table, key: string): Option<Byte> {
    var h := Hash(key);
    if t.initialized && h in t.slots && t.slots[h].0 == key then Some(t.slots[h].1) else None
  }

  // ---------- what a history of calls promises ----------

  function After(calls: seq<Call>): Table {
    if calls == [] then Table(false, map[]) else Apply(After(calls[..|calls| - 1]), calls[|calls| - 1])
  }

  // Whether the last lifecycle call was an `Init`.
  predicate Live(calls: seq<Call>) {
    calls != [] &&
    match calls[|calls| - 1]
    case Init => true
    case Cleanup => false
    case Insert(_, _) => Live(calls[..|calls| - 1])
  }

  // The inserts since the table last became live, its own eleven first.
  function Inserted(calls: seq<Call>): seq<Entry> {
    if !Live(calls) then []
    else
      var before := calls[..|calls| - 1];
      match calls[|calls| - 1]
      case Init => if Live(before) then Inserted(before) else OPERATIONS
      case Insert(k, v) => Inserted(before) + [(k, v)]
  }

  // `key` came before every other key with its hash.
  ghost predicate Claims(es: seq<Entry>, key: string) {
    exists i :: 0 <= i < |es| && es[i].0 == key && forall j :: 0 <= j < i ==> Hash(es[j].0) != Hash(key)
  }

  // `value` came last with `key`.
  ghost predicate Newest(es: seq<Entry>, key: string, value: Byte) {
    exists i :: 0 <= i < |es| && es[i] == (key, value) && forall j :: i < j < |es| ==> es[j].0 != key
  }

  // What a table filled by `es` knows about one key.
  ghost predicate Faithful(slots: map<nat, Entry>, es: seq<Entry>, key: string) {
    var h := Hash(key);
    && (h !in slots <==> forall j :: 0 <= j < |es| ==> Hash(es[j].0) != h)
    && (h in slots && slots[h].0 == key <==> Claims(es, key))
    && (h in slots && slots[h].0 == key ==> Newest(es, key, slots[h].1))
  }

  lemma PutClaims(slots: map<nat, Entry>, es: seq<Entry>, e: Entry, key: string)
    requires Faithful(slots, es, key) && Faithful(slots, es, e.0)
    ensures var (slots', h) := (Put(slots, e), Hash(key));
            h in slots' && slots'[h].0 == key <==> Claims(es + [e], key)
  {
    var es', h := es + [e], Hash(key);
    assert es'[|es|] == e;
    if Claims(es, key) {
      var i :| 0 <= i < |es| && es[i].0 == key && forall j :: 0 <= j < i ==> Hash(es[j].0) != h;
      assert es'[i].0 == key;
    } else if Claims(es', key) {
      var i :| 0 <= i < |es'| && es'[i].0 == key && forall j :: 0 <= j < i ==> Hash(es'[j].0) != h;
      assert forall j :: 0 <= j < |es| ==> es'[j] == es[j];
      assert i == |es|;
    }
  }

  lemma PutNewest(slots: map<nat, Entry>, es: seq<Entry>, e: Entry, key: string)
    requires Faithful(slots, es, key)
    ensures var (slots', h) := (Put(slots, e), Hash(key));
            h in slots' && slots'[h].0 == key ==> Newest(es + [e], key, slots'[h].1)
  {
    var es', h := es + [e], Hash(key);
    assert es'[|es|] == e;
    if e.0 != key && h in slots && slots[h].0 == key {
      var i :| 0 <= i < |es| && es[i] == (key, slots[h].1) && forall j :: i < j < |es| ==> es[j].0 != key;
      assert es'[i] == (key, slots[h].1);
    }
  }

  lemma PutFaithful(slots: map<nat, Entry>, es: seq<Entry>, e: Entry, key: string)
    requires Faithful(slots, es, key) && Faithful(slots, es, e.0)
    ensures Faithful(Put(slots, e), es + [e], key)
  {
    assert forall j :: 0 <= j < |es| ==> (es + [e])[j] == es[j];
    assert (es + [e])[|es|] == e;
    PutClaims(slots, es, e, key);
    PutNewest(slots, es, e, key);
  }

  lemma {:induction false} PutAllFaithful(es: seq<Entry>, key: string)
    ensures Faithful(PutAll(map[], es), es, key)
  {
    if es != [] {
      var before := es[..|es| - 1];
      PutAllFaithful(before, key);
      PutAllFaithful(before, es[|es| - 1].0);
      assert es == before + [es[|es| - 1]];
      PutFaithful(PutAll(map[], before), before, es[|es| - 1], key);
    }
  }

  lemma {:induction false} AfterIsInserted(calls: seq<Call>)
    ensures After(calls) == Table(Live(calls), PutAll(map[], Inserted(calls)))
  {
    if calls != [] {
      AfterIsInserted(calls[..|calls| - 1]);
    }
  }

  // After any history, a key is found exactly when the table is live and the key was the first
  // to claim its slot since then, and what is found is the value it was given last.
  lemma TableRefines(calls: seq<Call>, key: string)
    ensures Lookup(After(calls), key).Some? <==> Live(calls) && Claims(Inserted(calls), key)
    ensures Lookup(After(calls), key).Some? ==> Newest(Inserted(calls), key, Lookup(After(calls), key).value)
  {
    AfterIsInserted(calls);
    PutAllFaithful(Inserted(calls), key);
  }

  // ---------- the operation names ----------

  // One more character, without wrapping.
  lemma Next(key: string, n: nat, h: nat, h': nat)
    requires n < |key| && HashPrefix(key, n) == h
    requires h * 37 + CharValue(key[n]) == h' < WORD
    ensures HashPrefix(key, n + 1) == h'
  {}

  lemma SlotOpen(key: string)
    requires key == "open"
    ensures Hash(key) == 58
  {
    Next(key, 0, 0, 111); Next(key, 1, 111, 4219);
    Next(key, 2, 4219, 156204); Next(key, 3, 156204, 5779658);
  }

  lemma SlotRead(key: string)
    requires key == "read"
    ensures Hash(key) == 0
  {
    Next(key, 0, 0, 114); Next(key, 1, 114, 4319);
    Next(key, 2, 4319, 159900); Next(key, 3, 159900, 5916400);
  }

  lemma SlotWrite(key: string)
    requires key == "write"
    ensures Hash(key) == 39
  {
    Next(key, 0, 0, 119); Next(key, 1, 119, 4517);
    Next(key, 2, 4517, 167234); Next(key, 3, 167234, 6187774);
    Next(key, 4, 6187774, 228947739);
  }

  lemma SlotCreate(key: string)
    requires key == "create"
    ensures Hash(key) == 36
  {
    Next(key, 0, 0, 99); Next(key, 1, 99, 3777);
    Next(key, 2, 3777, 139850); Next(key, 3, 139850, 5174547);
    Next(key, 4, 5174547, 191458355); Next(key, 5, 191458355, 7083959236);
  }

  lemma SlotLink(key: string)
    requires key == "link"
    ensures Hash(key) == 46
  {
    Next(key, 0, 0, 108); Next(key, 1, 108, 4101);
    Next(key, 2, 4101, 151847); Next(key, 3, 151847, 5618446);
  }

  lemma SlotUnlink(key: string)
    requires key == "unlink"
    ensures Hash(key) == 25
  {
    Next(key, 0, 0, 117); Next(key, 1, 117, 4439);
    Next(key, 2, 4439, 164351); Next(key, 3, 164351, 6081092);
    Next(key, 4, 6081092, 225000514); Next(key, 5, 225000514, 8325019125);
  }

  lemma SlotSyslink(key: string)
    requires key == "syslink"
    ensures Hash(key) == 93
  {
    Next(key, 0, 0, 115); Next(key, 1, 115, 4376);
    Next(key, 2, 4376, 162027); Next(key, 3, 162027, 5995107);
    Next(key, 4, 5995107, 221819064); Next(key, 5, 221819064, 8207305478);
    Next(key, 6, 8207305478, 303670302793);
  }

  lemma SlotMkdir(key: string)
    requires key == "mkdir"
    ensures Hash(key) == 19
  {
    Next(key, 0, 0, 109); Next(key, 1, 109, 4140);
    Next(key, 2, 4140, 153280); Next(key, 3, 153280, 5671465);
    Next(key, 4, 5671465, 209844319);
  }

  lemma SlotRmdir(key: string)
    requires key == "rmdir"
    ensures Hash(key) == 30
  {
    Next(key, 0, 0, 114); Next(key, 1, 114, 4327);
    Next(key, 2, 4327, 160199); Next(key, 3, 160199, 5927468);
    Next(key, 4, 5927468, 219316430);
  }

  lemma SlotMknod(key: string)
    requires key == "mknod"
    ensures Hash(key) == 17
  {
    Next(key, 0, 0, 109); Next(key, 1, 109, 4140);
    Next(key, 2, 4140, 153290); Next(key, 3, 153290, 5671841);
    Next(key, 4, 5671841, 209858217);
  }

  lemma SlotRename(key: string)
    requires key == "rename"
    ensures Hash(key) == 16
  {
    Next(key, 0, 0, 114); Next(key, 1, 114, 4319);
    Next(key, 2, 4319, 159913); Next(key, 3, 159913, 5916878);
    Next(key, 4, 5916878, 218924595); Next(key, 5, 218924595, 8100210116);
  }

  const SLOTS: seq<nat> := [58, 0, 39, 36, 46, 25, 93, 19, 30, 17, 16]

  lemma NameSlots(i: nat)
    requires i < |OPERATIONS|
    ensures Hash(OPERATIONS[i].0) == SLOTS[i]
  {
    SlotOpen(OPERATIONS[0].0);
    SlotRead(OPERATIONS[1].0);
    SlotWrite(OPERATIONS[2].0);
    SlotCreate(OPERATIONS[3].0);
    SlotLink(OPERATIONS[4].0);
    SlotUnlink(OPERATIONS[5].0);
    SlotSyslink(OPERATIONS[6].0);
    SlotMkdir(OPERATIONS[7].0);
    SlotRmdir(OPERATIONS[8].0);
    SlotMknod(OPERATIONS[9].0);
    SlotRename(OPERATIONS[10].0);
  }

  // The slots of the eleven names are pairwise distinct.
  lemma NamesApart()
    ensures forall i, j :: 0 <= i < j < |OPERATIONS| ==> Hash(OPERATIONS[i].0) != Hash(OPERATIONS[j].0)
  {
    forall i, j | 0 <= i < j < |OPERATIONS| ensures Hash(OPERATIONS[i].0) != Hash(OPERATIONS[j].0) {
      NameSlots(i);
      NameSlots(j);
      assert SLOTS[i] != SLOTS[j];
    }
  }

  // Where no two keys share a slot, every key that was inserted is found, and no other.
  lemma ApartRecognised(es: seq<Entry>, key: string)
    requires forall i, j :: 0 <= i < j < |es| ==> Hash(es[i].0) != Hash(es[j].0)
    ensures var r := Lookup(Table(true, PutAll(map[], es)), key);
            && (r.Some? <==> exists i :: 0 <= i < |es| && es[i].0 == key)
            && (forall i :: 0 <= i < |es| && es[i].0 == key ==> r == Some(es[i].1))
  {
    PutAllFaithful(es, key);
    var r := Lookup(Table(true, PutAll(map[], es)), key);
    forall i | 0 <= i < |es| && es[i].0 == key ensures r == Some(es[i].1) {
      assert forall j :: 0 <= j < i ==> Hash(es[j].0) != Hash(key);
      assert Claims(es, key);
      var k :| 0 <= k < |es| && es[k] == (key, r.value) && forall j :: k < j < |es| ==> es[j].0 != key;
      assert k == i;
    }
  }

  const FRESH: Table := Apply(Table(false, map[]), Init)

  // After `init_operation_map`, exactly the eleven names are found, each with its own code.
  lemma ExactRecognition(key: string)
    ensures Lookup(FRESH, key).Some? <==> exists i :: 0 <= i < |OPERATIONS| && OPERATIONS[i].0 == key
    ensures forall i :: 0 <= i < |OPERATIONS| && OPERATIONS[i].0 == key ==> Lookup(FRESH, key) == Some(OPERATIONS[i].1)
    ensures Lookup(FRESH, key).Some? ==> OP_OPEN <= Lookup(FRESH, key).value <= OP_RENAME
  {
    NamesApart();
    ApartRecognised(OPERATIONS, key);
  }

  // The eleven names with the codes of the header, and no other key.
  lemma NamesAndCodes(key: string)
    ensures Lookup(FRESH, key).Some? <==>
              key in {"open", "read", "write", "create", "link", "unlink",
                      "syslink", "mkdir", "rmdir", "mknod", "rename"}
    ensures key == "open" ==> Lookup(FRESH, key) == Some(0)
    ensures key == "read" ==> Lookup(FRESH, key) == Some(1)
    ensures key == "write" ==> Lookup(FRESH, key) == Some(2)
    ensures key == "create" ==> Lookup(FRESH, key) == Some(3)
    ensures key == "link" ==> Lookup(FRESH, key) == Some(4)
    ensures key == "unlink" ==> Lookup(FRESH, key) == Some(5)
    ensures key == "syslink" ==> Lookup(FRESH, key) == Some(6)
    ensures key == "mkdir" ==> Lookup(FRESH, key) == Some(7)
    ensures key == "rmdir" ==> Lookup(FRESH, key) == Some(8)
    ensures key == "mknod" ==> Lookup(FRESH, key) == Some(9)
    ensures key == "rename" ==> Lookup(FRESH, key) == Some(10)
  {
    ExactRecognition(key);
    var ops := OPERATIONS;
    assert ops[0] == ("open", 0) && ops[1] == ("read", 1) && ops[2] == ("write", 2) && ops[3] == ("create", 3);
    assert ops[4] == ("link", 4) && ops[5] == ("unlink", 5) && ops[6] == ("syslink", 6) && ops[7] == ("mkdir", 7);
    assert ops[8] == ("rmdir", 8) && ops[9] == ("mknod", 9) && ops[10] == ("rename", 10);
  }

  // A byte from 128 on counts as negative: 255 adds -1 to the accumulator.
  lemma HighByte()
    ensures Hash([255 as char]) == 15
  {
    assert HashPrefix([255 as char], 1) == WORD - 1;
  }

  // The kernel side reports "symlink", the table holds "syslink": the event is not recognised.
  lemma SymlinkUnknown()
    ensures Lookup(FRESH, "symlink") == None && Lookup(FRESH, "syslink") == Some(OP_SYSLINK)
  {
    ExactRecognition("symlink");
    ExactRecognition("syslink");
    assert OPERATIONS[6].0 == "syslink";
    assert "syslink"[1] == 'y' && "symlink"[2] == 'm';
  }

  // The names and their codes, as the program spells them.
  predicate Recognised(key: string, value: Byte, found: bool) {
    && (found <==>
          key in {"open", "read", "write", "create", "link", "unlink",
                  "syslink", "mkdir", "rmdir", "mknod", "rename"})
    && (key == "open" ==> value == 0) && (key == "read" ==> value == 1) && (key == "write" ==> value == 2)
    && (key == "create" ==> value == 3) && (key == "link" ==> value == 4) && (key == "unlink" ==> value == 5)
    && (key == "syslink" ==> value == 6) && (key == "mkdir" ==> value == 7) && (key == "rmdir" ==> value == 8)
    && (key == "mknod" ==> value == 9) && (key == "rename" ==> value == 10) && (!found ==> value == 0)
  }

  // Program start, `init_operation_map`, `get`.
  method InitThenGet(key: string) returns (value: Byte, found: bool)
    ensures Recognised(key, value, found)
  {
    var t := new OperationMap();
    t.Init();
    value, found := t.Get(key);
    NamesAndCodes(key);
  }

  // ---------- the table in memory ----------

  class HashItem {
    const key: string
    var value: Byte
    var isValid: bool

    constructor (key: string, value: Byte)
      ensures this.key == key && this.value == value && isValid
    {
      this.key, this.value, isValid := key, value, true;
    }
  }

  class OperationMap {
    const items: array<HashItem?>
    var initialized: bool
    ghost var created: set<HashItem>
    ghost var freed: set<HashItem>

    // While the table is live every pointer in it is to an item that has not been freed. After
    // cleanup the pointers are stale: every item ever created has been freed.
    ghost predicate Valid()
      reads this, items, created
    {
      && items.Length == TABLE_SIZE
      && freed <= created
      && (initialized ==> forall h :: 0 <= h < TABLE_SIZE && items[h] != null ==>
            items[h] in created && items[h] !in freed && items[h].isValid && Hash(items[h].key) == h)
      && (initialized ==> forall i :: i in created && i !in freed ==> items[Hash(i.key)] == i)
      && (!initialized ==> freed == created)
    }

    ghost function View(): Table
      requires items.Length == TABLE_SIZE
      reads this, items, created
    {
      Table(initialized,
            if initialized
            then map h: nat | h < TABLE_SIZE && items[h] != null && items[h] in created ::
                   (items[h].key, items[h].value)
            else map[])
    }

    // The globals as the program starts: no item, flag down.
    constructor ()
      ensures Valid() && fresh(items) && created == {} && View() == Table(false, map[])
    {
      items := new HashItem?[TABLE_SIZE](_ => null);
      initialized := false;
      created, freed := {}, {};
    }

    // The branch of `insert` for a free slot.
    method NewItem(index: nat, key: string, value: Byte)
      requires Valid() && initialized && index == Hash(key) && items[index] == null
      modifies this, items
      ensures Valid() && View() == Table(true, old(View()).slots[index := (key, value)])
      ensures created == old(created) + {items[index]}
      ensures freed == old(freed) && old(created) <= created && fresh(created - old(created))
    {
      var item := new HashItem(key, value);
      items[index] := item;
      created := created + {item};
      assert View().slots == old(View()).slots[index := (key, value)];
    }

    method Insert(key: string, value: Byte)
      requires Valid()
      modifies this, items, created
      ensures Valid() && View() == Apply(old(View()), Call.Insert(key, value))
      ensures freed == old(freed) && old(created) <= created && fresh(created - old(created))
      ensures !old(initialized) || Hash(key) in old(View()).slots ==> created == old(created)
      ensures forall item :: item in old(freed) ==> unchanged(item)
    {
      if !initialized {
        return;
      }
      var index := ComputeHash(key);
      var item := items[index];
      if item == null {
        NewItem(index, key, value);
      } else {
        assert item !in freed;
        if item.key == key {
          item.value := value;
          item.isValid := true;
          assert View().slots == old(View()).slots[index := (key, value)];
        }
      }
    }

    method Get(key: string) returns (value: Byte, found: bool)
      requires Valid()
      ensures found <==> Lookup(View(), key).Some?
      ensures value == if found then Lookup(View(), key).value else 0
    {
      if !initialized {
        return 0, false;
      }
      var index := ComputeHash(key);
      var item := items[index];
      assert item != null ==> item !in freed;
      if item != null && item.isValid && item.key == key {
        return item.value, true;
      }
      return 0, false;
    }

    method Init()
      requires Valid()
      modifies this, items, created
      ensures Valid() && View() == Apply(old(View()), Call.Init)
      ensures freed == old(freed) && old(created) <= created && fresh(created - old(created))
    {
      if initialized {
        return;
      }
      var i := 0;
      while i < TABLE_SIZE
        invariant 0 <= i <= TABLE_SIZE
        invariant forall h :: 0 <= h < i ==> items[h] == null
        modifies items
      {
        items[i] := null;
        i := i + 1;
      }
      initialized := true;
      assert View() == Table(true, map[]);
      Fill();
    }

    // The eleven inserts of `init_operation_map`, in order.
    method Fill()
      requires Valid() && View() == Table(true, map[])
      modifies this, items, created
      ensures Valid() && View() == Table(true, PutAll(map[], OPERATIONS))
      ensures freed == old(freed) && old(created) <= created && fresh(created - old(created))
    {
      var k := 0;
      while k < |OPERATIONS|
        invariant 0 <= k <= |OPERATIONS| && Valid()
        invariant View() == Table(true, PutAll(map[], OPERATIONS[..k]))
        invariant freed == old(freed) && old(created) <= created && fresh(created - old(created))
      {
        assert OPERATIONS[..k + 1][..k] == OPERATIONS[..k];
        Insert(OPERATIONS[k].0, OPERATIONS[k].1);
        k := k + 1;
      }
      assert OPERATIONS[..k] == OPERATIONS;
    }

    // `cleanup_operation_map`: frees each live item once, and leaves its pointer in place.
    method Cleanup()
      requires Valid()
      modifies this
      ensures Valid() && View() == Apply(old(View()), Call.Cleanup)
      ensures created == old(created) && freed == created
    {
      if !initialized {
        return;
      }
      var i := 0;
      while i < TABLE_SIZE
        invariant 0 <= i <= TABLE_SIZE && initialized && created == old(created)
        invariant freed == old(freed) + set h | 0 <= h < i && items[h] != null :: items[h]
      {
        var item := items[i];
        if item != null {
          assert item !in freed;
          freed := freed + {item};
        }
        i := i + 1;
      }
      assert forall x :: x in created ==> x in freed by {
        forall x | x in created ensures x in freed {
          if x !in old(freed) { assert items[Hash(x.key)] == x; }
        }
      }
      initialized := false;
    }
  }
}
