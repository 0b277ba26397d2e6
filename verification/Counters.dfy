/** The operation counters and the bar graph drawn from them. Counters are 64-bit and wrap. */
module Counters {
  import opened Messages

  const CODES: nat := 11
  const BARS: nat := 5
  const MARGIN: nat := 15

  // How often code `k` occurs.
  function Tally(ops: seq<Byte>, k: nat): nat {
    if ops == [] then 0 else Tally(ops[..|ops| - 1], k) + if ops[|ops| - 1] == k then 1 else 0
  }

  function Recognised(ops: seq<Byte>): nat {
    if ops == [] then 0 else Recognised(ops[..|ops| - 1]) + if ops[|ops| - 1] < CODES then 1 else 0
  }

  function Bump(counts: seq<nat>, op: Byte): seq<nat>
    requires |counts| == CODES
  {
    if op < CODES then counts[op := (counts[op] + 1) % WORD] else counts
  }

  function BumpAll(counts: seq<nat>, ops: seq<Byte>): (r: seq<nat>)
    requires |counts| == CODES
    ensures |r| == CODES
  {
    if ops == [] then counts else Bump(BumpAll(counts, ops[..|ops| - 1]), ops[|ops| - 1])
  }

  const ZEROS: seq<nat> := [0, 0, 0, 0, 0, 0, 0, 0, 0, 0, 0]

  // Each counter is the number of events with its code, modulo the word.
  lemma {:induction false} CountersTally(ops: seq<Byte>, k: nat)
    requires k < CODES
    ensures BumpAll(ZEROS, ops)[k] == Tally(ops, k) % 0x1_0000_0000_0000_0000
  {
    if ops != [] {
      CountersTally(ops[..|ops| - 1], k);
      ModStep(Tally(ops[..|ops| - 1], k));
    }
  }

  lemma ModStep(n: nat)
    ensures (n % WORD + 1) % WORD == (n + 1) % WORD
  {}

  // read, write, delete, rename, misc.
  function BarValues(counts: seq<nat>): (v: seq<nat>)
    requires |counts| == CODES
    ensures |v| == BARS
  {
    [(counts[OP_OPEN] + counts[OP_READ]) % WORD,
     (counts[OP_WRITE] + counts[OP_CREATE] + counts[OP_MKDIR]) % WORD,
     (counts[OP_UNLINK] + counts[OP_RMDIR]) % WORD,
     counts[OP_RENAME],
     (counts[OP_LINK] + counts[OP_SYSLINK] + counts[OP_MKNOD]) % WORD]
  }

  function Total(v: seq<nat>): nat {
    if v == [] then 0 else Total(v[..|v| - 1]) + v[|v| - 1]
  }

  lemma {:induction false} TalliesPartition(ops: seq<Byte>)
    ensures Tally(ops, 0) + Tally(ops, 1) + Tally(ops, 2) + Tally(ops, 3) + Tally(ops, 4) + Tally(ops, 5) +
            Tally(ops, 6) + Tally(ops, 7) + Tally(ops, 8) + Tally(ops, 9) + Tally(ops, 10) == Recognised(ops)
  {
    if ops != [] {
      TalliesPartition(ops[..|ops| - 1]);
    }
  }

  lemma FiveTotal(v: seq<nat>)
    requires |v| == BARS
    ensures Total(v) == v[0] + v[1] + v[2] + v[3] + v[4]
  {
    assert v[..4][..3] == v[..3] && v[..3][..2] == v[..2] && v[..2][..1] == v[..1] && v[..1][..0] == [];
    assert Total(v[..1]) == v[0] && Total(v[..2]) == v[0] + v[1];
    assert Total(v[..3]) == v[0] + v[1] + v[2] && Total(v[..4]) == v[0] + v[1] + v[2] + v[3];
  }

  lemma {:induction false} TallyBound(ops: seq<Byte>, k: nat)
    requires k < CODES
    ensures Tally(ops, k) <= Recognised(ops)
  {
    if ops != [] {
      TallyBound(ops[..|ops| - 1], k);
    }
  }

  lemma NoWrap(n: nat)
    requires n < WORD
    ensures n % WORD == n
  {}

  // Bars of counters whose sum does not wrap.
  lemma BarsTotal(c: seq<nat>)
    requires |c| == CODES
    requires c[0] + c[1] + c[2] + c[3] + c[4] + c[5] + c[6] + c[7] + c[8] + c[9] + c[10] < WORD
    ensures Total(BarValues(c)) == c[0] + c[1] + c[2] + c[3] + c[4] + c[5] + c[6] + c[7] + c[8] + c[9] + c[10]
  {
    FiveTotal(BarValues(c));
    NoWrap(c[0] + c[1]);
    NoWrap(c[2] + c[3] + c[7]);
    NoWrap(c[5] + c[8]);
    NoWrap(c[4] + c[6] + c[9]);
  }

  lemma CountsAreTallies(ops: seq<Byte>)
    requires Recognised(ops) < WORD
    ensures forall k :: 0 <= k < CODES ==> BumpAll(ZEROS, ops)[k] == Tally(ops, k)
  {
    forall k | 0 <= k < CODES ensures BumpAll(ZEROS, ops)[k] == Tally(ops, k) {
      CountersTally(ops, k);
      TallyBound(ops, k);
      NoWrap(Tally(ops, k));
    }
  }

  // Which events make which bar: opens and reads; writes, creations and new directories; removed
  // files and directories; renames; links of both kinds and special files.
  lemma BarsByCode(ops: seq<Byte>)
    requires Recognised(ops) < 0x1_0000_0000_0000_0000
    ensures BarValues(BumpAll(ZEROS, ops)) ==
            [Tally(ops, 0) + Tally(ops, 1), Tally(ops, 2) + Tally(ops, 3) + Tally(ops, 7),
             Tally(ops, 5) + Tally(ops, 8), Tally(ops, 10), Tally(ops, 4) + Tally(ops, 6) + Tally(ops, 9)]
  {
    CountsAreTallies(ops);
    TalliesPartition(ops);
    NoWrap(Tally(ops, 0) + Tally(ops, 1));
    NoWrap(Tally(ops, 2) + Tally(ops, 3) + Tally(ops, 7));
    NoWrap(Tally(ops, 5) + Tally(ops, 8));
    NoWrap(Tally(ops, 4) + Tally(ops, 6) + Tally(ops, 9));
  }

  // The five bars together count every recognised event once, while no counter can have wrapped.
  lemma BarsCountEvents(ops: seq<Byte>)
    requires Recognised(ops) < WORD
    ensures Total(BarValues(BumpAll(ZEROS, ops))) == Recognised(ops)
  {
    CountsAreTallies(ops);
    TalliesPartition(ops);
    BarsTotal(BumpAll(ZEROS, ops));
  }

  // ---------- bar lengths ----------

  // The conversion of an `int` to `uint64_t`.
  function ToWord(x: int): nat { x % WORD }

  // The conversion of a `uint64_t` to `int`.
  function ToInt(x: nat): int {
    var low := x % HALF_WORD;
    if low < HALF_WORD / 2 then low else low - HALF_WORD
  }

  function BarLength(value: nat, maxX: int, maxValue: nat): int
    requires maxValue > 0
  {
    ToInt(value * ToWord(maxX - MARGIN) % WORD / maxValue)
  }

  // What the bars are scaled by: the largest value, but at least one.
  predicate IsScale(v: seq<nat>, m: nat) {
    1 <= m && (forall i :: 0 <= i < |v| ==> v[i] <= m) && (m == 1 || m in v)
  }

  // A window width the program can see.
  predicate Width(maxX: int) { MARGIN <= maxX < HALF_WORD / 2 }

  lemma MulMonotone(a: nat, b: nat, w: nat)
    requires a <= b
    ensures a * w <= b * w
  {}

  lemma DivBound(a: nat, b: nat, w: nat)
    requires b > 0 && a <= w * b
    ensures a / b <= w
  {}

  lemma DivBelow(a: nat, b: nat, w: nat)
    requires b > 0 && a < w * b
    ensures a / b < w
  {}

  lemma DivMonotone(a: nat, a': nat, b: nat)
    requires b > 0 && a <= a'
    ensures a / b <= a' / b
  {
    var q := a' / b;
    assert a' < q * b + b && (q + 1) * b == q * b + b;
    DivBelow(a, b, q + 1);
  }

  lemma DivAtLeast(a: nat, b: nat, w: nat)
    requires b > 0 && w * b <= a
    ensures w <= a / b
  {
    var q := a / b;
    assert a < q * b + b && (q + 1) * b == q * b + b;
    if q + 1 <= w {
      MulMonotone(q + 1, w, b);
      assert false;
    }
  }

  lemma ModShrinks(n: nat)
    ensures n % WORD <= n && (n < WORD ==> n % WORD == n) && (n >= WORD ==> n % WORD <= n - WORD)
  {}

  // For a real width and a bar that fits, the conversions change nothing.
  lemma Unconverted(width: int, x: nat)
    requires 0 <= width < HALF_WORD / 2 && x < HALF_WORD / 2
    ensures ToWord(width) == width && ToInt(x) == x
  {}

  lemma ProductQuotient(value: nat, maxValue: nat, w: nat)
    requires 0 < maxValue && value <= maxValue
    ensures value * w % WORD / maxValue <= w
  {
    MulMonotone(value, maxValue, w);
    ModShrinks(value * w);
    DivBound(value * w % WORD, maxValue, w);
  }

  // Every bar fits the window, even if the product wrapped.
  lemma BarFits(value: nat, maxX: int, maxValue: nat)
    requires Width(maxX) && 0 < maxValue && value <= maxValue
    ensures 0 <= BarLength(value, maxX, maxValue) <= maxX - 15
    ensures BarLength(value, maxX, maxValue) == value * (maxX - MARGIN) % WORD / maxValue
  {
    var w: nat := maxX - MARGIN;
    var x := value * w % WORD / maxValue;
    assert 0 <= x <= w by { ProductQuotient(value, maxValue, w); }
    Unconverted(w, x);
  }

  // A larger value never gets a shorter bar, if its product does not wrap.
  lemma BarMonotone(value: nat, value': nat, maxX: int, maxValue: nat)
    requires Width(maxX) && 0 < maxValue && value <= value' <= maxValue
    requires value' * (maxX - MARGIN) < WORD
    ensures BarLength(value, maxX, maxValue) <= BarLength(value', maxX, maxValue)
  {
    var w: nat := maxX - MARGIN;
    BarFits(value, maxX, maxValue);
    BarFits(value', maxX, maxValue);
    MulMonotone(value, value', w);
    ModShrinks(value * w);
    ModShrinks(value' * w);
    DivMonotone(value * w, value' * w, maxValue);
  }

  // The largest value fills the window exactly when its product does not wrap.
  lemma LargestFills(maxX: int, maxValue: nat)
    requires Width(maxX) && 0 < maxValue < WORD
    ensures BarLength(maxValue, maxX, maxValue) == maxX - 15 <==> maxValue * (maxX - 15) < 0x1_0000_0000_0000_0000
  {
    var w: nat := maxX - MARGIN;
    BarFits(maxValue, maxX, maxValue);
    ModShrinks(maxValue * w);
    if maxValue * w < WORD {
      QuotientExact(w, maxValue);
    } else {
      assert maxValue * w - maxValue == (w - 1) * maxValue;
      DivBound(maxValue * w % WORD, maxValue, w - 1);
    }
  }

  lemma QuotientExact(w: nat, b: nat)
    requires b > 0
    ensures b * w / b == w
  {
    DivBound(b * w, b, w);
    DivAtLeast(b * w, b, w);
  }

  // In a window narrower than the margin the conversions give a negative length.
  lemma NarrowWindow(maxX: int)
    requires 0 <= maxX < 15
    ensures BarLength(1, maxX, 1) == maxX - 15
  {
    assert ToWord(maxX - MARGIN) == WORD + maxX - 15;
    assert 1 * (WORD + maxX - 15) % WORD / 1 == WORD + maxX - 15;
  }

  // The length is the value's share of the width, rounded down.
  lemma BarProportional(value: nat, maxX: int, maxValue: nat)
    requires Width(maxX) && 0 < maxValue && value <= maxValue
    requires value * (maxX - 15) < 0x1_0000_0000_0000_0000
    ensures var l := BarLength(value, maxX, maxValue); l * maxValue <= value * (maxX - 15) < (l + 1) * maxValue
  {
    BarFits(value, maxX, maxValue);
    ModShrinks(value * (maxX - MARGIN));
    RoundedDown(value * (maxX - MARGIN), maxValue);
  }

  lemma RoundedDown(a: nat, b: nat)
    requires b > 0
    ensures a / b * b <= a < (a / b + 1) * b
  {
    assert a == b * (a / b) + a % b;
    assert (a / b + 1) * b == a / b * b + b;
  }

  // And no smaller value does.
  lemma OnlyLargestFills(value: nat, maxX: int, maxValue: nat)
    requires MARGIN < maxX < HALF_WORD / 2 && value < maxValue
    requires maxValue * (maxX - MARGIN) < WORD
    ensures BarLength(value, maxX, maxValue) < maxX - MARGIN
  {
    var w: nat := maxX - MARGIN;
    BarFits(value, maxX, maxValue);
    SmallerProduct(value, maxValue, w);
    ModShrinks(value * w);
    DivBelow(value * w, maxValue, w);
  }

  lemma SmallerProduct(value: nat, maxValue: nat, w: nat)
    requires value < maxValue && 0 < w
    ensures value * w < w * maxValue
  {
    MulMonotone(value + 1, maxValue, w);
    assert (value + 1) * w == value * w + w;
  }

  // ---------- the counters in memory ----------

  class OperationCounters {
    var openOps: nat
    var readOps: nat
    var writeOps: nat
    var createOps: nat
    var linkOps: nat
    var unlinkOps: nat
    var syslinkOps: nat
    var mkdirOps: nat
    var rmdirOps: nat
    var mknodOps: nat
    var renameOps: nat

    constructor ()
      ensures Counts() == ZEROS
    {
      openOps, readOps, writeOps, createOps, linkOps, unlinkOps := 0, 0, 0, 0, 0, 0;
      syslinkOps, mkdirOps, rmdirOps, mknodOps, renameOps := 0, 0, 0, 0, 0;
    }

    // The counters, by operation code.
    ghost function Counts(): (c: seq<nat>)
      reads this
      ensures |c| == CODES
    {
      [openOps, readOps, writeOps, createOps, linkOps, unlinkOps, syslinkOps, mkdirOps, rmdirOps, mknodOps, renameOps]
    }

    method ReadCounter(op: Byte) returns (r: nat)
      ensures r == if op < CODES then Counts()[op] else 0
    {
      match op
      case OP_READ => r := readOps;
      case OP_WRITE => r := writeOps;
      case OP_UNLINK => r := unlinkOps;
      case OP_OPEN => r := openOps;
      case OP_CREATE => r := createOps;
      case OP_LINK => r := linkOps;
      case OP_SYSLINK => r := syslinkOps;
      case OP_MKDIR => r := mkdirOps;
      case OP_RMDIR => r := rmdirOps;
      case OP_MKNOD => r := mknodOps;
      case OP_RENAME => r := renameOps;
      case _ => r := 0;
    }

    method IncrementCounter(op: Byte)
      modifies this
      ensures Counts() == Bump(old(Counts()), op)
    {
      match op
      case OP_READ => readOps := (readOps + 1) % WORD;
      case OP_WRITE => writeOps := (writeOps + 1) % WORD;
      case OP_UNLINK => unlinkOps := (unlinkOps + 1) % WORD;
      case OP_OPEN => openOps := (openOps + 1) % WORD;
      case OP_CREATE => createOps := (createOps + 1) % WORD;
      case OP_LINK => linkOps := (linkOps + 1) % WORD;
      case OP_SYSLINK => syslinkOps := (syslinkOps + 1) % WORD;
      case OP_MKDIR => mkdirOps := (mkdirOps + 1) % WORD;
      case OP_RMDIR => rmdirOps := (rmdirOps + 1) % WORD;
      case OP_MKNOD => mknodOps := (mknodOps + 1) % WORD;
      case OP_RENAME => renameOps := (renameOps + 1) % WORD;
      case _ =>
    }

    // `draw_bar_graph` without the drawing: the values, what they are scaled by, and the lengths.
    method DrawBarGraph(maxX: int) returns (values: seq<nat>, maxValue: nat, lengths: seq<int>)
      ensures values == BarValues(Counts()) && IsScale(values, maxValue)
      ensures |lengths| == BARS
      ensures forall i :: 0 <= i < BARS ==> lengths[i] == BarLength(values[i], maxX, maxValue)
    {
      var open := ReadCounter(OP_OPEN);
      var read := ReadCounter(OP_READ);
      var write := ReadCounter(OP_WRITE);
      var create := ReadCounter(OP_CREATE);
      var mkdir := ReadCounter(OP_MKDIR);
      var unlink := ReadCounter(OP_UNLINK);
      var rmdir := ReadCounter(OP_RMDIR);
      var rename := ReadCounter(OP_RENAME);
      var link := ReadCounter(OP_LINK);
      var syslink := ReadCounter(OP_SYSLINK);
      var mknod := ReadCounter(OP_MKNOD);
      values := [(open + read) % WORD, (write + create + mkdir) % WORD, (unlink + rmdir) % WORD,
                 rename, (link + syslink + mknod) % WORD];
      maxValue := 1;
      var i := 0;
      while i < BARS
        invariant 0 <= i <= BARS && IsScale(values[..i], maxValue)
      {
        if values[i] > maxValue {
          maxValue := values[i];
        }
        assert values[..i + 1] == values[..i] + [values[i]];
        i := i + 1;
      }
      assert values[..BARS] == values;
      lengths := [];
      i := 0;
      while i < BARS
        invariant 0 <= i <= BARS && |lengths| == i
        invariant forall k :: 0 <= k < i ==> lengths[k] == BarLength(values[k], maxX, maxValue)
      {
        lengths := lengths + [BarLength(values[i], maxX, maxValue)];
        i := i + 1;
      }
    }
  }
}
