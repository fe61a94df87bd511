/**
 * Register accesses issued through a regmap. The display-engine drivers are
 * modelled by the sequence of accesses they issue; a register's final
 * contents are read off that sequence.
 */
module Regmap {
  import opened Wrappers

  datatype Access =
    | Write(addr: int, val: bv32)                    // regmap_write
    | BulkWrite(addr: int, vals: seq<bv32>)          // regmap_bulk_write: vals[k] goes to addr + 4 * k
    | UpdateBits(addr: int, mask: bv32, val: bv32)   // regmap_update_bits

  /** Whether an access writes to `addr`. */
  predicate Hits(a: Access, addr: int) {
    match a
    case Write(x, _) => x == addr
    case BulkWrite(x, vs) => x <= addr < x + 4 * |vs| && (addr - x) % 4 == 0
    case UpdateBits(x, _, _) => x == addr
  }

  /** The contents of register `addr` after access `a`, when it held `cur`. */
  function Apply(a: Access, addr: int, cur: bv32): (r: bv32)
    ensures !Hits(a, addr) ==> r == cur
  {
    match a
    case Write(x, v) => if x == addr then v else cur
    case BulkWrite(x, vs) =>
      if x <= addr < x + 4 * |vs| && (addr - x) % 4 == 0 then vs[(addr - x) / 4] else cur
    case UpdateBits(x, mask, v) => if x == addr then UpdateBitsValue(cur, mask, v) else cur
  }

  /** The contents of register `addr` after the accesses of `log`, when it
      held `init` before them. */
  function Value(log: seq<Access>, addr: int, init: bv32): bv32
    decreases |log|
  {
    if log == [] then init else Value(log[1..], addr, Apply(log[0], addr, init))
  }

  /** The contents of a register after regmap_update_bits on a register that
      held `cur`: the bits outside `mask` are kept and those inside it are
      taken from `val`. */
  function UpdateBitsValue(cur: bv32, mask: bv32, val: bv32): (r: bv32)
    ensures r & !mask == cur & !mask
    ensures r & mask == val & mask
  {
    (cur & !mask) | (val & mask)
  }

  /** Running two logs one after the other. */
  lemma {:induction false} ValueAppend(a: seq<Access>, b: seq<Access>, addr: int, init: bv32)
    ensures Value(a + b, addr, init) == Value(b, addr, Value(a, addr, init))
    decreases |a|
  {
    if a == [] {
      assert a + b == b;
    } else {
      assert (a + b)[0] == a[0];
      assert (a + b)[1..] == a[1..] + b;
      ValueAppend(a[1..], b, addr, Apply(a[0], addr, init));
    }
  }

  /** A log that never writes to `addr` leaves it as it was. */
  lemma {:induction false} ValueUntouched(log: seq<Access>, addr: int, init: bv32)
    requires forall m :: 0 <= m < |log| ==> !Hits(log[m], addr)
    ensures Value(log, addr, init) == init
    decreases |log|
  {
    if log != [] {
      assert forall m :: 0 <= m < |log[1..]| ==> log[1..][m] == log[m + 1];
      ValueUntouched(log[1..], addr, init);
    }
  }

  /** When exactly one access of `log` writes to `addr` the register ends up
      as that access leaves it. */
  lemma ValueUnique(log: seq<Access>, k: int, addr: int, init: bv32)
    requires 0 <= k < |log| && Hits(log[k], addr)
    requires forall m :: 0 <= m < |log| && m != k ==> !Hits(log[m], addr)
    ensures Value(log, addr, init) == Apply(log[k], addr, init)
  {
    var before, after := log[..k], log[k + 1..];
    assert log == before + [log[k]] + after;
    assert forall m :: 0 <= m < |before| ==> before[m] == log[m];
    assert forall m :: 0 <= m < |after| ==> after[m] == log[k + 1 + m];
    ValueUntouched(before, addr, init);
    ValueAppend(before + [log[k]], after, addr, init);
    ValueAppend(before, [log[k]], addr, init);
    var v := Apply(log[k], addr, init);
    assert Value([log[k]], addr, init) == v by {
      assert [log[k]][1..] == [];
    }
    ValueUntouched(after, addr, v);
  }

  /** Regrouping a log that grows in stages. */
  lemma Associate(a: seq<Access>, b: seq<Access>, c: seq<Access>)
    ensures a + b + c == a + (b + c)
  {
  }

  /** Issuing the next access of a planned sequence extends the prefix. */
  lemma Extend(log: seq<Access>, plan: seq<Access>, k: int)
    requires 0 <= k < |plan|
    ensures log + plan[..k] + [plan[k]] == log + plan[..k + 1]
  {
    assert plan[..k + 1] == plan[..k] + [plan[k]];
  }

  /** A regmap: the log of every access issued through it. */
  class RegMap {
    var log: seq<Access>

    constructor ()
      ensures log == []
    {
      log := [];
    }

    /** regmap_write */
    method RegWrite(addr: int, val: bv32)
      modifies this
      ensures log == old(log) + [Write(addr, val)]
    {
      log := log + [Write(addr, val)];
    }

    /** regmap_bulk_write */
    method RegBulkWrite(addr: int, vals: seq<bv32>)
      modifies this
      ensures log == old(log) + [BulkWrite(addr, vals)]
    {
      log := log + [BulkWrite(addr, vals)];
    }

    /** regmap_update_bits */
    method RegUpdateBits(addr: int, mask: bv32, val: bv32)
      modifies this
      ensures log == old(log) + [UpdateBits(addr, mask, val)]
    {
      log := log + [UpdateBits(addr, mask, val)];
    }
  }
}
