/** The audit table the broker's promises refer to (broker/qdistro_admin_audit.py). */
module Audit {
  import opened Options
  import opened BrokerModel

  /** A row as written: SQLite gives it the id "largest id + 1". */
  datatype Entry = Entry(id: nat, ts: int, row: AuditRow)

  function NextId(table: seq<Entry>): nat { if table == [] then 1 else table[|table| - 1].id + 1 }

  function Written(table: seq<Entry>, ts: int, row: AuditRow): seq<Entry> { table + [Entry(NextId(table), ts, row)] }

  /** The rows not older than the cutoff. */
  function Since(table: seq<Entry>, cutoff: int): seq<Entry> {
    if table == [] then []
    else
      var last := table[|table| - 1];
      Since(table[..|table| - 1], cutoff) + (if last.ts < cutoff then [] else [last])
  }

  datatype Op = Write(at: int, row: AuditRow) | Collect(at: int, olderThan: int)

  /** A negative age is refused and deletes nothing. */
  function Apply(table: seq<Entry>, op: Op): seq<Entry> {
    match op
    case Write(at, row) => Written(table, at, row)
    case Collect(at, olderThan) => if olderThan < 0 then table else Since(table, at - olderThan)
  }

  function After(table: seq<Entry>, ops: seq<Op>): seq<Entry>
    decreases |ops|
  {
    if ops == [] then table else After(Apply(table, ops[0]), ops[1..])
  }

  ghost predicate ClockGrows(from: int, ops: seq<Op>)
    decreases |ops|
  {
    ops != [] ==> from <= ops[0].at && ClockGrows(ops[0].at, ops[1..])
  }

  ghost predicate Dropped(op: Op, ts: int) { op.Collect? && op.olderThan >= 0 && ts < op.at - op.olderThan }

  lemma {:induction false} SinceKeeps(table: seq<Entry>, cutoff: int)
    ensures forall e :: e in Since(table, cutoff) <==> e in table && e.ts >= cutoff
  {
    if table != [] {
      var n := |table| - 1;
      SinceKeeps(table[..n], cutoff);
      assert forall e :: e in table <==> e in table[..n] || e == table[n];
    }
  }

  lemma {:induction false} SinceShrinks(table: seq<Entry>, cutoff: int)
    ensures |Since(table, cutoff)| <= |table|
  {
    if table != [] {
      SinceShrinks(table[..|table| - 1], cutoff);
    }
  }

  lemma {:induction false} AbsentStays(table: seq<Entry>, from: int, ops: seq<Op>, e: Entry)
    requires e !in table && e.ts < from && ClockGrows(from, ops)
    ensures e !in After(table, ops)
    decreases |ops|
  {
    if ops != [] {
      if ops[0].Collect? {
        SinceKeeps(table, ops[0].at - ops[0].olderThan);
      }
      AbsentStays(Apply(table, ops[0]), ops[0].at, ops[1..], e);
    }
  }

  /** The table is append-only up to its retention: over any later writes and collections a row is still there, as it
      was written, exactly if no collection was asked to drop rows of its age. */
  lemma {:induction false} RowsStay(table: seq<Entry>, from: int, ops: seq<Op>, e: Entry)
    requires e in table && e.ts <= from && ClockGrows(from, ops)
    ensures e in After(table, ops) <==> forall i :: 0 <= i < |ops| ==> !Dropped(ops[i], e.ts)
    decreases |ops|
  {
    if ops != [] {
      var rest := ops[1..];
      assert forall i :: 0 <= i < |rest| ==> rest[i] == ops[i + 1];
      if Dropped(ops[0], e.ts) {
        SinceKeeps(table, ops[0].at - ops[0].olderThan);
        AbsentStays(Apply(table, ops[0]), ops[0].at, rest, e);
      } else {
        if ops[0].Collect? {
          SinceKeeps(table, ops[0].at - ops[0].olderThan);
        }
        RowsStay(Apply(table, ops[0]), ops[0].at, rest, e);
        assert (forall i :: 0 <= i < |ops| ==> !Dropped(ops[i], e.ts)) <==>
                 (forall i :: 0 <= i < |rest| ==> !Dropped(rest[i], e.ts)) by {
          if forall i :: 0 <= i < |rest| ==> !Dropped(rest[i], e.ts) {
            forall i | 0 <= i < |ops| ensures !Dropped(ops[i], e.ts) {
              assert i > 0 ==> ops[i] == rest[i - 1];
            }
          }
        }
      }
    }
  }

  class AuditLog {
    var table: seq<Entry>

    constructor ()
      ensures table == []
    {
      table := [];
    }

    method Log(now: int, row: AuditRow)
      modifies this
      ensures table == Apply(old(table), Write(now, row))
    {
      table := table + [Entry(NextId(table), now, row)];
    }

    /** `gc`: None for the refused negative age, else how many rows went. */
    method Gc(now: int, olderThan: int) returns (deleted: Option<nat>)
      modifies this
      ensures table == Apply(old(table), Collect(now, olderThan))
      ensures deleted == if olderThan < 0 then None else Some(|old(table)| - |table|)
    {
      if olderThan < 0 {
        return None;
      }
      SinceShrinks(table, now - olderThan);
      var kept := Since(table, now - olderThan);
      deleted := Some(|table| - |kept|);
      table := kept;
    }
  }
}
