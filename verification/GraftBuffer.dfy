/** The graft buffer: one buffered commitment, its stored form, and the buffer table. */
module GraftBuffer {
  import opened Prelude

  /** Positions per shard, shared by both pools. */
  const SHARD: nat := 0x1_0000

  function ShardOf(position: nat): nat {
    position / SHARD
  }

  datatype Marking = Unmarked | MarkedHere | MarkedReference

  datatype Retention = Ephemeral | Marked | Checkpoint(id: nat, marking: Marking) | Reference

  /** A tree node; nothing here looks inside it. */
  datatype Hash = Hash(bytes: seq<int>)

  /** One commitment: its absolute position, hash and retention. */
  datatype Row = Row(pos: nat, hash: Hash, retention: Retention)

  // ── The stored form of a retention ───────────────────────────────────────

  datatype Stored = Stored(kind: int, height: Option<int>, marking: Option<int>)

  function EncodeRetention(r: Retention): Stored {
    match r
    case Ephemeral => Stored(0, None, None)
    case Marked => Stored(1, None, None)
    case Checkpoint(id, marking) =>
      Stored(2, Some(id), Some(match marking case Unmarked => 0 case MarkedHere => 1 case MarkedReference => 2))
    case Reference => Stored(3, None, None)
  }

  /** `None` for a row that will not decode. */
  function DecodeRetention(s: Stored): Option<Retention> {
    if s.kind == 0 then Some(Ephemeral)
    else if s.kind == 1 then Some(Marked)
    else if s.kind == 3 then Some(Reference)
    else if s.kind != 2 || s.height.None? || s.height.value < 0 || s.height.value > U32_MAX then None
    else
      match (if s.marking.None? then 0 else s.marking.value)
      case 0 => Some(Checkpoint(s.height.value, Unmarked))
      case 1 => Some(Checkpoint(s.height.value, MarkedHere))
      case 2 => Some(Checkpoint(s.height.value, MarkedReference))
      case _ => None
  }

  /** What is stored reads back, for every retention with a `u32` height, and for no
      other. */
  lemma RetentionRoundTrip(r: Retention)
    ensures DecodeRetention(EncodeRetention(r)) == Some(r) <==> r.Checkpoint? ==> r.id <= U32_MAX
  {
    if r.Checkpoint? {
      match r.marking
      case Unmarked =>
      case MarkedHere =>
      case MarkedReference =>
    }
  }

  // ── The table of one pool ────────────────────────────────────────────────

  /** Keyed by shard and position. */
  type Table = map<(nat, nat), Row>

  function Append(t: Table, shard: nat, rows: seq<Row>): (r: Table)
    decreases |rows|
  {
    if rows == [] then t else Append(t, shard, rows[..|rows| - 1])[(shard, Last(rows).pos) := Last(rows)]
  }

  function DeleteRowsIn(t: Table, shard: nat, from: nat, to: nat): (r: Table) {
    map key | key in t && !(key.0 == shard && from <= key.1 < to) :: t[key]
  }

  ghost predicate Ascending(rows: seq<Row>) {
    forall i, j | 0 <= i < j < |rows| :: rows[i].pos < rows[j].pos
  }

  /** What reading a shard back yields: exactly its rows, by position. */
  ghost predicate IsLoad(t: Table, shard: nat, rows: seq<Row>) {
    && Ascending(rows)
    && (forall i | 0 <= i < |rows| :: (shard, rows[i].pos) in t && t[(shard, rows[i].pos)] == rows[i])
    && (forall key | key in t && key.0 == shard :: t[key] in rows && t[key].pos == key.1)
  }

  /** Appending rows of distinct positions replaces exactly those keys, so appending them
      again changes nothing. */
  lemma {:induction false} AppendAt(t: Table, shard: nat, rows: seq<Row>, key: (nat, nat))
    requires Ascending(rows)
    ensures (exists i | 0 <= i < |rows| :: key == (shard, rows[i].pos)) ==> key in Append(t, shard, rows)
    ensures forall i | 0 <= i < |rows| && key == (shard, rows[i].pos) :: Append(t, shard, rows)[key] == rows[i]
    ensures (forall i | 0 <= i < |rows| :: key != (shard, rows[i].pos)) ==>
              (key in Append(t, shard, rows) <==> key in t)
              && (key in t ==> Append(t, shard, rows)[key] == t[key])
    decreases |rows|
  {
    if rows != [] {
      var front := rows[..|rows| - 1];
      AppendAt(t, shard, front, key);
      assert forall i | 0 <= i < |front| :: front[i] == rows[i];
    }
  }
}
