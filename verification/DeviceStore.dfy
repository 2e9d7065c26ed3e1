/**
 The encrypted record store of packages/storage/src/device-store.ts: named rows, a byte and
 record budget checked incrementally by `put`, and transactions that commit or roll back.
 */
module DeviceStore {
  import opened Basics

  const NONCE_BYTES: nat := 24
  const TAG_BYTES: nat := 16

  /** A store over names of type N and values of type V. The lengths of their encodings are functions. */
  datatype Sizes<!N, !V> = Sizes(nameLen: N -> nat, valueLen: V -> nat)

  datatype Budget = Budget(bytes: nat, records: nat)

  function RowBytes<N, V>(z: Sizes<N, V>, name: N, value: V): nat {
    z.nameLen(name) + NONCE_BYTES + z.valueLen(value) + TAG_BYTES
  }

  // ---- Usage, recomputed over all rows ----

  ghost function SumBytes<N, V>(z: Sizes<N, V>, rows: map<N, V>, names: set<N>): nat
    requires names <= rows.Keys
  {
    if names == {} then 0
    else
      var n :| n in names;
      RowBytes(z, n, rows[n]) + SumBytes(z, rows, names - {n})
  }

  ghost function Bytes<N, V>(z: Sizes<N, V>, rows: map<N, V>): nat {
    SumBytes(z, rows, rows.Keys)
  }

  lemma {:induction false} SumSplit<N, V>(z: Sizes<N, V>, rows: map<N, V>, names: set<N>, n: N)
    requires names <= rows.Keys && n in names
    ensures SumBytes(z, rows, names) == RowBytes(z, n, rows[n]) + SumBytes(z, rows, names - {n})
    decreases |names|
  {
    var k :| k in names && SumBytes(z, rows, names) == RowBytes(z, k, rows[k]) + SumBytes(z, rows, names - {k});
    if k != n {
      SumSplit(z, rows, names - {k}, n);
      SumSplit(z, rows, names - {n}, k);
      assert names - {k} - {n} == names - {n} - {k};
    }
  }

  lemma {:induction false} SumFrame<N, V>(z: Sizes<N, V>, rows: map<N, V>, other: map<N, V>, names: set<N>)
    requires names <= rows.Keys && names <= other.Keys
    requires forall n :: n in names ==> rows[n] == other[n]
    ensures SumBytes(z, rows, names) == SumBytes(z, other, names)
    decreases |names|
  {
    if names != {} {
      var k :| k in names;
      SumSplit(z, rows, names, k);
      SumSplit(z, other, names, k);
      SumFrame(z, rows, other, names - {k});
    }
  }

  function PreviousBytes<N(==), V>(z: Sizes<N, V>, rows: map<N, V>, name: N): nat {
    if name in rows then RowBytes(z, name, rows[name]) else 0
  }

  /** The sum after writing one row is the sum before, less the old row, plus the new. */
  lemma BytesAfterWrite<N, V>(z: Sizes<N, V>, rows: map<N, V>, name: N, value: V)
    ensures Bytes(z, rows[name := value]) == Bytes(z, rows) - PreviousBytes(z, rows, name) + RowBytes(z, name, value)
  {
    var after := rows[name := value];
    var others := rows.Keys - {name};
    SumSplit(z, after, after.Keys, name);
    assert after.Keys - {name} == others;
    SumFrame(z, rows, after, others);
    if name in rows {
      SumSplit(z, rows, rows.Keys, name);
    } else {
      assert others == rows.Keys;
    }
  }

  lemma RecordsAfterWrite<N, V>(rows: map<N, V>, name: N, value: V)
    ensures |rows[name := value]| == |rows| + if name in rows then 0 else 1
  {
    assert rows[name := value].Keys == rows.Keys + {name};
  }

  // ---- put ----

  /** The check in `put`: one more record, or more bytes than the row it replaces. */
  ghost predicate Fits<N, V>(z: Sizes<N, V>, rows: map<N, V>, budget: Option<Budget>, name: N, value: V) {
    budget.Some? ==>
      var previous := PreviousBytes(z, rows, name);
      var next := RowBytes(z, name, value);
      && (name in rows || |rows| < budget.value.records)
      && (next <= previous || Bytes(z, rows) - previous + next <= budget.value.bytes)
  }

  ghost function Put<N, V>(z: Sizes<N, V>, rows: map<N, V>, budget: Option<Budget>, name: N, value: V): Option<map<N, V>> {
    if Fits(z, rows, budget, name, value) then Some(rows[name := value]) else None
  }

  /** Writing a row makes neither the record count nor the byte sum grow past its limit. */
  ghost predicate Room<N, V>(z: Sizes<N, V>, rows: map<N, V>, budget: Option<Budget>, name: N, value: V) {
    budget.Some? ==>
      var after := rows[name := value];
      && (|after| <= |rows| || |after| <= budget.value.records)
      && (Bytes(z, after) <= Bytes(z, rows) || Bytes(z, after) <= budget.value.bytes)
  }

  /** A row is written exactly when there is room for it, by the sums over all rows before and after. */
  lemma PutIff<N, V>(z: Sizes<N, V>, rows: map<N, V>, budget: Option<Budget>, name: N, value: V)
    ensures Put(z, rows, budget, name, value) == if Room(z, rows, budget, name, value) then Some(rows[name := value]) else None
  {
    BytesAfterWrite(z, rows, name, value);
    RecordsAfterWrite(rows, name, value);
  }

  /** The larger of the limit and what was there when the limit was set. */
  function Cap(limit: nat, atSet: nat): nat {
    if limit >= atSet then limit else atSet
  }

  ghost predicate Within<N, V>(z: Sizes<N, V>, rows: map<N, V>, budget: Budget, atSet: Budget) {
    && Bytes(z, rows) <= Cap(budget.bytes, atSet.bytes)
    && |rows| <= Cap(budget.records, atSet.records)
  }

  lemma PutWithin<N, V>(z: Sizes<N, V>, rows: map<N, V>, budget: Budget, atSet: Budget, name: N, value: V)
    requires Within(z, rows, budget, atSet) && Fits(z, rows, Some(budget), name, value)
    ensures Within(z, rows[name := value], budget, atSet)
  {
    BytesAfterWrite(z, rows, name, value);
    RecordsAfterWrite(rows, name, value);
  }

  /** Writes inside one transaction: either all of them fit and are kept, or none is. */
  ghost function PutAll<N, V>(z: Sizes<N, V>, rows: map<N, V>, budget: Option<Budget>, writes: seq<(N, V)>): Option<map<N, V>>
    decreases |writes|
  {
    if writes == [] then Some(rows)
    else
      match Put(z, rows, budget, writes[0].0, writes[0].1)
      case None => None
      case Some(next) => PutAll(z, next, budget, writes[1..])
  }

  ghost function Transact<N, V>(z: Sizes<N, V>, rows: map<N, V>, budget: Option<Budget>, writes: seq<(N, V)>): map<N, V> {
    match PutAll(z, rows, budget, writes)
    case None => rows
    case Some(after) => after
  }

  lemma {:induction false} PutAllWithin<N, V>(z: Sizes<N, V>, rows: map<N, V>, budget: Budget, atSet: Budget, writes: seq<(N, V)>)
    requires Within(z, rows, budget, atSet)
    ensures PutAll(z, rows, Some(budget), writes).Some? ==> Within(z, PutAll(z, rows, Some(budget), writes).value, budget, atSet)
    decreases |writes|
  {
    if writes != [] {
      var (name, value) := writes[0];
      if Fits(z, rows, Some(budget), name, value) {
        PutWithin(z, rows, budget, atSet, name, value);
        PutAllWithin(z, rows[name := value], budget, atSet, writes[1..]);
      }
    }
  }

  ghost function RunTransactions<N, V>(z: Sizes<N, V>, rows: map<N, V>, budget: Option<Budget>, txs: seq<seq<(N, V)>>): map<N, V>
    decreases |txs|
  {
    if txs == [] then rows else RunTransactions(z, Transact(z, rows, budget, txs[0]), budget, txs[1..])
  }

  /** From the moment limits are set, no sequence of transactions, committed or rolled back, takes
      the bytes or the records above the larger of the limit and what was stored at that moment. */
  lemma {:induction false} CapacityHolds<N, V>(z: Sizes<N, V>, rows: map<N, V>, budget: Budget, atSet: Budget, txs: seq<seq<(N, V)>>)
    requires Within(z, rows, budget, atSet)
    ensures Within(z, RunTransactions(z, rows, Some(budget), txs), budget, atSet)
    decreases |txs|
  {
    if txs != [] {
      PutAllWithin(z, rows, budget, atSet, txs[0]);
      CapacityHolds(z, Transact(z, rows, Some(budget), txs[0]), budget, atSet, txs[1..]);
    }
  }

  lemma CapacityFromSetLimits<N, V>(z: Sizes<N, V>, rows: map<N, V>, budget: Budget, txs: seq<seq<(N, V)>>)
    ensures Within(z, RunTransactions(z, rows, Some(budget), txs), budget, Budget(Bytes(z, rows), |rows|))
  {
    CapacityHolds(z, rows, budget, Budget(Bytes(z, rows), |rows|), txs);
  }

  // ---- The store object ----

  class Store<N(==), V> {
    const sizes: Sizes<N, V>
    var rows: map<N, V>
    var budget: Option<Budget>

    constructor (sizes: Sizes<N, V>)
      ensures this.sizes == sizes && rows == map[] && budget == None
    {
      this.sizes := sizes;
      rows := map[];
      budget := None;
    }

    method SetLimits(bytes: int, records: int) returns (ok: bool)
      modifies this`budget
      ensures ok <==> bytes >= 1 && records >= 1
      ensures budget == if ok then Some(Budget(bytes, records)) else old(budget)
    {
      ok := bytes >= 1 && records >= 1;
      if ok {
        budget := Some(Budget(bytes, records));
      }
    }

    /** The aggregate query over every row. */
    method Usage() returns (bytes: nat, records: nat)
      ensures bytes == Bytes(sizes, rows) && records == |rows|
    {
      bytes, records := 0, 0;
      var rest := rows.Keys;
      while rest != {}
        invariant rest <= rows.Keys
        invariant bytes + SumBytes(sizes, rows, rest) == Bytes(sizes, rows)
        invariant records + |rest| == |rows|
        decreases |rest|
      {
        var n :| n in rest;
        SumSplit(sizes, rows, rest, n);
        bytes := bytes + RowBytes(sizes, n, rows[n]);
        records := records + 1;
        rest := rest - {n};
      }
    }

    method PutRow(name: N, value: V) returns (ok: bool)
      modifies this`rows
      ensures ok <==> Put(sizes, old(rows), budget, name, value).Some?
      ensures rows == if ok then old(rows)[name := value] else old(rows)
    {
      if budget.Some? {
        var previous := PreviousBytes(sizes, rows, name);
        var usedBytes, usedRecords := Usage();
        var next := RowBytes(sizes, name, value);
        if (name !in rows && usedRecords >= budget.value.records) ||
           (next > previous && usedBytes - previous + next > budget.value.bytes)
        {
          return false;
        }
      }
      rows := rows[name := value];
      return true;
    }

    /** A transaction of writes: the rows are put back if one of them does not fit. */
    method Transaction(writes: seq<(N, V)>) returns (ok: bool)
      modifies this`rows
      ensures ok <==> PutAll(sizes, old(rows), budget, writes).Some?
      ensures rows == Transact(sizes, old(rows), budget, writes)
    {
      var saved := rows;
      var i := 0;
      while i < |writes|
        invariant 0 <= i <= |writes|
        invariant saved == old(rows)
        invariant PutAll(sizes, old(rows), budget, writes) == PutAll(sizes, rows, budget, writes[i..])
      {
        var fits := PutRow(writes[i].0, writes[i].1);
        if !fits {
          rows := saved;
          return false;
        }
        i := i + 1;
      }
      return true;
    }
  }
}
