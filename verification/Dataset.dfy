/** What the trainers' caches share: the unshuffled loader over a dataset, and columns added to it by
    name. */
module Dataset {
  import opened Tensors

  /** The unshuffled loader: consecutive batches, the last one possibly shorter. */
  function Batches<X>(rows: seq<X>, size: nat): seq<seq<X>>
    requires size > 0
  {
    if |rows| == 0 then [] else if |rows| <= size then [rows] else [rows[..size]] + Batches(rows[size..], size)
  }

  lemma {:induction false} BatchesCoverRows<X>(rows: seq<X>, size: nat)
    requires size > 0
    ensures Concat(Batches(rows, size)) == rows
    ensures Batches(rows, size) == [] <==> rows == []
    ensures forall k :: 0 <= k < |Batches(rows, size)| ==> 0 < |Batches(rows, size)[k]| <= size
  {
    if |rows| > size {
      BatchesCoverRows(rows[size..], size);
      assert rows == rows[..size] + rows[size..];
    } else if rows != [] {
      assert Concat([rows]) == rows + Concat([]);
    }
  }

  /** What each batch is mapped to, batch by batch. */
  function EachBatch<X, V>(f: seq<X> -> seq<V>, batches: seq<seq<X>>): (p: seq<seq<V>>)
    ensures |p| == |batches|
  {
    seq(|batches|, k requires 0 <= k < |batches| => f(batches[k]))
  }

  lemma NextBatch<X, V>(f: seq<X> -> seq<V>, batches: seq<seq<X>>, k: nat, done: seq<seq<V>>, v: seq<V>)
    requires k < |batches| && done == EachBatch(f, batches)[..k] && v == f(batches[k])
    ensures done + [v] == EachBatch(f, batches)[..k + 1]
  {
  }

  /** The batch row i is in; it is at i % size there. */
  function BatchOf<X>(rows: seq<X>, size: nat, i: nat): (b: seq<X>)
    requires size > 0 && i < |rows|
    ensures i % size < |b| && b[i % size] == rows[i]
  {
    rows[i - i % size..Min(i - i % size + size, |rows|)]
  }

  lemma InFirstBatch(i: nat, size: nat)
    requires i < size
    ensures i % size == i
  {
  }

  lemma OneBatchLater(i: nat, size: nat)
    requires 0 < size <= i
    ensures (i - size) % size == i % size
  {
    var q, p := i / size, (i - size) / size;
    assert i == q * size + i % size && i - size == p * size + (i - size) % size;
    SameRemainder(q - 1 - p, size, (i - size) % size - i % size);
  }

  lemma SameRemainder(d: int, size: int, rest: int)
    requires d * size == rest && -size < rest < size
    ensures d == 0
  {
    NonzeroMultiple(d, size);
  }

  lemma {:induction false} NonzeroMultiple(d: int, size: int)
    requires size >= 0
    ensures d > 0 ==> d * size >= size
    ensures d < 0 ==> d * size <= -size
    decreases if d < 0 then -d else d
  {
    if d > 1 {
      NonzeroMultiple(d - 1, size);
      Times(d - 1, size);
    } else if d < -1 {
      NonzeroMultiple(d + 1, size);
      Times(d, size);
    }
  }

  lemma Times(d: int, size: int)
    ensures (d + 1) * size == d * size + size
  {
  }

  lemma FirstBatch<X>(rows: seq<X>, size: nat, i: nat)
    requires i < |rows| && i < size
    ensures BatchOf(rows, size, i) == if |rows| <= size then rows else rows[..size]
  {
    InFirstBatch(i, size);
    if |rows| <= size { assert rows[..|rows|] == rows; }
  }

  lemma LaterBatch<X>(rows: seq<X>, size: nat, i: nat)
    requires 0 < size <= i < |rows|
    ensures BatchOf(rows, size, i) == BatchOf(rows[size..], size, i - size)
  {
    OneBatchLater(i, size);
    NotInFirstBatch(i, size);
    SliceShift(rows, size, i - i % size, Min(i - i % size + size, |rows|));
  }

  lemma NotInFirstBatch(i: nat, size: nat)
    requires 0 < size <= i
    ensures i - i % size >= size
  {
    var q := i / size;
    assert i - i % size == q * size;
    NonzeroMultiple(q, size);
  }

  lemma SliceShift<X>(s: seq<X>, k: nat, a: nat, b: nat)
    requires k <= a <= b <= |s|
    ensures s[a..b] == s[k..][a - k..b - k]
  {
  }

  lemma EachBatchStep<X, V>(f: seq<X> -> seq<V>, rows: seq<X>, size: nat)
    requires 0 < size < |rows|
    ensures Concat(EachBatch(f, Batches(rows, size)))
            == f(rows[..size]) + Concat(EachBatch(f, Batches(rows[size..], size)))
  {
    var pieces := EachBatch(f, Batches(rows, size));
    assert pieces[1..] == EachBatch(f, Batches(rows[size..], size));
  }

  lemma OneBatch<X, V>(f: seq<X> -> seq<V>, rows: seq<X>, size: nat)
    requires 0 < |rows| <= size
    ensures Concat(EachBatch(f, Batches(rows, size))) == f(rows)
  {
    var pieces := EachBatch(f, Batches(rows, size));
    assert pieces[1..] == [] && Concat(pieces[1..]) == [];
  }

  /** Row i of the concatenated pieces comes from the row's batch, whatever the batch size. */
  lemma {:induction false} EachBatchAt<X, V>(f: seq<X> -> seq<V>, rows: seq<X>, size: nat, i: nat)
    requires size > 0 && i < |rows| && forall b :: |f(b)| == |b|
    ensures |Concat(EachBatch(f, Batches(rows, size)))| == |rows|
    ensures Concat(EachBatch(f, Batches(rows, size)))[i] == f(BatchOf(rows, size, i))[i % size]
    decreases |rows|
  {
    if |rows| <= size {
      OneBatch(f, rows, size);
      InFirstBatch(i, size);
      FirstBatch(rows, size, i);
    } else {
      EachBatchStep(f, rows, size);
      EachBatchAt(f, rows[size..], size, if i < size then 0 else i - size);
      if i < size {
        InFirstBatch(i, size);
        FirstBatch(rows, size, i);
      } else {
        OneBatchLater(i, size);
        LaterBatch(rows, size, i);
      }
    }
  }

  /** The columns the trainers add, and all others. */
  datatype ColumnName =
    ReferenceLogps | ReferenceKlLogps | RefChosenLogps | RefRejectedLogps | OtherColumn(name: string)

  datatype Column<V> = Column(name: ColumnName, values: seq<V>)

  ghost predicate HasColumn<V>(columns: seq<Column<V>>, name: ColumnName) {
    exists i :: 0 <= i < |columns| && columns[i].name == name
  }

  /** A name that is taken is an error. */
  method AddColumn<V>(columns: seq<Column<V>>, name: ColumnName, values: seq<V>) returns (r: Result<seq<Column<V>>>)
    ensures r.Failure? <==> HasColumn(columns, name)
    ensures r.Success? ==> r.value == columns + [Column(name, values)]
  {
    for i := 0 to |columns|
      invariant forall j :: 0 <= j < i ==> columns[j].name != name
    {
      if columns[i].name == name { return Failure(ValueError); }
    }
    return Success(columns + [Column(name, values)]);
  }

  lemma AppendKeepsOthers<V>(columns: seq<Column<V>>, last: Column<V>, name: ColumnName)
    requires last.name != name
    ensures HasColumn(columns + [last], name) <==> HasColumn(columns, name)
  {
    if HasColumn(columns, name) {
      var i :| 0 <= i < |columns| && columns[i].name == name;
      assert (columns + [last])[i].name == name;
    }
  }

  function CountColumn<V>(columns: seq<Column<V>>, name: ColumnName): nat {
    if columns == [] then 0 else (if columns[0].name == name then 1 else 0) + CountColumn(columns[1..], name)
  }

  lemma {:induction false} CountColumnAppend<V>(a: seq<Column<V>>, b: seq<Column<V>>, name: ColumnName)
    ensures CountColumn(a + b, name) == CountColumn(a, name) + CountColumn(b, name)
  {
    if a == [] {
      assert a + b == b;
    } else {
      assert (a + b)[1..] == a[1..] + b;
      CountColumnAppend(a[1..], b, name);
    }
  }

  lemma {:induction false} NoColumn<V>(columns: seq<Column<V>>, name: ColumnName)
    requires !HasColumn(columns, name)
    ensures CountColumn(columns, name) == 0
  {
    if columns != [] {
      assert forall i :: 0 <= i < |columns[1..]| ==> columns[1..][i] == columns[i + 1];
      NoColumn(columns[1..], name);
    }
  }

  /** The values of the first column of a name. */
  function Lookup<V>(columns: seq<Column<V>>, name: ColumnName): Option<seq<V>> {
    if columns == [] then None
    else if columns[0].name == name then Some(columns[0].values)
    else Lookup(columns[1..], name)
  }

  lemma {:induction false} LookupAppend<V>(columns: seq<Column<V>>, more: seq<Column<V>>, name: ColumnName)
    requires !HasColumn(columns, name)
    ensures Lookup(columns + more, name) == Lookup(more, name)
  {
    if columns == [] {
      assert columns + more == more;
    } else {
      assert columns[0].name != name;
      assert (columns + more)[1..] == columns[1..] + more;
      assert forall i :: 0 <= i < |columns[1..]| ==> columns[1..][i] == columns[i + 1];
      LookupAppend(columns[1..], more, name);
    }
  }
}
