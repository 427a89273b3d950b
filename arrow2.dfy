/** The Arrow2 destination and its partition writers
    (connectorx/src/destinations/arrow2/mod.rs) as objects whose fields the methods update.
    `Consume` and `Finalize` state their new fields as `ConsumeStep` and `FinalizeStep` of
    module Arrow2Spec applied to the old fields; the other methods state their new fields
    outright. Tags are of type T, the values a writer consumes of type V,
    and the type check of the Arrow2 type system is the total function `check`. */
module Arrow2 {
  import opened Wrappers
  import opened Arrow2Spec

  /** The orders the destination advertises; `Allocate` nevertheless accepts only RowMajor. */
  const DataOrders: seq<DataOrder> := [ColumnMajor, RowMajor]

  /** `RECORD_BATCH_SIZE`: the rows a writer collects before it flushes a batch. */
  const RecordBatchSize: nat := 64000

  /** The batch store the destination shares with its writers (an `Arc<Mutex<Vec<_>>>`).
      `holders` counts the writers that still hold a reference, that is, the strong count
      less the destination's own; `owners` names them. */
  class BatchStore<T, V> {
    var batches: seq<Batch<T, V>>
    var holders: nat
    ghost var owners: set<object>

    ghost predicate Valid()
      reads this
    {
      holders == |owners|
    }

    constructor ()
      ensures Valid() && batches == [] && holders == 0 && owners == {}
    {
      batches, holders, owners := [], 0, {};
    }

    /** Appends one batch under the lock. */
    method Push(b: Batch<T, V>)
      modifies this`batches
      ensures batches == old(batches) + [b]
    {
      batches := batches + [b];
    }

    /** A new writer takes a reference (`Arc::clone`). */
    method Share(owner: object)
      requires Valid() && owner !in owners
      modifies this`holders, this`owners
      ensures Valid() && holders == old(holders) + 1 && owners == old(owners) + {owner}
    {
      holders, owners := holders + 1, owners + {owner};
    }

    /** A writer is dropped and gives its reference back. */
    method Unshare(owner: object)
      requires Valid() && owner in owners
      modifies this`holders, this`owners
      ensures Valid() && holders == old(holders) - 1 && owners == old(owners) - {owner}
    {
      holders, owners := holders - 1, owners - {owner};
    }
  }

  /** One partition writer (`ArrowPartitionWriter`). */
  class PartitionWriter<T, V> {
    const schema: seq<T>
    const arrowSchema: seq<Field<T>>
    const store: BatchStore<T, V>
    const capacity: nat
    const check: (T, V) -> bool
    var builders: Option<seq<seq<V>>>
    var currentRow: nat
    var currentCol: nat

    function Snapshot(): State<V>
      reads this
    {
      State(builders, currentRow, currentCol)
    }

    /** The writer still holds the store, and the batch size is positive. */
    ghost predicate Attached()
      reads this, store
    {
      store.Valid() && this in store.owners && capacity > 0
    }

    ghost predicate Valid()
      reads this, store
    {
      Attached() && Inv(Snapshot(), |schema|, capacity)
    }

    /** `ArrowPartitionWriter::new`: takes a reference to the store and allocates builders. */
    constructor (schema: seq<T>, store: BatchStore<T, V>, arrowSchema: seq<Field<T>>,
                 capacity: nat, check: (T, V) -> bool)
      requires store.Valid() && capacity > 0
      modifies store`holders, store`owners
      ensures Valid()
      ensures this.schema == schema && this.store == store && this.arrowSchema == arrowSchema
      ensures this.capacity == capacity && this.check == check
      ensures Snapshot() == Fresh(|schema|)
      ensures store.holders == old(store.holders) + 1 && store.owners == old(store.owners) + {this}
    {
      this.schema, this.store, this.arrowSchema := schema, store, arrowSchema;
      this.capacity, this.check := capacity, check;
      builders, currentRow, currentCol := None, 0, 0;
      new;
      store.Share(this);
      Allocate();
    }

    /** The number of columns. */
    function NCols(): nat
    {
      |schema|
    }

    /** Replaces the builders by fresh, empty ones. */
    method Allocate()
      modifies this`builders
      ensures builders == Some(EmptyBuilders(|schema|))
    {
      builders := Some(EmptyBuilders(|schema|));
    }

    /** Takes the builders, finishes them into one batch and appends it to the store, then
        resets the cursor and the row counter. Flushing without builders panics. */
    method Flush()
      requires Attached() && builders.Some?
      modifies this`builders, this`currentRow, this`currentCol, store`batches
      ensures Attached()
      ensures store.batches == old(store.batches) + [Batch(arrowSchema, old(builders.value))]
      ensures Snapshot() == State(None, 0, 0)
    {
      var columns := builders.value;
      builders := None;
      store.Push(Batch(arrowSchema, columns));
      currentRow, currentCol := 0, 0;
    }

    /** `finalize`: flushes if builders are present. */
    method Finalize()
      requires Valid()
      modifies this`builders, this`currentRow, this`currentCol, store`batches
      ensures Valid()
      ensures var r := FinalizeStep(old(Snapshot()));
              Snapshot() == r.state && store.batches == old(store.batches) + Pushed(arrowSchema, r.flushed)
    {
      if builders.Some? {
        Flush();
      }
    }

    /** `aquire_row` (so spelled in the source): the row the next values go to. */
    method AquireRow(n: nat) returns (row: nat)
      requires Valid()
      ensures row == currentRow && row < capacity
    {
      row := currentRow;
    }

    /** `consume`: appends one value to the column under the cursor. */
    method Consume(value: V) returns (o: Outcome<Error>)
      requires Valid() && |schema| > 0
      modifies this`builders, this`currentRow, this`currentCol, store`batches
      ensures Valid()
      ensures var r := ConsumeStep(schema, check, capacity, old(Snapshot()), value);
              Snapshot() == r.state && o == r.outcome &&
              store.batches == old(store.batches) + Pushed(arrowSchema, r.flushed)
    {
      var col := currentCol;
      currentCol := (currentCol + 1) % NCols();
      if !check(schema[col], value) {
        return Fail(TypeCheckFailed);
      }
      match builders {
        case None =>
          return Fail(ArraysEmpty);
        case Some(b) =>
          builders := Some(b[col := b[col] + [value]]);
      }
      if currentCol == 0 {
        currentRow := currentRow + 1;
        if currentRow >= capacity {
          Flush();
          Allocate();
        }
      }
      return Pass;
    }

    /** Dropping the writer gives its reference to the store back. */
    method Release()
      requires Attached()
      modifies store`holders, store`owners
      ensures store.Valid() && this !in store.owners
      ensures store.holders == old(store.holders) - 1 && store.owners == old(store.owners) - {this}
    {
      store.Unshare(this);
    }
  }

  /** `Arrow2Destination`: the schema, the column names, the Arrow schema and the store,
      with the batch size its writers use. */
  class Destination<T, V> {
    var schema: seq<T>
    var names: seq<string>
    var arrowSchema: seq<Field<T>>
    const store: BatchStore<T, V>
    const capacity: nat
    const check: (T, V) -> bool
    /** `arrow()` takes the destination by value: once it has been called, whatever its
        result, the destination is gone. */
    ghost var drained: bool

    ghost predicate Valid()
      reads this, store
    {
      store.Valid() && capacity > 0 && !drained
    }

    /** `Arrow2Destination::new`: empty schema and names, an empty store. */
    constructor (check: (T, V) -> bool)
      ensures Valid() && fresh(store)
      ensures schema == [] && names == [] && arrowSchema == []
      ensures store.batches == [] && store.holders == 0
      ensures capacity == RecordBatchSize && this.check == check
    {
      schema, names, arrowSchema := [], [], [];
      store := new BatchStore();
      capacity, this.check := RecordBatchSize, check;
      drained := false;
    }

    /** `allocate`: only the row-major order is supported; on success the tags and names
        are stored and the Arrow schema has one field per (tag, name) pair. The row count
        is not used. */
    method Allocate(nrows: nat, names: seq<string>, schema: seq<T>, order: DataOrder)
      returns (o: Outcome<Error>)
      modifies this`schema, this`names, this`arrowSchema
      ensures order != RowMajor ==> o == Fail(UnsupportedDataOrder(order)) && unchanged(this)
      ensures order == RowMajor ==>
                o == Pass && this.schema == schema && this.names == names &&
                arrowSchema == Fields(schema, names)
    {
      if order != RowMajor {
        return Fail(UnsupportedDataOrder(order));
      }
      this.schema := schema;
      this.names := names;
      arrowSchema := Fields(schema, names);
      return Pass;
    }

    /** The destination advertises ColumnMajor, an order `allocate` refuses. */
    static lemma AdvertisedButRefused()
      ensures ColumnMajor in DataOrders && ColumnMajor != RowMajor
    {
    }

    /** w was made by `partition`: it has this destination's schema, Arrow schema, store
        batch size and check, and fresh builders at row and column 0. */
    ghost predicate Spawned(w: PartitionWriter<T, V>)
      reads this, w
    {
      w.Snapshot() == Fresh(|schema|) && w.schema == schema && w.arrowSchema == arrowSchema &&
      w.store == store && w.capacity == capacity && w.check == check
    }

    /** `partition(n)`: n fresh writers, each with the schema and its own builders, all
        holding the same store. */
    method Partition(count: nat) returns (ws: seq<PartitionWriter<T, V>>)
      requires Valid()
      modifies store`holders, store`owners
      ensures Valid() && |ws| == count
      ensures forall i :: 0 <= i < count ==> fresh(ws[i]) && Spawned(ws[i]) && ws[i].Valid()
      ensures forall i, j :: 0 <= i < j < count ==> ws[i] != ws[j]
      ensures store.holders == old(store.holders) + count
      ensures store.owners == old(store.owners) + set i | 0 <= i < count :: ws[i]
    {
      ws := [];
      for k := 0 to count
        invariant Valid() && |ws| == k
        invariant forall i :: 0 <= i < k ==> fresh(ws[i]) && Spawned(ws[i])
        invariant forall i, j :: 0 <= i < j < k ==> ws[i] != ws[j]
        invariant store.holders == old(store.holders) + k
        invariant old(store.owners) <= store.owners
        invariant forall i :: 0 <= i < k ==> ws[i] in store.owners
        invariant forall o :: o in store.owners ==> o in old(store.owners) || o in ws
      {
        var w := new PartitionWriter(schema, store, arrowSchema, capacity, check);
        ws := ws + [w];
      }
      FreshInv<V>(|schema|, capacity);
      OwnersGrow(old(store.owners), store.owners, ws);
    }

    /** `arrow()`: the batches in push order, provided no writer still holds the store.
        It uses up the destination on both paths. */
    method Arrow() returns (r: Result<seq<Batch<T, V>>, Error>)
      requires !drained
      modifies this`drained
      ensures drained
      ensures store.holders > 0 ==> r == Err(PartitionsNotFreed)
      ensures store.holders == 0 ==> r == Ok(store.batches)
    {
      drained := true;
      if store.holders > 0 {
        return Err(PartitionsNotFreed);
      }
      return Ok(store.batches);
    }
  }

  /** A set that keeps the old one, holds each element of xs and nothing else is the old
      one plus the elements of xs. */
  lemma OwnersGrow(before: set<object>, after: set<object>, xs: seq<object>)
    requires before <= after
    requires forall i :: 0 <= i < |xs| ==> xs[i] in after
    requires forall o :: o in after ==> o in before || o in xs
    ensures after == before + set i | 0 <= i < |xs| :: xs[i]
  {
  }

  /** A caller with one column and one partition: it consumes one value, finalizes, drops
      the writer and then drains the destination. */
  method OnePartition<T, V>(check: (T, V) -> bool, tag: T, v: V)
    returns (r: Result<seq<Batch<T, V>>, Error>)
    requires check(tag, v)
    ensures r == Ok([Batch([Field("c", tag)], [[v]])])
  {
    var d := new Destination(check);
    var o := d.Allocate(1, ["c"], [tag], RowMajor);
    assert d.arrowSchema == [Field("c", tag)];
    var ws := d.Partition(1);
    var w := ws[0];
    assert w.Snapshot() == Fresh(1) && w.schema == [tag];
    ghost var e := EmptyBuilders<V>(1);
    assert e[0] + [v] == [v];
    assert e[0 := e[0] + [v]] == [[v]];
    var c := w.Consume(v);
    assert w.builders == Some([[v]]) && d.store.batches == [];
    w.Finalize();
    assert d.store.batches == [Batch([Field("c", tag)], [[v]])];
    w.Release();
    r := d.Arrow();
  }

  /** A caller that drains while its writer is still alive: the drain fails although a
      batch has been pushed, and the destination is used up, so that batch is lost. */
  method EarlyDrain<T, V>(check: (T, V) -> bool, tag: T)
    returns (pushed: nat, r: Result<seq<Batch<T, V>>, Error>)
    ensures pushed == 1 && r == Err(PartitionsNotFreed)
  {
    var d := new Destination(check);
    var o := d.Allocate(1, ["c"], [tag], RowMajor);
    var ws := d.Partition(1);
    var w := ws[0];
    w.Finalize();
    pushed := |d.store.batches|;
    r := d.Arrow();
  }
}
