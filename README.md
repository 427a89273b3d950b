# ConnectorX: the Arrow2 destination and two transport tables

ConnectorX moves the result of a database query into an in-memory columnar format. A
query is split into partitions. Each partition is read from the source database and
streamed, value by value and row by row, into a partition writer of the destination.
The writer appends each value to a column builder. Once it has collected a full record
batch, it finishes the builders into one batch and pushes it into a store shared by all
writers. A transport sits between source and destination and says, for every source
column type, which destination column type it becomes and how each value is converted.

This project models three pieces of that pipeline and proves properties about them:

- **The Arrow2 destination** (`destinations/arrow2/mod.rs`). It is written imperatively.
  - Module `Arrow2` has classes `Destination`, `PartitionWriter` and `BatchStore`. Their
    fields are the ones the source updates.
  - Module `Arrow2Spec` has the writer's state machine as pure functions
    (`ConsumeStep`, `FinalizeStep`, `Run`). The postconditions of `Consume` and
    `Finalize` tie the new fields to `ConsumeStep` and `FinalizeStep` applied to the old
    fields; the other methods state their new fields outright.
  - The lemmas about the functions describe what a whole partition produces.
  - Tags, values and the type check of the Arrow2 type system are generic: the check is
    a total function `check(tag, value)`. A builder is the sequence of values appended
    to it, and a batch is the Arrow schema plus one sequence per column.
- **The Postgres → Arrow transport** (`transports/postgres_arrow.rs`), in module
  `PostgresArrow`.
  - The table is a total function from the 30 Postgres tags to rows holding the source
    native type, the Arrow tag, the destination native type and the conversion policy.
  - The seven hand-written conversions are pure functions.
  - The library calls they make (`Decimal::to_f64`, `Uuid::to_string`,
    `serde_json::Value::to_string`) are the fields of a `Foreign` parameter and stay
    uninterpreted.
- **The Oracle → Arrow stream transport** (`transports/oracle_arrowstream.rs`), in module
  `OracleArrowStream`. It is the same kind of table over 14 Oracle tags.

Module `Transport` holds what the two tables share: the four policies `auto`, `owned`,
`option` and `none` (`Auto`, `Owned`, `Manual`, `Reuse`) and the row type. Module
`Natives` holds the Rust value types the transports carry, kept only by their identity.
Module `Wrappers` holds `Option`, `Result` and `Outcome`.

The batch size `RECORD_BATCH_SIZE` is the constant `Arrow2.RecordBatchSize` (64000).
The destination holds it as its `capacity` and passes it to each writer it spawns. The
spec functions and the writers take it as a positive parameter `capacity`.

## Model

| member | source | states |
|---|---|---|
| Arrow2.Destination.constructor | connectorx/src/destinations/arrow2/mod.rs:36-50 | empty schema, names and Arrow schema; a fresh empty store that no writer holds; the batch size is `RECORD_BATCH_SIZE` |
| Arrow2.Destination.Allocate | connectorx/src/destinations/arrow2/mod.rs:63-88 | every order other than RowMajor fails with `UnsupportedDataOrder(order)` and changes nothing; RowMajor stores the tags and names and sets the Arrow schema to their zipped fields |
| Arrow2.Destination.AdvertisedButRefused | connectorx/src/destinations/arrow2/mod.rs:54 | the advertised data orders include ColumnMajor, which `allocate` refuses |
| Arrow2Spec.Fields | connectorx/src/destinations/arrow2/mod.rs:79-87 | one field per (tag, name) pair in order, as many as the shorter list |
| Arrow2.Destination.Partition | connectorx/src/destinations/arrow2/mod.rs:90-101 | exactly `count` new, distinct writers; each has the schema, the Arrow schema, the destination's batch size, fresh builders, row and column 0, and the same store; the store's holders become the old ones plus exactly these writers |
| Arrow2.Destination.Arrow | connectorx/src/destinations/arrow2/mod.rs:109-114 | `PartitionsNotFreed` while any writer holds the store, otherwise all batches in push order; on both paths the destination is used up and cannot be drained again |
| Arrow2.BatchStore.constructor | connectorx/src/destinations/arrow2/mod.rs:41 | the shared store starts with no batches and no holder |
| Arrow2.BatchStore.Push | connectorx/src/destinations/arrow2/mod.rs:173-180 | one batch appended at the end, earlier batches untouched |
| Arrow2.BatchStore.Share | connectorx/src/destinations/arrow2/mod.rs:94-97 | a new holder is counted and named (`Arc::clone`) |
| Arrow2.BatchStore.Unshare | connectorx/src/destinations/arrow2/mod.rs:123-130 | a holder that gives its reference back is no longer counted or named; the others stay |
| Arrow2.PartitionWriter.Release | connectorx/src/destinations/arrow2/mod.rs:123-130 | dropping a writer removes exactly it from the holders |
| Arrow2.PartitionWriter.constructor | connectorx/src/destinations/arrow2/mod.rs:133-149 | the writer keeps the schema, store, Arrow schema and the given batch size, starts at row and column 0 with fresh builders, and holds the store |
| Arrow2.PartitionWriter.Allocate | connectorx/src/destinations/arrow2/mod.rs:151-159 | one empty builder per column |
| Arrow2.PartitionWriter.Flush | connectorx/src/destinations/arrow2/mod.rs:161-183 | exactly one batch of the old builders is appended against the shared Arrow schema; the builders are taken and row and column reset to 0 |
| Arrow2.PartitionWriter.NCols | connectorx/src/destinations/arrow2/mod.rs:190-192 | the number of tags |
| Arrow2.PartitionWriter.Finalize | connectorx/src/destinations/arrow2/mod.rs:194-199 | the new state and the pushed batches are those of `FinalizeStep` on the old state |
| Arrow2.PartitionWriter.AquireRow | connectorx/src/destinations/arrow2/mod.rs:201-204 | the current row, which is below the batch size |
| Arrow2.PartitionWriter.Consume | connectorx/src/destinations/arrow2/mod.rs:213-240 | the new state, the outcome and the pushed batches are those of `ConsumeStep` on the old state; the writer stays valid |
| Arrow2Spec.ConsumeStep | connectorx/src/destinations/arrow2/mod.rs:213-240 | the value goes to the column under the old cursor; the cursor becomes (col+1) mod ncols even when the call fails; a failed check gives `TypeCheckFailed` and absent builders `ArraysEmpty`, both with builders and row unchanged; the row advances only when the cursor wraps; a flush happens exactly when the last column of row capacity−1 is filled, pushes the appended builders and restarts fresh; row < capacity is kept |
| Arrow2Spec.FreshInv | connectorx/src/destinations/arrow2/mod.rs:139-148 | a fresh writer satisfies the between-calls invariant |
| Arrow2Spec.NextColumn | connectorx/src/destinations/arrow2/mod.rs:216 | the cursor update wraps to 0 after the last column and otherwise adds one |
| Arrow2Spec.EmptyBuilders | connectorx/src/destinations/arrow2/mod.rs:153-157 | a reference definition, not a property: the builders of a fresh writer, one empty sequence per tag |
| Arrow2Spec.Pushed | connectorx/src/destinations/arrow2/mod.rs:172-179 | a reference definition, not a property: what a step appends to the store, one batch against the shared schema or nothing |
| Arrow2Spec.FinalizeStep | connectorx/src/destinations/arrow2/mod.rs:194-199 | flushes if and only if builders are present; afterwards there are none; it never fails; with no builders the state is unchanged |
| Arrow2Spec.FinalizeTwice | connectorx/src/destinations/arrow2/mod.rs:194-199 | a second `finalize` pushes nothing and does not fail |
| Arrow2Spec.FinalizeAfterFlush | connectorx/src/destinations/arrow2/mod.rs:195-199 | right after an automatic flush, `finalize` pushes a batch of empty columns |
| Arrow2Spec.ConsumeAfterFinalize | connectorx/src/destinations/arrow2/mod.rs:219-230 | after `finalize` every `consume` fails, pushes nothing and leaves the builders absent |
| Arrow2Spec.Run | connectorx/src/destinations/arrow2/mod.rs:213-240 | consuming a sequence of values keeps the invariant and pushes at most one batch per value |
| Arrow2Spec.RunAppend | connectorx/src/destinations/arrow2/mod.rs:213-240 | consuming a + b is consuming a and, unless that failed, then b from the state a left, with the batches of both in order; a failure stops the run |
| Arrow2Spec.Column | connectorx/src/destinations/arrow2/mod.rs:221-227 | a reference definition, not a property: column j of the rows, one value per row in row order |
| Arrow2Spec.Columns | connectorx/src/destinations/arrow2/mod.rs:167-171 | a reference definition, not a property: the rows regrouped as one column per tag |
| Arrow2Spec.FullBatches | connectorx/src/destinations/arrow2/mod.rs:233-238 | each batch has one column per tag, each of `capacity` values |
| Arrow2Spec.Remainder | connectorx/src/destinations/arrow2/mod.rs:233-238 | the last rows, fewer than `capacity` |
| Arrow2Spec.PartitionRoundTrip | connectorx/src/destinations/arrow2/mod.rs:194-240 | well-typed whole rows fed to a fresh writer: no call fails, one batch per `capacity` rows holds those rows as columns, and `finalize` pushes the remaining rows (possibly none) |
| Arrow2Spec.BatchCount | connectorx/src/destinations/arrow2/mod.rs:233-238 | R rows give floor(R/C) full batches and R mod C rows for `finalize` |
| Arrow2Spec.BatchTotal | connectorx/src/destinations/arrow2/mod.rs:233-238 | the full batches and the remainder together hold exactly the R rows |
| Arrow2Spec.ColumnOrderPreserved | connectorx/src/destinations/arrow2/mod.rs:161-183 | per column, the batches of a partition concatenated in push order are exactly the column's values in consume order |
| Arrow2.OnePartition | connectorx/src/destinations/arrow2/mod.rs:63-114 | a caller that consumes one value into one partition, finalizes and drops the writer drains exactly one batch holding that value |
| Arrow2.EarlyDrain | connectorx/src/destinations/arrow2/mod.rs:109-114 | a caller that drains while its writer lives gets `PartitionsNotFreed` although one batch has been pushed |
| PostgresArrow.Mapping | connectorx/src/transports/postgres_arrow.rs:47-76 | the table itself: for each Postgres tag, in source order, its source native type, Arrow tag, destination native type and policy |
| PostgresArrow.EachTagOneRow | connectorx/src/transports/postgres_arrow.rs:47-76 | the table has 30 rows, each tag heads exactly one |
| PostgresArrow.AutoIsIdentity | connectorx/src/transports/postgres_arrow.rs:47-76 | every `auto` row has the same native type on both sides |
| PostgresArrow.DestinationIsBound | connectorx/src/transports/postgres_arrow.rs:47-76 | every row's destination native type is the one its Arrow tag binds to |
| PostgresArrow.DestinationBinding | connectorx/src/transports/postgres_arrow.rs:47-76 | rows with the same Arrow tag have the same destination native type |
| PostgresArrow.SourceNativeDecides | connectorx/src/transports/postgres_arrow.rs:47-76 | rows with the same source native type have the same destination native type |
| PostgresArrow.ReuseHasDefiner | connectorx/src/transports/postgres_arrow.rs:54-58 | every `none` row shares its native pair with another row that is not `none` (Text, JSON or VarcharArray) |
| PostgresArrow.ManualRowsAreHandWritten | connectorx/src/transports/postgres_arrow.rs:49-66 | every `option` row's pair has a hand-written impl, and no two `option` rows share a pair |
| PostgresArrow.HandWrittenAreManualRows | connectorx/src/transports/postgres_arrow.rs:91-141 | every hand-written impl is the pair of some `option` row |
| PostgresArrow.ImplsAreCoherent | connectorx/src/transports/postgres_arrow.rs:47-141 | no native pair gets two impls: generating rows never share a pair, never share one with a hand-written impl, and no impl is written twice |
| PostgresArrow.EveryRowHasImpl | connectorx/src/transports/postgres_arrow.rs:47-141 | every row's native pair has an impl, generated by a row or written by hand |
| PostgresArrow.ConvertTime | connectorx/src/transports/postgres_arrow.rs:91-95 | the wrapper holds the given time unchanged |
| PostgresArrow.ConvertTimestamp | connectorx/src/transports/postgres_arrow.rs:97-103 | the wrapper holds the given date-time unchanged |
| PostgresArrow.ConvertTimestampTz | connectorx/src/transports/postgres_arrow.rs:105-109 | the wrapper holds the given UTC date-time unchanged |
| PostgresArrow.ConvertUuid | connectorx/src/transports/postgres_arrow.rs:111-115 | the library's text for the UUID; nothing more is stated about it |
| PostgresArrow.ConvertDecimal | connectorx/src/transports/postgres_arrow.rs:117-122 | the library's `f64` for the decimal; requires that there is one, since the impl panics otherwise |
| PostgresArrow.ConvertJson | connectorx/src/transports/postgres_arrow.rs:124-128 | the library's text for the JSON value; nothing more is stated about it |
| PostgresArrow.ConvertNumericArray | connectorx/src/transports/postgres_arrow.rs:130-141 | same length, `None` exactly where the input has `None`, and each present element is the library's `f64` for it |
| PostgresArrow.Impl | connectorx/src/transports/postgres_arrow.rs:91-141 | the impl for the value's native type: the identity for an `auto` pair, an owned copy for `&str`, and otherwise the hand-written conversion of that type |
| PostgresArrow.Convert | connectorx/src/transports/postgres_arrow.rs:47-141 | a converted value has its row's destination native type; an `auto` row passes the value unchanged and an `owned` row an owned copy of the same text |
| PostgresArrow.ReuseConvertsLikeDefiner | connectorx/src/transports/postgres_arrow.rs:54-70 | rows with the same native pair convert every value the same way; this holds by construction because the conversion never reads the tag, and the substance is in `SourceNativeDecides` |
| OracleArrowStream.Mapping | connectorx/src/transports/oracle_arrowstream.rs:32-45 | the table itself: for each Oracle tag, in source order, its source native type, Arrow tag, destination native type and policy |
| OracleArrowStream.EachTagOneRow | connectorx/src/transports/oracle_arrowstream.rs:32-45 | the table has 14 rows, each tag heads exactly one |
| OracleArrowStream.EveryRowIsIdentity | connectorx/src/transports/oracle_arrowstream.rs:32-45 | every row is `auto` or `none` and has the same native type on both sides |
| OracleArrowStream.Definer | connectorx/src/transports/oracle_arrowstream.rs:32-45 | the `auto` row with a row's native pair; an `auto` row is its own |
| OracleArrowStream.ReuseHasDefiner | connectorx/src/transports/oracle_arrowstream.rs:32-44 | every `none` row shares its native pair with a different `auto` row, wherever that row sits in the table |
| OracleArrowStream.OneImplPerPair | connectorx/src/transports/oracle_arrowstream.rs:32-45 | two `auto` rows with the same native pair are the same row |
| OracleArrowStream.DestinationIsBound | connectorx/src/transports/oracle_arrowstream.rs:32-45 | every row's destination native type is the one its Arrow tag binds to |
| OracleArrowStream.DestinationBinding | connectorx/src/transports/oracle_arrowstream.rs:32-45 | rows with the same Arrow tag have the same destination native type |
| OracleArrowStream.TypeFamilies | connectorx/src/transports/oracle_arrowstream.rs:32-42 | a tag maps to LargeUtf8 if and only if it is a character type, and to Float64 if and only if it is a floating-point type |

## Behaviour worth noting

- `finalize` flushes whenever builders are present, even with zero rows pending
  (`arrow2/mod.rs:195-199`). That is the case, for example, right after an automatic
  flush, which reallocates the builders (`arrow2/mod.rs:236-237`). The finalize then
  pushes a batch of empty columns: see `FinalizeAfterFlush`, and `PartitionRoundTrip`,
  whose final batch may be empty.
- `consume` moves the cursor to the next column before it type-checks the value
  (`arrow2/mod.rs:215-217`), so a call that fails the check still advances the cursor:
  see `ConsumeStep`.
- `arrow()` takes the destination by value (`arrow2/mod.rs:110`), so a call made while
  a writer is still alive fails and also uses the destination up. Every batch pushed so
  far then stays only in the writers' references and is lost with the last of them: see
  `EarlyDrain`.

## Left out

- Locking, mutex poisoning and parallel partitions. The store is one sequential object.
  Its holder count stands in for the `Arc` strong count less the destination's own
  reference, and `Release` stands for dropping a writer.
- The arrow2 library: `MutableArray`, the `downcast_mut` of a builder (its failure is
  not modelled), `RecordBatch::try_new` and its failures, and `Schema`. Builders are
  sequences of values and batches are their columns.
- The failures of `Realize` for `FNewField`, `FNewBuilder` and `FFinishBuilder`. These
  modules are not part of this model, so allocating, finishing and building fields
  never fail in it.
- `Arrow2Spec.ConsumeStep`, `Arrow2.PartitionWriter.Consume`: both require at least one
  column. With none, the source's `% self.ncols()` divides by zero and panics.
- `Arrow2.PartitionWriter.Flush`: requires builders to be present; the source panics
  when they are not. `Finalize` and `Consume` only flush with builders present.
- `Arrow2.Destination.Arrow`: the move of the destination is modelled as the ghost flag
  `drained`, which forbids a second call. The model does not free the destination or
  its store.
- `polars()` (`arrow2/mod.rs:116-120`), which hands the batches to a foreign library.
- `schema()` and `needs_count()` (`arrow2/mod.rs:59-61, 103-105`), which only read a
  field or return a constant.
- `PostgresArrow.ConvertUuid`, `PostgresArrow.ConvertJson`: the text is whatever the
  libraries' `to_string` gives; the model states nothing more about it.
- `PostgresArrow.ConvertDecimal`, `PostgresArrow.ConvertNumericArray`: the numerics of
  `Decimal::to_f64` are not modelled. The panic it can lead to is a precondition.
- The `impl_transport!` macro is not part of this model. The meaning of the four
  policies and the dispatch by the value's type are modelled as the tables rely on them.
- The eight protocol and TLS instantiations (`postgres_arrow.rs:82-89`), which are
  copies of one table, and the error enums of the transports.
- The binding of Arrow tags to native types comes from the Arrow type systems, which
  are not part of this model; `ArrowNative` is the binding these tables use.
- Wire decoding in the Postgres and Oracle sources.
- `SECONDS_IN_DAY` and `DB_BUFFER_SIZE` (`constants.rs`), which the core does not use.
