# Block-position bookkeeping and the transfer updater of demux-ts, in Dafny

demux-ts watches a blockchain's action stream and keeps a record of the latest
token transfer. Fetching blocks, fork detection, dispatch by action type and
replay all happen in an external action-processing framework. This project
models the application's own logic around that framework:

- **The object action handler** (`src/ObjectActionHandler.ts`), module
  `ActionHandler`. The class `ObjectActionHandler` holds the state record, a
  table `hashHistory` from block number to block hash, and the last processed
  block position. `HandleBlock` records the hash of every incoming block.
  `RollbackTo` restores the position from the table. `UpdateIndexState`
  overwrites the index position and reports whether the configured STOP_AT
  block has been reached. A fresh handler's table holds exactly block 0 with
  the empty hash. The lemmas follow a whole sequence of received blocks:
  - the table keeps the hash of the last block received with each number;
  - it is never pruned;
  - a rollback restores exactly that hash.
- **The v1 transfer updater** (`src/handlerVersions/v1/index.ts`), modules
  `TokenString` and `HandlerV1`.
  - `ParseTokenString` splits the quantity (`"<amount> <symbol>"`) on single
    spaces, as JavaScript's `split(" ")` does. `Split` is proved to lose
    nothing (`JoinSplit`), and `SplitJoin` proves the converse.
  - `UpdateTransferData` overwrites the state record field by field. It builds
    the document for the transfer collection, and leaves a value copy of the
    state in the per-block context.
  - The `updaters`, `effects` and `handlerVersion` tables register one
    updater and one effect for `<account>::transfer` under version "v1".
- **The state record** (`src/types/types.d.ts`), module `Types`: class
  `TransferState` with the record's fields. Its embedded index position is the
  datatype `IndexState`.

The code writes JavaScript's `undefined` in two places, and the model keeps
both as `Option` values:
- A rollback to a block number that was never recorded reads
  `hashHistory[n]`, which is `undefined`, and stores it as the block hash.
  It is sometimes described as falling back to the empty string, but the code
  has no such fallback. The model follows the code: the hash is `None`. Only
  block 0 is pre-seeded with the empty string.
- A quantity without a space leaves the symbol `undefined`. In the model it is
  `None`.

Inputs from outside the code become parameters:
- the STOP_AT setting, as `ParsedInt`, which is `NaN` or an integer;
- the contract account name;
- whether the document store accepts an insert (`storeAccepts`).

`process.exit` becomes the flag that `UpdateIndexState` returns.

## Model

| member | source | states |
|---|---|---|
| `TokenString.Split` | src/handlerVersions/v1/index.ts:40 | the split always has at least one segment; no segment contains a space; a string without a space is its own only segment, and one with a space has at least two |
| `TokenString.JoinSplit` | src/handlerVersions/v1/index.ts:40 | splitting on single spaces loses nothing: joining the segments with one space gives the original string |
| `TokenString.SplitJoin` | src/handlerVersions/v1/index.ts:40 | the converse round trip: space-free segments joined and split again come back unchanged |
| `TokenString.ParseTokenString` | src/handlerVersions/v1/index.ts:37-43 | the symbol is absent exactly when the quantity has no space; then the amount is the parse of the whole quantity |
| `TokenString.ParseTokenStringOf` | src/handlerVersions/v1/index.ts:37-43 | for `amount + " " + symbol + tail`, where the tail is empty or starts with a space, the amount is the parse of the text before the first space and the symbol is the segment after it, untrimmed and unvalidated |
| `TokenString.ParseExamples` | src/handlerVersions/v1/index.ts:37-43 | "12.50 EOS" gives the parse of "12.50" and "EOS"; "abc EOS" gives the parse of "abc" (NaN in the source) and "EOS"; "12.50" gives no symbol |
| `HandlerV1.ApplyTransfer` | src/handlerVersions/v1/index.ts:51-60 | from, to and memo come from the payload data, trx_id from the transaction id, amount and symbol from the parse of the quantity; the index block number and hash come from the block; the replay flag and version name are kept |
| `HandlerV1.ApplyTransferOverwrites` | src/handlerVersions/v1/index.ts:53-60 | the state is overwritten, not accumulated: the result depends on the old state only through its replay flag and version name |
| `HandlerV1.ApplyTransferIdempotent` | src/handlerVersions/v1/index.ts:53-60 | applying the same action twice gives the same state as applying it once |
| `HandlerV1.RecordMirrorsState` | src/handlerVersions/v1/index.ts:62-72 | the stored document holds exactly the state's transfer fields, block number, block hash and version name: with the replay flag added back it gives the state again, and the replay flag is the only part it omits |
| `HandlerV1.UpdateTransferData` | src/handlerVersions/v1/index.ts:45-81 | the new state is `ApplyTransfer` of the old; the store receives the document built from the new state, and stores it only if it accepts the insert; the new state does not depend on that answer; `context.stateCopy` is a value copy of the new state |
| `HandlerV1.HandlerVersionV1Tables` | src/handlerVersions/v1/index.ts:83-108 | the version is named "v1"; it has one updater and one effect, both registered for `<account>::transfer` and for no other action type; they run the transfer updater and the logging effect |
| `ActionHandler.ExitsAt` | src/ObjectActionHandler.ts:121-123 | the process exits exactly when STOP_AT is a nonzero number and the block number is at or past it |
| `ActionHandler.ExitsAtMonotone` | src/ObjectActionHandler.ts:12-18 | once a block number triggers the stop, every larger block number does too |
| `ActionHandler.NeverExitsWhenFalsy` | src/ObjectActionHandler.ts:10-14 | an unset or non-numeric STOP_AT, or a STOP_AT of 0, never stops the process |
| `ActionHandler.InitialHistory` | src/ObjectActionHandler.ts:43 | the fresh table has exactly one entry: block 0 with the empty hash |
| `ActionHandler.Lookup` | src/ObjectActionHandler.ts:60 | reading the table gives the recorded hash, or absent (`undefined`) exactly when the block number was never recorded |
| `ActionHandler.RecordLookup` | src/ObjectActionHandler.ts:101-102 | after recording block (n, h) the table gives h for n, overwriting an earlier entry; every other block number reads as before |
| `ActionHandler.RecordAllUntouched` | src/ObjectActionHandler.ts:101-102 | over a sequence of received blocks, the entry for a number that none of them carries is unchanged |
| `ActionHandler.RecordAllLatest` | src/ObjectActionHandler.ts:101-102 | over a sequence of received blocks, the table holds for each number the hash of the last block received with it |
| `ActionHandler.RecordAllKeys` | src/ObjectActionHandler.ts:101-102 | the table is never pruned: its keys become the old keys plus the numbers of all blocks received |
| `ActionHandler.RollbackFresh` | src/ObjectActionHandler.ts:58-66 | on a fresh handler, rolling back to block 0 leaves the index position as it was; rolling back to any other block sets that number with an absent hash |
| `ActionHandler.RollbackToReceived` | src/ObjectActionHandler.ts:58-66 | after a sequence of blocks, rolling back to a received block number restores the hash of the last block received with that number, and keeps the replay flag and version name |
| `ActionHandler.RollbackAfterUpdate` | src/ObjectActionHandler.ts:113-120 | rolling back to the block just received and indexed leaves the index position as `updateIndexState` wrote it |
| `ActionHandler.ObjectActionHandler.constructor` | src/ObjectActionHandler.ts:28-43 | a fresh handler has empty from, to, symbol, memo and trx_id, amount 0, and index position (0, "", not replay, "v1"); its table is exactly {0: ""} |
| `ActionHandler.ObjectActionHandler.HandleBlock` | src/ObjectActionHandler.ts:97-104 | the table afterwards is the old table with the block's number mapped to its hash; nothing else changes |
| `ActionHandler.ObjectActionHandler.SetLastProcessedBlockHash` | src/ObjectActionHandler.ts:68-70 | sets the last processed hash and nothing else |
| `ActionHandler.ObjectActionHandler.SetLastProcessedBlockNumber` | src/ObjectActionHandler.ts:72-74 | sets the last processed number and nothing else |
| `ActionHandler.ObjectActionHandler.RollbackTo` | src/ObjectActionHandler.ts:58-66 | the last processed number and the index block number become n, and both hashes become the table's entry for n, which may be absent; the replay flag, the version name, the table and every transfer field are unchanged |
| `ActionHandler.ObjectActionHandler.LoadIndexState` | src/ObjectActionHandler.ts:93-95 | returns the state's current index position |
| `ActionHandler.ObjectActionHandler.UpdateIndexState` | src/ObjectActionHandler.ts:106-124 | replaces all four index fields with the block's number and hash and the given replay flag and version name; every transfer field is unchanged; reports a process exit exactly as `ExitsAt` decides |

## Left out

- The external framework's side of the handler is not modelled. This covers
  `super.handleBlock`, `applyUpdaters`, `runEffects` and the forwarding
  wrappers `_applyUpdaters`, `_runEffects`, `handleWithState` and
  `_handlerVersionName`. It also covers the empty `setup`. Their behaviour
  lives in the framework's base class, whose code is not part of this model.
- The initial values of `lastProcessedBlockNumber` and `lastProcessedBlockHash`
  come from that base class. The constructor sets them, but its contract
  promises nothing about them.
- Float parsing is not modelled. `parseFloat` is represented symbolically by
  `ParseFloatOf(text)`, including its NaN result on malformed input. So
  `ParseFloatOf("0")` and the initial amount `Zero` are distinct values in the
  model, although both are the number 0 in the source.
- `JSON.stringify` turns a NaN amount into `null`, so in the source
  `context.stateCopy` can differ from the state in the amount field. The model
  does not capture this: its copy is an exact value copy.
- The logging effect `logUpdate` and every console output are I/O.
  `logUpdate` appears only as its entry in the effects table.
- `process.exit` is represented by the flag that `UpdateIndexState` returns.
- The document store is reduced to its answer to one insert (`storeAccepts`).
  The transfer schema and its indexes are not part of this model. That
  includes the uniqueness of trx_id, which the database enforces.
- The save is fire-and-forget, with async/await and Promise ordering. These
  are not modelled: each operation runs to completion in one step.
- In the source the index position is an object, and `loadIndexState` returns
  a reference to it. `updateTransferData` then mutates that object in place,
  which is visible through the reference. The model holds the index position
  as a value, so this aliasing is not captured.
- Configuration and wiring are not part of this model. This covers
  environment loading, the action reader and the polling watcher
  (`src/index.ts`). Each setting the core reads is a parameter instead.
- Block numbers are unbounded integers. JavaScript's number precision, and its
  conversion of table keys to strings, are not modelled.
