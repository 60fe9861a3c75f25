/**
 * The record shape shared by the handler and the transfer updater: the
 * `transferState` interface (src/types/types.d.ts), its embedded index
 * position, and the block information the framework hands to both.
 */
module Types {
  import opened Wrappers

  /**
   * The transfer amount. The source parses it with `parseFloat`; floating
   * point is not modelled, so an amount is either the literal `0` the handler
   * starts with or the (uninterpreted) result of parsing a given text.
   */
  datatype Amount = Zero | ParseFloatOf(text: string)

  /**
   * The index position: how far processing has advanced. `blockHash` is
   * `None` when the source has stored `undefined` in it (a rollback to a block
   * number that was never recorded).
   */
  datatype IndexState = IndexState(
    blockNumber: int,
    blockHash: Option<string>,
    isReplay: bool,
    handlerVersionName: string)

  /** The block position a block carries (`blockInfo` in the framework). */
  datatype BlockInfo = BlockInfo(blockNumber: int, blockHash: string)

  /**
   * A value copy of the whole state record, as a deep copy of the mutable
   * object would hold it. `symbol` is `None` when the source has stored
   * `undefined` in it (a quantity string without a space).
   */
  datatype TransferSnapshot = TransferSnapshot(
    from: string,
    to: string,
    amount: Amount,
    symbol: Option<string>,
    memo: string,
    trxId: string,
    indexState: IndexState)

  /** The mutable state record: updated field by field in place. */
  class TransferState {
    var from: string
    var to: string
    var amount: Amount
    var symbol: Option<string>
    var memo: string
    var trxId: string
    var indexState: IndexState

    /** The current contents of every field, as a value. */
    function Value(): TransferSnapshot
      reads this
    {
      TransferSnapshot(from, to, amount, symbol, memo, trxId, indexState)
    }

    constructor (v: TransferSnapshot)
      ensures Value() == v
    {
      from, to, amount, symbol := v.from, v.to, v.amount, v.symbol;
      memo, trxId, indexState := v.memo, v.trxId, v.indexState;
    }
  }
}
