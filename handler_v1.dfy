/**
 * Handler version "v1": the transfer updater that overwrites the state
 * record from a transfer action, builds the document handed to the transfer
 * collection and leaves a deep copy of the state in the per-block context,
 * and the tables that register it (and its logging effect) for the
 * contract's `transfer` action.
 */
module HandlerV1 {
  import opened Wrappers
  import opened Types
  import opened TokenString

  /** The `data` of a transfer action: the fields the updater reads. */
  datatype TransferData = TransferData(from: string, to: string, quantity: string, memo: string)

  /** An action payload: its data and the id of its transaction. */
  datatype Payload = Payload(data: TransferData, transactionId: string)

  /**
   * The document handed to the transfer collection: the state's transfer
   * fields and its block number, block hash and handler version name (but
   * not its replay flag).
   */
  datatype TransferRecord = TransferRecord(
    from: string,
    to: string,
    amount: Amount,
    symbol: Option<string>,
    memo: string,
    trxId: string,
    blockNumber: int,
    blockHash: Option<string>,
    handlerVersionName: string)

  /** The per-block scratch object shared between updaters and effects. */
  class Context {
    var stateCopy: Option<TransferSnapshot>

    constructor ()
      ensures stateCopy == None
    {
      stateCopy := None;
    }
  }

  /**
   * The state after a transfer action: every transfer field is overwritten
   * from the payload, the index position moves to the block, and only the
   * replay flag and version name are kept from before.
   */
  function ApplyTransfer(s: TransferSnapshot, payload: Payload, block: BlockInfo): (r: TransferSnapshot)
    ensures r.from == payload.data.from && r.to == payload.data.to && r.memo == payload.data.memo
    ensures r.trxId == payload.transactionId
    ensures ParseTokenString(payload.data.quantity) == TokenString.TokenParse(r.amount, r.symbol)
    ensures r.indexState.blockNumber == block.blockNumber
    ensures r.indexState.blockHash == Some(block.blockHash)
    ensures r.indexState.isReplay == s.indexState.isReplay
    ensures r.indexState.handlerVersionName == s.indexState.handlerVersionName
  {
    var parsed := ParseTokenString(payload.data.quantity);
    TransferSnapshot(
      payload.data.from, payload.data.to, parsed.amount, parsed.symbol,
      payload.data.memo, payload.transactionId,
      s.indexState.(blockNumber := block.blockNumber, blockHash := Some(block.blockHash)))
  }

  /**
   * The state is overwritten, not accumulated: two states that agree on the
   * replay flag and version name end up equal after the same action.
   */
  lemma ApplyTransferOverwrites(s1: TransferSnapshot, s2: TransferSnapshot, payload: Payload, block: BlockInfo)
    requires s1.indexState.isReplay == s2.indexState.isReplay
    requires s1.indexState.handlerVersionName == s2.indexState.handlerVersionName
    ensures ApplyTransfer(s1, payload, block) == ApplyTransfer(s2, payload, block)
  {
  }

  /** Applying the same action twice is the same as applying it once. */
  lemma ApplyTransferIdempotent(s: TransferSnapshot, payload: Payload, block: BlockInfo)
    ensures ApplyTransfer(ApplyTransfer(s, payload, block), payload, block) == ApplyTransfer(s, payload, block)
  {
  }

  /** The document the updater builds from a state. */
  function RecordOf(s: TransferSnapshot): TransferRecord
  {
    TransferRecord(s.from, s.to, s.amount, s.symbol, s.memo, s.trxId,
      s.indexState.blockNumber, s.indexState.blockHash, s.indexState.handlerVersionName)
  }

  /** The state a document describes, given the replay flag it leaves out. */
  function SnapshotOf(r: TransferRecord, isReplay: bool): TransferSnapshot
  {
    TransferSnapshot(r.from, r.to, r.amount, r.symbol, r.memo, r.trxId,
      IndexState(r.blockNumber, r.blockHash, isReplay, r.handlerVersionName))
  }

  /**
   * The document mirrors the state exactly: with the replay flag put back,
   * it gives the whole state again, so it holds every other field.
   */
  lemma RecordMirrorsState(s: TransferSnapshot)
    ensures SnapshotOf(RecordOf(s), s.indexState.isReplay) == s
    ensures RecordOf(SnapshotOf(RecordOf(s), !s.indexState.isReplay)) == RecordOf(s)
  {
  }

  /**
   * The transfer updater. The state object is overwritten field by field;
   * the document built from it is offered to the store, whose answer
   * (`storeAccepts`) decides only what is stored: a rejected insert (for
   * instance a duplicate transaction id) is logged and swallowed, so the
   * in-memory state and the context copy are the same either way. Finally
   * `context.stateCopy` receives a value copy of the updated state.
   */
  method UpdateTransferData(state: TransferState, payload: Payload, blockInfo: BlockInfo,
                            context: Context, storeAccepts: bool)
    returns (stored: Option<TransferRecord>)
    modifies state, context
    ensures state.Value() == ApplyTransfer(old(state.Value()), payload, blockInfo)
    ensures stored == if storeAccepts then Some(RecordOf(state.Value())) else None
    ensures context.stateCopy == Some(state.Value())
  {
    var parsed := ParseTokenString(payload.data.quantity);
    state.from := payload.data.from;
    state.to := payload.data.to;
    state.amount := parsed.amount;
    state.symbol := parsed.symbol;
    state.memo := payload.data.memo;
    state.trxId := payload.transactionId;
    state.indexState := state.indexState.(blockNumber := blockInfo.blockNumber);
    state.indexState := state.indexState.(blockHash := Some(blockInfo.blockHash));
    var transaction := TransferRecord(
      state.from, state.to, state.amount, state.symbol, state.memo, state.trxId,
      state.indexState.blockNumber, state.indexState.blockHash,
      state.indexState.handlerVersionName);
    stored := if storeAccepts then Some(transaction) else None;
    context.stateCopy := Some(state.Value());
  }

  /** The updater and effect callbacks this version provides. */
  datatype UpdaterFn = UpdateTransferDataFn
  datatype EffectFn = LogUpdateFn

  datatype Updater = Updater(actionType: string, apply: UpdaterFn)
  datatype Effect = Effect(actionType: string, run: EffectFn)

  /** A handler version: its name and its action-type tables. */
  datatype HandlerVersion = HandlerVersion(versionName: string, updaters: seq<Updater>, effects: seq<Effect>)

  /** The action type `<account>::transfer` for the configured contract account. */
  function TransferActionType(account: string): string
  {
    account + "::transfer"
  }

  /** The version descriptor registered with the framework. */
  function HandlerVersionV1(account: string): HandlerVersion
  {
    HandlerVersion(
      "v1",
      [Updater(TransferActionType(account), UpdateTransferDataFn)],
      [Effect(TransferActionType(account), LogUpdateFn)])
  }

  /** Some updater of `v` is registered for `actionType`. */
  predicate HasUpdater(v: HandlerVersion, actionType: string)
  {
    exists i :: 0 <= i < |v.updaters| && v.updaters[i].actionType == actionType
  }

  /** Some effect of `v` is registered for `actionType`. */
  predicate HasEffect(v: HandlerVersion, actionType: string)
  {
    exists i :: 0 <= i < |v.effects| && v.effects[i].actionType == actionType
  }

  /**
   * Version "v1" has exactly one updater and one effect, both for the
   * transfer action type and for no other, running the transfer updater
   * and the logging effect.
   */
  lemma HandlerVersionV1Tables(account: string, actionType: string)
    ensures HandlerVersionV1(account).versionName == "v1"
    ensures |HandlerVersionV1(account).updaters| == 1 && |HandlerVersionV1(account).effects| == 1
    ensures HasUpdater(HandlerVersionV1(account), actionType) <==> actionType == TransferActionType(account)
    ensures HasEffect(HandlerVersionV1(account), actionType) <==> actionType == TransferActionType(account)
    ensures HandlerVersionV1(account).updaters[0].apply == UpdateTransferDataFn
    ensures HandlerVersionV1(account).effects[0].run == LogUpdateFn
  {
    var v := HandlerVersionV1(account);
    if actionType == TransferActionType(account) {
      assert v.updaters[0].actionType == actionType;
      assert v.effects[0].actionType == actionType;
    }
  }
}
