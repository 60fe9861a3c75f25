/**
 * Clients of the handler and the v1 updater that follow one block through
 * them, using only their contracts: the block is recorded, a transfer in it
 * updates the state and the context copy, the index position is written,
 * and rollbacks follow, one to that block and one to a block never seen.
 */
module Scenario {
  import opened Wrappers
  import opened Types
  import opened TokenString
  import opened HandlerV1
  import opened ActionHandler

  /** Transfer "T1" at block 100 with hash "H100", rejected by the store. */
  method TransferAtBlock100()
  {
    var handler := new ObjectActionHandler();
    var context := new Context();
    var block := BlockInfo(100, "H100");
    var payload := Payload(TransferData("alice", "bob", "12.50 EOS", "hi"), "T1");

    handler.HandleBlock(block);
    RecordLookup(InitialHistory(), block, 100);
    assert Lookup(handler.hashHistory, 100) == Some("H100");

    // The store rejects the insert (say, a duplicate transaction id); the state is updated regardless.
    var stored := UpdateTransferData(handler.state, payload, block, context, false);
    assert stored == None;
    ParseExamples();
    assert handler.state.trxId == "T1" && handler.state.symbol == Some("EOS");
    assert handler.state.amount == ParseFloatOf("12.50");
    assert handler.state.indexState == IndexState(100, Some("H100"), false, "v1");

    var exits := handler.UpdateIndexState(handler.state, block, false, "v1", Int(0));
    assert !exits;
    assert handler.state.indexState == IndexState(100, Some("H100"), false, "v1");
  }

  /** Rollbacks after that transfer; the copy left for the effect phase stays as it was. */
  method RollbacksAfterTransfer()
  {
    var handler := new ObjectActionHandler();
    var context := new Context();
    var block := BlockInfo(100, "H100");
    var payload := Payload(TransferData("alice", "bob", "12.50 EOS", "hi"), "T1");

    handler.HandleBlock(block);
    var stored := UpdateTransferData(handler.state, payload, block, context, true);
    var copy := context.stateCopy;
    assert copy == Some(handler.state.Value());

    handler.RollbackTo(100);
    assert handler.state.indexState == IndexState(100, Some("H100"), false, "v1");
    assert handler.lastProcessedBlockHash == Some("H100");

    handler.RollbackTo(7);
    assert handler.state.indexState == IndexState(7, None, false, "v1");
    assert handler.state.trxId == "T1";
    assert context.stateCopy == copy;
    assert copy.value.indexState.blockNumber == 100;
  }
}
