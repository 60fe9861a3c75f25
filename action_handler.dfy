/**
 * The object action handler: it keeps the state record, a table from block
 * number to block hash filled from every block it receives, and the last
 * processed block position, and it restores the index position from that
 * table when the framework rolls back.
 */
module ActionHandler {
  import opened Wrappers
  import opened Types

  // ---------------------------------------------------------------------
  // Stopping at a configured block
  // ---------------------------------------------------------------------

  /** `parseInt` of the STOP_AT setting: an integer, or NaN (also when unset). */
  datatype ParsedInt = NaN | Int(value: int)

  /** The comparison `blockNumber >= STOP_AT`; every comparison with NaN is false. */
  predicate AtOrPast(blockNumber: int, stopAt: ParsedInt)
  {
    stopAt.Int? && blockNumber >= stopAt.value
  }

  /** JavaScript truthiness of the setting: NaN and 0 are false. */
  predicate Truthy(stopAt: ParsedInt)
  {
    stopAt != NaN && stopAt != Int(0)
  }

  /** The process exits after recording an index position at `blockNumber`. */
  function ExitsAt(stopAt: ParsedInt, blockNumber: int): (exits: bool)
    ensures exits <==> stopAt.Int? && stopAt.value != 0 && blockNumber >= stopAt.value
  {
    Truthy(stopAt) && AtOrPast(blockNumber, stopAt)
  }

  /** Once the stop block is reached, every later block stops too. */
  lemma ExitsAtMonotone(stopAt: ParsedInt, n: int, m: int)
    requires ExitsAt(stopAt, n) && n <= m
    ensures ExitsAt(stopAt, m)
  {
  }

  /** An unset setting, one that is not a number, and 0 never stop the process. */
  lemma NeverExitsWhenFalsy(stopAt: ParsedInt, blockNumber: int)
    requires !Truthy(stopAt)
    ensures !ExitsAt(stopAt, blockNumber)
  {
  }

  // ---------------------------------------------------------------------
  // The block-hash table
  // ---------------------------------------------------------------------

  /** The table a fresh handler starts with: block 0 has the empty hash. */
  function InitialHistory(): (h: map<int, string>)
    ensures h.Keys == {0} && h[0] == ""
  {
    map[0 := ""]
  }

  /** `hashHistory[n]`: the recorded hash, or `undefined` for an unrecorded block. */
  function Lookup(history: map<int, string>, n: int): (h: Option<string>)
    ensures h.Some? <==> n in history
    ensures h.Some? ==> h.value == history[n]
  {
    if n in history then Some(history[n]) else None
  }

  /** The table after a block is received: its number now maps to its hash. */
  function Record(history: map<int, string>, block: BlockInfo): map<int, string>
  {
    history[block.blockNumber := block.blockHash]
  }

  /**
   * Recording a block sets its own entry, overwriting an earlier hash for
   * the same number, and leaves every other entry as it was.
   */
  lemma RecordLookup(history: map<int, string>, block: BlockInfo, n: int)
    ensures Lookup(Record(history, block), n)
         == if n == block.blockNumber then Some(block.blockHash) else Lookup(history, n)
  {
  }

  /** The table after the blocks are received one after another, in order. */
  function RecordAll(history: map<int, string>, blocks: seq<BlockInfo>): map<int, string>
    decreases |blocks|
  {
    if blocks == [] then history else RecordAll(Record(history, blocks[0]), blocks[1..])
  }

  /** Entries for block numbers that none of the blocks carries are left alone. */
  lemma {:induction false} RecordAllUntouched(history: map<int, string>, blocks: seq<BlockInfo>, n: int)
    requires forall j :: 0 <= j < |blocks| ==> blocks[j].blockNumber != n
    ensures Lookup(RecordAll(history, blocks), n) == Lookup(history, n)
    decreases |blocks|
  {
    if blocks != [] {
      RecordAllUntouched(Record(history, blocks[0]), blocks[1..], n);
    }
  }

  /**
   * After a sequence of blocks, the table holds for a block number the hash
   * of the LAST block received with that number.
   */
  lemma {:induction false} RecordAllLatest(history: map<int, string>, blocks: seq<BlockInfo>, i: nat)
    requires i < |blocks|
    requires forall j :: i < j < |blocks| ==> blocks[j].blockNumber != blocks[i].blockNumber
    ensures Lookup(RecordAll(history, blocks), blocks[i].blockNumber) == Some(blocks[i].blockHash)
    decreases |blocks|
  {
    if i == 0 {
      RecordAllUntouched(Record(history, blocks[0]), blocks[1..], blocks[0].blockNumber);
    } else {
      RecordAllLatest(Record(history, blocks[0]), blocks[1..], i - 1);
    }
  }

  /**
   * The table is never pruned: after a sequence of blocks its keys are the
   * old keys together with the numbers of all blocks received.
   */
  lemma {:induction false} RecordAllKeys(history: map<int, string>, blocks: seq<BlockInfo>)
    ensures RecordAll(history, blocks).Keys
         == history.Keys + set j | 0 <= j < |blocks| :: blocks[j].blockNumber
    decreases |blocks|
  {
    if blocks != [] {
      var rest := blocks[1..];
      RecordAllKeys(Record(history, blocks[0]), rest);
      var all := set j | 0 <= j < |blocks| :: blocks[j].blockNumber;
      var later := set j | 0 <= j < |rest| :: rest[j].blockNumber;
      assert all == {blocks[0].blockNumber} + later by {
        forall x | x in all ensures x in {blocks[0].blockNumber} + later {
          var j :| 0 <= j < |blocks| && blocks[j].blockNumber == x;
          if j > 0 { assert rest[j - 1].blockNumber == x; }
        }
        forall x | x in later ensures x in all {
          var j :| 0 <= j < |rest| && rest[j].blockNumber == x;
          assert blocks[j + 1].blockNumber == x;
        }
      }
    }
  }

  // ---------------------------------------------------------------------
  // The index position
  // ---------------------------------------------------------------------

  /** The state record a fresh handler starts with. */
  function InitialState(): TransferSnapshot
  {
    TransferSnapshot("", "", Zero, Some(""), "", "", IndexState(0, Some(""), false, "v1"))
  }

  /**
   * The index position after a rollback to `n`: number `n` and the recorded
   * hash for `n` (absent when `n` was never recorded), with the replay flag
   * and version name kept.
   */
  function RollbackIndex(ix: IndexState, history: map<int, string>, n: int): IndexState
  {
    ix.(blockNumber := n, blockHash := Lookup(history, n))
  }

  /** The index position `updateIndexState` writes, replacing all four fields. */
  function IndexStateOf(block: BlockInfo, isReplay: bool, handlerVersionName: string): IndexState
  {
    IndexState(block.blockNumber, Some(block.blockHash), isReplay, handlerVersionName)
  }

  /**
   * A fresh handler rolled back to block 0 keeps its index position; rolled
   * back to any other block it gets that number and an absent hash.
   */
  lemma RollbackFresh(n: int)
    ensures RollbackIndex(InitialState().indexState, InitialHistory(), n)
         == IndexState(n, if n == 0 then Some("") else None, false, "v1")
    ensures n == 0 ==> RollbackIndex(InitialState().indexState, InitialHistory(), n) == InitialState().indexState
  {
  }

  /**
   * Rolling back to a block after receiving a sequence of blocks restores
   * the hash of the last block received with that number.
   */
  lemma RollbackToReceived(ix: IndexState, history: map<int, string>, blocks: seq<BlockInfo>, i: nat)
    requires i < |blocks|
    requires forall j :: i < j < |blocks| ==> blocks[j].blockNumber != blocks[i].blockNumber
    ensures RollbackIndex(ix, RecordAll(history, blocks), blocks[i].blockNumber)
         == ix.(blockNumber := blocks[i].blockNumber, blockHash := Some(blocks[i].blockHash))
  {
    RecordAllLatest(history, blocks, i);
  }

  /**
   * Rolling back to the block just received and indexed leaves the index
   * position as `updateIndexState` wrote it.
   */
  lemma RollbackAfterUpdate(history: map<int, string>, block: BlockInfo, isReplay: bool, name: string)
    ensures RollbackIndex(IndexStateOf(block, isReplay, name), Record(history, block), block.blockNumber)
         == IndexStateOf(block, isReplay, name)
  {
  }

  // ---------------------------------------------------------------------
  // The handler object
  // ---------------------------------------------------------------------

  class ObjectActionHandler {
    /** The state record handed to the updaters. */
    const state: TransferState
    /** Block number to block hash, for every block received. */
    var hashHistory: map<int, string>
    /** The position the framework resumes from. */
    var lastProcessedBlockNumber: int
    var lastProcessedBlockHash: Option<string>

    /** Block 0 always has an entry, so a rollback to it always finds a hash. */
    ghost predicate Valid()
      reads this
    {
      0 in hashHistory
    }

    constructor ()
      ensures Valid() && fresh(state)
      ensures state.Value() == InitialState()
      ensures hashHistory == InitialHistory()
    {
      state := new TransferState(InitialState());
      hashHistory := InitialHistory();
      lastProcessedBlockNumber := 0;
      lastProcessedBlockHash := Some("");
    }

    /** Records the hash of an incoming block before the framework handles it. */
    method HandleBlock(block: BlockInfo)
      requires Valid()
      modifies this`hashHistory
      ensures Valid()
      ensures hashHistory == Record(old(hashHistory), block)
    {
      hashHistory := hashHistory[block.blockNumber := block.blockHash];
    }

    method SetLastProcessedBlockHash(hash: Option<string>)
      modifies this`lastProcessedBlockHash
      ensures lastProcessedBlockHash == hash
    {
      lastProcessedBlockHash := hash;
    }

    method SetLastProcessedBlockNumber(num: int)
      modifies this`lastProcessedBlockNumber
      ensures lastProcessedBlockNumber == num
    {
      lastProcessedBlockNumber := num;
    }

    /**
     * Rolls back to `blockNumber`: the last processed position and the
     * state's index position both take that number and its recorded hash;
     * the table and every transfer field are left as they were.
     */
    method RollbackTo(blockNumber: int)
      requires Valid()
      modifies this`lastProcessedBlockNumber, this`lastProcessedBlockHash, state`indexState
      ensures Valid()
      ensures hashHistory == old(hashHistory)
      ensures lastProcessedBlockNumber == blockNumber
      ensures lastProcessedBlockHash == Lookup(hashHistory, blockNumber)
      ensures state.Value()
           == old(state.Value()).(indexState := RollbackIndex(old(state.indexState), hashHistory, blockNumber))
    {
      SetLastProcessedBlockNumber(blockNumber);
      var hash := if blockNumber in hashHistory then Some(hashHistory[blockNumber]) else None;
      SetLastProcessedBlockHash(hash);
      state.indexState := state.indexState.(blockNumber := blockNumber, blockHash := hash);
    }

    /** The index position the framework resumes from. */
    method LoadIndexState() returns (ix: IndexState)
      ensures ix == state.indexState
    {
      ix := state.indexState;
    }

    /**
     * Replaces the index position of `st` after a block, then reports
     * whether the process exits because the STOP_AT block has been reached.
     */
    method UpdateIndexState(st: TransferState, block: BlockInfo, isReplay: bool,
                            handlerVersionName: string, stopAt: ParsedInt)
      returns (exits: bool)
      modifies st`indexState
      ensures st.Value() == old(st.Value()).(indexState := IndexStateOf(block, isReplay, handlerVersionName))
      ensures exits == ExitsAt(stopAt, block.blockNumber)
    {
      st.indexState := IndexState(block.blockNumber, Some(block.blockHash), isReplay, handlerVersionName);
      exits := false;
      if stopAt != NaN && stopAt != Int(0) {
        exits := stopAt.Int? && block.blockNumber >= stopAt.value;
      }
    }
  }
}
