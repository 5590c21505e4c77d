/**
 The chain tables and the statements that change and read them, as written. The
 query that fills `tx_blocks` keeps its shadowed alias: its second EXISTS asks
 whether any recorded input at all spends an output of its own transaction.
 */
module ChainTables {
  import opened Types
  import opened Headers

  datatype TxOutput = TxOutput(address: Option<Address>, amount: nat)
  datatype Tx = Tx(txid: Txid, inputs: seq<OutPoint>, outputs: seq<TxOutput>)

  /** The transactions of every block there is, and the transaction each id names. */
  datatype World = World(contents: map<BlockHash, seq<Tx>>, txs: map<Txid, Tx>)

  datatype AddressUtxo = AddressUtxo(address: Address, utxo: Txo)
  datatype SpentTxo = SpentTxo(outpoint: OutPoint, spendingTx: Txid, inputIndex: nat)

  datatype OutputRow = OutputRow(address: Address, amount: nat)
  datatype InputKey = InputKey(spendingTx: Txid, inputIndex: nat)
  datatype TxBlock = TxBlock(txid: Txid, block: BlockHash)

  datatype ChainDb = ChainDb(
    blocks: map<BlockHash, BlockHeader>,
    txOutputs: map<OutPoint, OutputRow>,
    txInputs: map<InputKey, OutPoint>,
    txBlocks: set<TxBlock>,
    watch: set<Address>)

  /** INSERT INTO tx_outputs ... INNER JOIN watch_addresses ... ON CONFLICT DO NOTHING */
  function InsertOutputs(rows: seq<AddressUtxo>, outputs: map<OutPoint, OutputRow>,
      watch: set<Address>): (r: map<OutPoint, OutputRow>)
    ensures forall op :: op in outputs ==> op in r && r[op] == outputs[op]
    ensures forall op :: op in r && op !in outputs ==>
              exists u :: u in rows && u.address in watch && u.utxo.outpoint == op
                  && r[op] == OutputRow(u.address, u.utxo.value)
    ensures forall u :: u in rows && u.address in watch ==> u.utxo.outpoint in r
  {
    if rows == [] then outputs else
    var u := rows[0];
    var first := if u.address in watch && u.utxo.outpoint !in outputs
                 then outputs[u.utxo.outpoint := OutputRow(u.address, u.utxo.value)] else outputs;
    InsertOutputs(rows[1..], first, watch)
  }

  /** INSERT INTO tx_inputs ... INNER JOIN tx_outputs ... ON CONFLICT DO NOTHING */
  function InsertInputs(rows: seq<SpentTxo>, inputs: map<InputKey, OutPoint>, outputs: map<OutPoint,
      OutputRow>): (r: map<InputKey, OutPoint>)
    ensures forall k :: k in inputs ==> k in r && r[k] == inputs[k]
    ensures forall k :: k in r && k !in inputs ==> SpentTxo(r[k], k.spendingTx, k.inputIndex) in rows
    ensures forall s :: s in rows && s.outpoint in outputs ==> InputKey(s.spendingTx, s.inputIndex) in r
  {
    if rows == [] then inputs else
    var s := rows[0];
    var k := InputKey(s.spendingTx, s.inputIndex);
    var first := if s.outpoint in outputs && k !in inputs then inputs[k := s.outpoint] else inputs;
    InsertInputs(rows[1..], first, outputs)
  }

  predicate HasOutputRow(outputs: map<OutPoint, OutputRow>, tx: Txid) { exists op :: op in outputs && op.txid == tx }

  predicate AnySelfSpend(inputs: map<InputKey, OutPoint>) { exists k :: k in inputs && k.spendingTx == inputs[k].txid }

  function TxidsOf(outs: seq<AddressUtxo>, ins: seq<SpentTxo>): set<Txid> {
    (set u | u in outs :: u.utxo.outpoint.txid) + (set s | s in ins :: s.spendingTx)
  }

  function AddBlock(db: ChainDb, header: BlockHeader, outs: seq<AddressUtxo>, ins: seq<SpentTxo>): ChainDb {
    var outputs := InsertOutputs(outs, db.txOutputs, db.watch);
    var inputs := InsertInputs(ins, db.txInputs, outputs);
    ChainDb(
      if header.hash in db.blocks then db.blocks else db.blocks[header.hash := header],
      outputs,
      inputs,
      db.txBlocks + (set x | x in TxidsOf(outs, ins) && (HasOutputRow(outputs, x) || AnySelfSpend(inputs)) ::
          TxBlock(x, header.hash)),
      db.watch)
  }

  /** DELETE FROM blocks; the foreign key of tx_blocks cascades. */
  function UndoBlock(db: ChainDb, hash: BlockHash): ChainDb {
    db.(blocks := db.blocks - {hash}, txBlocks := set x | x in db.txBlocks && x.block != hash)
  }

  predicate SpentOnChain(db: ChainDb, op: OutPoint) {
    exists k, b :: k in db.txInputs && db.txInputs[k] == op && b in db.blocks && TxBlock(k.spendingTx, b) in db.txBlocks
  }

  function RowUtxo(db: ChainDb, op: OutPoint, b: BlockHash): AddressUtxo
    requires op in db.txOutputs && b in db.blocks
  {
    AddressUtxo(db.txOutputs[op].address, Txo(b, db.blocks[b].height, op, db.txOutputs[op].amount))
  }

  /** The rows of `get_utxos`. */
  function GetUtxos(db: ChainDb): set<AddressUtxo> {
    set op, b | op in db.txOutputs && b in db.blocks && TxBlock(op.txid, b) in db.txBlocks && !SpentOnChain(db, op) ::
        RowUtxo(db, op, b)
  }

  /** The rows of `get_txos_for_address`. */
  function GetTxosForAddress(db: ChainDb, address: Address): set<Txo> {
    set op, b | op in db.txOutputs && b in db.blocks && TxBlock(op.txid, b) in db.txBlocks
        && db.txOutputs[op].address == address :: RowUtxo(db, op, b).utxo
  }

  // ------------------------------------------- what a block holds for us

  predicate Pays(tx: Tx, v: nat, address: Address, amount: nat) {
    v < |tx.outputs| && tx.outputs[v] == TxOutput(Some(address), amount)
  }

  predicate Spends(tx: Tx, k: nat, op: OutPoint) { k < |tx.inputs| && tx.inputs[k] == op }

  predicate PaysAny(tx: Tx, watch: set<Address>) {
    exists v :: 0 <= v < |tx.outputs| && tx.outputs[v].address.Some? && tx.outputs[v].address.value in watch
  }

  ghost predicate IsWatchedOutput(txs: seq<Tx>, header: BlockHeader, watch: set<Address>, u: AddressUtxo) {
    && u.address in watch
    && u.utxo.blockHash == header.hash && u.utxo.blockHeight == header.height
    && exists tx ::
        tx in txs && tx.txid == u.utxo.outpoint.txid && Pays(tx, u.utxo.outpoint.vout, u.address, u.utxo.value)
  }

  ghost predicate IsSpend(txs: seq<Tx>, s: SpentTxo) {
    exists tx :: tx in txs && tx.txid == s.spendingTx && Spends(tx, s.inputIndex, s.outpoint)
  }

  /** The arguments `process_block` computes for `add_block`. */
  ghost predicate Extracted(txs: seq<Tx>, header: BlockHeader, watch: set<Address>, outs: seq<AddressUtxo>,
      ins: seq<SpentTxo>) {
    && (forall u :: u in outs <==> IsWatchedOutput(txs, header, watch, u))
    && (forall s :: s in ins <==> IsSpend(txs, s))
  }

  /** A transaction id names one transaction, and no transaction spends itself. */
  ghost predicate SaneTxs(w: World) {
    && (forall b, t :: b in w.contents && t in w.contents[b] ==> t.txid in w.txs && w.txs[t.txid] == t)
    && (forall x :: x in w.txs ==> w.txs[x].txid == x && forall op :: op in w.txs[x].inputs ==> op.txid != x)
  }

  /** Block `b` holds the transaction. */
  predicate HasTx(w: World, b: BlockHash, txid: Txid) {
    b in w.contents && txid in w.txs && w.txs[txid] in w.contents[b]
  }

  /** Block `b` spends `op` in that input. */
  predicate SpendsIn(w: World, b: BlockHash, k: InputKey, op: OutPoint) {
    HasTx(w, b, k.spendingTx) && Spends(w.txs[k.spendingTx], k.inputIndex, op)
  }

  /** A valid chain: no transaction twice, none spends an output from above. */
  ghost predicate SaneChain(w: World, blocks: map<BlockHash, BlockHeader>) {
    && (forall b :: b in blocks ==> b in w.contents && blocks[b].hash == b)
    && (forall b, b', x :: b in blocks && b' in blocks && HasTx(w, b, x) && HasTx(w, b', x) ==> b == b')
    && (forall b, b', k, op: OutPoint ::
        b in blocks && b' in blocks && HasTx(w, b, op.txid) && SpendsIn(w, b', k, op) ==>
        blocks[b].height <= blocks[b'].height)
  }

  // ------------------------------------------------------------- invariant

  /** For every block in the table, the addresses watched when it was last processed. */
  type Seen = map<BlockHash, set<Address>>

  /** Block `b` makes the output, for an address that was watched in time. */
  predicate Makes(w: World, seen: Seen, b: BlockHash, op: OutPoint) {
    && HasTx(w, b, op.txid) && b in seen
    && op.vout < |w.txs[op.txid].outputs|
    && w.txs[op.txid].outputs[op.vout].address.Some?
    && w.txs[op.txid].outputs[op.vout].address.value in seen[b]
  }

  /** The transaction is in block `b` and pays an address that was watched in time. */
  predicate Recorded(w: World, seen: Seen, b: BlockHash, txid: Txid) {
    HasTx(w, b, txid) && b in seen && PaysAny(w.txs[txid], seen[b])
  }

  ghost predicate OutputsComplete(db: ChainDb, seen: Seen, w: World) {
    forall b, op :: b in db.blocks && Makes(w, seen, b, op) ==> op in db.txOutputs && TxBlock(op.txid, b) in db.txBlocks
  }

  ghost predicate OutputSound(db: ChainDb, seen: Seen, w: World, op: OutPoint)
    requires op in db.txOutputs
  {
    && db.txOutputs[op].address in db.watch
    && op.txid in w.txs && Pays(w.txs[op.txid], op.vout, db.txOutputs[op].address, db.txOutputs[op].amount)
    && forall b :: b in db.blocks && HasTx(w, b, op.txid) ==> b in seen && db.txOutputs[op].address in seen[b]
  }

  predicate InputSound(db: ChainDb, w: World, k: InputKey)
    requires k in db.txInputs
  {
    && k.spendingTx in w.txs && Spends(w.txs[k.spendingTx], k.inputIndex, db.txInputs[k])
    && db.txInputs[k].txid != k.spendingTx
  }

  ghost predicate InputsComplete(db: ChainDb, seen: Seen, w: World) {
    forall b, b', op, k ::
      (b in db.blocks && b' in db.blocks && Makes(w, seen, b, op) && SpendsIn(w, b', k, op)
          && db.blocks[b].height <= db.blocks[b'].height)
      ==> k in db.txInputs
  }

  ghost predicate RowsSound(db: ChainDb, seen: Seen, w: World) {
    && (forall op :: op in db.txOutputs ==> OutputSound(db, seen, w, op))
    && (forall k :: k in db.txInputs ==> InputSound(db, w, k))
    && (forall x :: x in db.txBlocks ==> x.block in db.blocks && Recorded(w, seen, x.block, x.txid))
  }

  ghost predicate DbInv(db: ChainDb, seen: Seen, w: World) {
    && (forall b :: b in db.blocks ==> b in seen && seen[b] <= db.watch)
    && RowsSound(db, seen, w)
    && OutputsComplete(db, seen, w) && InputsComplete(db, seen, w)
  }

  lemma {:induction false} UndoKeepsInv(db: ChainDb, seen: Seen, w: World, hash: BlockHash)
    requires DbInv(db, seen, w)
    ensures DbInv(UndoBlock(db, hash), seen, w)
  {
  }

  lemma {:induction false} WatchKeepsInv(db: ChainDb, seen: Seen, w: World, more: set<Address>)
    requires DbInv(db, seen, w)
    ensures DbInv(db.(watch := db.watch + more), seen, w)
  {
    var db' := db.(watch := db.watch + more);
    forall op | op in db'.txOutputs ensures OutputSound(db', seen, w, op) {
      assert OutputSound(db, seen, w, op);
    }
    forall k | k in db'.txInputs ensures InputSound(db', w, k) {
      assert InputSound(db, w, k);
    }
  }

  lemma {:induction false} OutputsIgnoreLaterWatch(rows: seq<AddressUtxo>, outputs: map<OutPoint, OutputRow>,
      watch: set<Address>, more: set<Address>)
    requires forall u :: u in rows ==> u.address in watch
    ensures InsertOutputs(rows, outputs, watch) == InsertOutputs(rows, outputs, watch + more)
  {
    if rows != [] {
      assert rows[0] in rows;
      var first := if rows[0].utxo.outpoint !in outputs
                   then outputs[rows[0].utxo.outpoint := OutputRow(rows[0].address, rows[0].utxo.value)] else outputs;
      OutputsIgnoreLaterWatch(rows[1..], first, watch, more);
    }
  }

  /** An address that is added between the filter and the transaction makes no difference to this block. */
  lemma {:induction false} AddIgnoresLaterWatch(db: ChainDb, more: set<Address>, header: BlockHeader,
      outs: seq<AddressUtxo>,
      ins: seq<SpentTxo>)
    requires forall u :: u in outs ==> u.address in db.watch
    ensures AddBlock(db.(watch := db.watch + more), header, outs, ins)
         == AddBlock(db, header, outs, ins).(watch := db.watch + more)
  {
    OutputsIgnoreLaterWatch(outs, db.txOutputs, db.watch, more);
  }

  /** `header` may be processed now: it is the tip of the table, or goes on top of it. */
  ghost predicate MayProcess(db: ChainDb, w: World, header: BlockHeader) {
    && header.hash in w.contents
    && (header.hash in db.blocks ==> db.blocks[header.hash] == header)
    && (forall b :: b in db.blocks && b != header.hash ==> db.blocks[b].height < header.height)
    && SaneTxs(w) && SaneChain(w, db.blocks[header.hash := header])
  }

  lemma {:induction false} ExtractedOutput(w: World, header: BlockHeader, watch: set<Address>, outs: seq<AddressUtxo>,
      op: OutPoint)
    requires SaneTxs(w) && header.hash in w.contents
    requires forall u :: u in outs <==> IsWatchedOutput(w.contents[header.hash], header, watch, u)
    requires Makes(w, map[header.hash := watch], header.hash, op)
    ensures exists u :: u in outs && u.address in watch && u.utxo.outpoint == op
  {
    var out := w.txs[op.txid].outputs[op.vout];
    var u := AddressUtxo(out.address.value, Txo(header.hash, header.height, op, out.amount));
    assert Pays(w.txs[op.txid], op.vout, u.address, u.utxo.value);
    assert IsWatchedOutput(w.contents[header.hash], header, watch, u);
  }

  lemma {:induction false} AddKeepsOutputsComplete(
      db: ChainDb, seen: Seen, w: World, header: BlockHeader, outs: seq<AddressUtxo>, ins: seq<SpentTxo>)
    requires OutputsComplete(db, seen, w) && SaneTxs(w) && header.hash in w.contents
    requires forall u :: u in outs <==> IsWatchedOutput(w.contents[header.hash], header, db.watch, u)
    ensures OutputsComplete(AddBlock(db, header, outs, ins), seen[header.hash := db.watch], w)
  {
    var db' := AddBlock(db, header, outs, ins);
    forall b, op | b in db'.blocks && Makes(w, seen[header.hash := db.watch], b, op)
      ensures op in db'.txOutputs && TxBlock(op.txid, b) in db'.txBlocks
    {
      if b == header.hash {
        ExtractedOutput(w, header, db.watch, outs, op);
        var u :| u in outs && u.address in db.watch && u.utxo.outpoint == op;
        assert op.txid in TxidsOf(outs, ins);
      } else {
        assert Makes(w, seen, b, op);
      }
    }
  }

  lemma {:induction false} OldOutputSound(db: ChainDb, db': ChainDb, seen: Seen, w: World, header: BlockHeader,
      op: OutPoint)
    requires op in db.txOutputs && op in db'.txOutputs && db'.txOutputs[op] == db.txOutputs[op]
        && OutputSound(db, seen, w, op)
    requires db'.watch == db.watch && db'.blocks.Keys <= db.blocks.Keys + {header.hash}
    ensures OutputSound(db', seen[header.hash := db.watch], w, op)
  {
  }

  lemma {:induction false} NewOutputSound(db: ChainDb, db': ChainDb, seen: Seen, w: World, header: BlockHeader,
      op: OutPoint,
      u: AddressUtxo)
    requires MayProcess(db, w, header) && IsWatchedOutput(w.contents[header.hash], header, db.watch, u)
        && u.utxo.outpoint == op
    requires op in db'.txOutputs && db'.txOutputs[op] == OutputRow(u.address, u.utxo.value)
    requires db'.watch == db.watch && db'.blocks == db.blocks[header.hash := header]
    ensures OutputSound(db', seen[header.hash := db.watch], w, op)
  {
  }

  lemma {:induction false} AddKeepsInputSound(
      db: ChainDb, w: World, header: BlockHeader, outs: seq<AddressUtxo>, ins: seq<SpentTxo>, k: InputKey)
    requires SaneTxs(w) && header.hash in w.contents
    requires k in db.txInputs ==> InputSound(db, w, k)
    requires forall s :: s in ins <==> IsSpend(w.contents[header.hash], s)
    requires k in AddBlock(db, header, outs, ins).txInputs
    ensures InputSound(AddBlock(db, header, outs, ins), w, k)
  {
  }

  lemma {:induction false} ListedIsInBlock(w: World, header: BlockHeader, watch: set<Address>, outs: seq<AddressUtxo>,
      ins: seq<SpentTxo>,
      txid: Txid)
    requires SaneTxs(w) && header.hash in w.contents
    requires Extracted(w.contents[header.hash], header, watch, outs, ins) && txid in TxidsOf(outs, ins)
    ensures HasTx(w, header.hash, txid)
  {
  }

  lemma {:induction false} RowMakesRecorded(db: ChainDb, seen: Seen, w: World, b: BlockHash, op: OutPoint)
    requires op in db.txOutputs && OutputSound(db, seen, w, op) && b in db.blocks && HasTx(w, b, op.txid)
    ensures Recorded(w, seen, b, op.txid)
  {
  }

  lemma {:induction false} NoSelfSpendRow(db: ChainDb, w: World)
    requires forall k :: k in db.txInputs ==> InputSound(db, w, k)
    ensures !AnySelfSpend(db.txInputs)
  {
  }

  /** A transaction enters `tx_blocks` only if it pays an address that is watched. */
  lemma {:induction false} AddKeepsTxBlocks(
      db: ChainDb, db': ChainDb, seen: Seen, w: World, header: BlockHeader, outs: seq<AddressUtxo>, ins: seq<SpentTxo>,
          x: TxBlock)
    requires db' == AddBlock(db, header, outs, ins) && SaneTxs(w) && header.hash in w.contents
    requires Extracted(w.contents[header.hash], header, db.watch, outs, ins)
    requires x in db.txBlocks ==>
        x.block in db.blocks && Recorded(w, seen, x.block, x.txid) && seen[x.block] <= db.watch
    requires forall op :: op in db'.txOutputs ==> OutputSound(db', seen[header.hash := db.watch], w, op)
    requires forall k :: k in db'.txInputs ==> InputSound(db', w, k)
    requires x in db'.txBlocks
    ensures x.block in db'.blocks && Recorded(w, seen[header.hash := db.watch], x.block, x.txid)
  {
    if x !in db.txBlocks {
      NoSelfSpendRow(db', w);
      assert x.block == header.hash;
      ListedIsInBlock(w, header, db.watch, outs, ins, x.txid);
      var op :| op in db'.txOutputs && op.txid == x.txid;
      RowMakesRecorded(db', seen[header.hash := db.watch], w, header.hash, op);
    }
  }

  lemma {:induction false} AddKeepsInputsComplete(
      db: ChainDb, db': ChainDb, seen: Seen, w: World, header: BlockHeader, outs: seq<AddressUtxo>, ins: seq<SpentTxo>)
    requires InputsComplete(db, seen, w) && MayProcess(db, w, header) && db' == AddBlock(db, header, outs, ins)
    requires forall s :: s in ins <==> IsSpend(w.contents[header.hash], s)
    requires OutputsComplete(db', seen[header.hash := db.watch], w)
    ensures InputsComplete(db', seen[header.hash := db.watch], w)
  {
    var seen' := seen[header.hash := db.watch];
    forall b, b', op, k |
      b in db'.blocks && b' in db'.blocks && Makes(w, seen', b, op) && SpendsIn(w, b', k, op)
      && db'.blocks[b].height <= db'.blocks[b'].height
      ensures k in db'.txInputs
    {
      if b' == header.hash {
        assert op in db'.txOutputs;
        assert IsSpend(w.contents[header.hash], SpentTxo(op, k.spendingTx, k.inputIndex));
        assert SpentTxo(op, k.spendingTx, k.inputIndex) in ins;
      } else {
        assert b != header.hash;
        assert Makes(w, seen, b, op);
      }
    }
  }

  lemma {:induction false} AddKeepsRows(
      db: ChainDb, db': ChainDb, seen: Seen, w: World, header: BlockHeader, outs: seq<AddressUtxo>, ins: seq<SpentTxo>)
    requires (forall b :: b in db.blocks ==> b in seen && seen[b] <= db.watch) && RowsSound(db, seen, w)
        && MayProcess(db, w, header)
    requires Extracted(w.contents[header.hash], header, db.watch, outs, ins) && db' == AddBlock(db, header, outs, ins)
    requires db'.blocks == db.blocks[header.hash := header]
    ensures RowsSound(db', seen[header.hash := db.watch], w)
  {
    var seen' := seen[header.hash := db.watch];
    forall op | op in db'.txOutputs ensures OutputSound(db', seen', w, op) {
      if op in db.txOutputs {
        OldOutputSound(db, db', seen, w, header, op);
      } else {
        var u :| u in outs && u.address in db.watch && u.utxo.outpoint == op
            && db'.txOutputs[op] == OutputRow(u.address, u.utxo.value);
        NewOutputSound(db, db', seen, w, header, op, u);
      }
    }
    forall k | k in db'.txInputs ensures InputSound(db', w, k) {
      AddKeepsInputSound(db, w, header, outs, ins, k);
    }
    forall x | x in db'.txBlocks ensures x.block in db'.blocks && Recorded(w, seen', x.block, x.txid) {
      AddKeepsTxBlocks(db, db', seen, w, header, outs, ins, x);
    }
  }

  /** Processing the tip, or a block on top of it, keeps the tables right. */
  lemma {:induction false} AddKeepsInv(
      db: ChainDb, seen: Seen, w: World, header: BlockHeader, outs: seq<AddressUtxo>, ins: seq<SpentTxo>)
    requires DbInv(db, seen, w) && MayProcess(db, w, header)
    requires Extracted(w.contents[header.hash], header, db.watch, outs, ins)
    ensures DbInv(AddBlock(db, header, outs, ins), seen[header.hash := db.watch], w)
  {
    hide RowsSound, OutputsComplete, InputsComplete, SaneTxs, SaneChain;
    AddKeepsRows(db, AddBlock(db, header, outs, ins), seen, w, header, outs, ins);
    AddKeepsOutputsComplete(db, seen, w, header, outs, ins);
    AddKeepsInputsComplete(db, AddBlock(db, header, outs, ins), seen, w, header, outs, ins);
  }

  /**
   So does processing when addresses were added after the block's outputs were
   filtered; they count from the next time on.
   */
  lemma {:induction false} AddAfterWatchKeepsInv(
      db: ChainDb, more: set<Address>, seen: Seen, w: World, header: BlockHeader, outs: seq<AddressUtxo>,
          ins: seq<SpentTxo>)
    requires DbInv(db, seen, w) && MayProcess(db, w, header)
    requires Extracted(w.contents[header.hash], header, db.watch, outs, ins)
    ensures DbInv(AddBlock(db.(watch := db.watch + more), header, outs, ins), seen[header.hash := db.watch], w)
  {
    hide DbInv, MayProcess;
    AddKeepsInv(db, seen, w, header, outs, ins);
    WatchKeepsInv(AddBlock(db, header, outs, ins), seen[header.hash := db.watch], w, more);
    AddIgnoresLaterWatch(db, more, header, outs, ins);
  }

  // --------------------------------------- what the queries then report

  /** The chain in the table pays `u` to an address that was watched in time. */
  predicate OnChain(db: ChainDb, seen: Seen, w: World, u: AddressUtxo) {
    && u.utxo.blockHash in db.blocks && u.utxo.blockHeight == db.blocks[u.utxo.blockHash].height
    && Makes(w, seen, u.utxo.blockHash, u.utxo.outpoint)
    && w.txs[u.utxo.outpoint.txid].outputs[u.utxo.outpoint.vout] == TxOutput(Some(u.address), u.utxo.value)
  }

  /** Some transaction of the chain spends it. */
  ghost predicate Spent(db: ChainDb, w: World, op: OutPoint) {
    exists b, k :: b in db.blocks && SpendsIn(w, b, k, op)
  }

  /** Some transaction of the chain spends it and also pays an address watched in time. */
  ghost predicate SpentVisibly(db: ChainDb, seen: Seen, w: World, op: OutPoint) {
    exists b, k :: b in db.blocks && SpendsIn(w, b, k, op) && Recorded(w, seen, b, k.spendingTx)
  }

  lemma {:induction false} RecordedIsRow(db: ChainDb, seen: Seen, w: World, b: BlockHash, txid: Txid)
    requires OutputsComplete(db, seen, w) && b in db.blocks && Recorded(w, seen, b, txid)
    ensures TxBlock(txid, b) in db.txBlocks
  {
    var v :| 0 <= v < |w.txs[txid].outputs| && w.txs[txid].outputs[v].address.Some?
        && w.txs[txid].outputs[v].address.value in seen[b];
    assert Makes(w, seen, b, OutPoint(txid, v));
  }

  lemma {:induction false} RecordedSpends(db: ChainDb, seen: Seen, w: World, b: BlockHash, op: OutPoint)
    requires DbInv(db, seen, w) && SaneChain(w, db.blocks) && b in db.blocks && Makes(w, seen, b, op)
    ensures SpentOnChain(db, op) <==> SpentVisibly(db, seen, w, op)
  {
    if SpentOnChain(db, op) {
      var k, b' :| k in db.txInputs && db.txInputs[k] == op && b' in db.blocks
          && TxBlock(k.spendingTx, b') in db.txBlocks;
      assert InputSound(db, w, k) && Recorded(w, seen, b', k.spendingTx);
      assert SpendsIn(w, b', k, op);
    }
    if SpentVisibly(db, seen, w, op) {
      var b', k :| b' in db.blocks && SpendsIn(w, b', k, op) && Recorded(w, seen, b', k.spendingTx);
      RecordedIsRow(db, seen, w, b', k.spendingTx);
      assert k in db.txInputs && InputSound(db, w, k);
    }
  }

  lemma {:induction false} RowsAreOnChain(db: ChainDb, seen: Seen, w: World, op: OutPoint, b: BlockHash)
    requires RowsSound(db, seen, w) && op in db.txOutputs && b in db.blocks && TxBlock(op.txid, b) in db.txBlocks
    ensures OnChain(db, seen, w, RowUtxo(db, op, b))
  {
  }

  lemma {:induction false} OnChainIsRow(db: ChainDb, seen: Seen, w: World, u: AddressUtxo)
    requires RowsSound(db, seen, w) && OutputsComplete(db, seen, w) && OnChain(db, seen, w, u)
    ensures u.utxo.outpoint in db.txOutputs && TxBlock(u.utxo.outpoint.txid, u.utxo.blockHash) in db.txBlocks
    ensures RowUtxo(db, u.utxo.outpoint, u.utxo.blockHash) == u
  {
  }

  /**
   What `get_utxos` reports, for all chains and all ways they came about: the
   outputs the chain pays to addresses watched in time, minus those spent by a
   transaction that itself pays an address watched in time.
   */
  lemma {:induction false} UtxosReported(db: ChainDb, seen: Seen, w: World, u: AddressUtxo)
    requires DbInv(db, seen, w) && SaneChain(w, db.blocks)
    ensures u in GetUtxos(db) <==> OnChain(db, seen, w, u) && !SpentVisibly(db, seen, w, u.utxo.outpoint)
  {
    if u in GetUtxos(db) {
      var op, b :| op in db.txOutputs && b in db.blocks && TxBlock(op.txid, b) in db.txBlocks && !SpentOnChain(db, op)
          && u == RowUtxo(db, op, b);
      RowsAreOnChain(db, seen, w, op, b);
      RecordedSpends(db, seen, w, b, op);
    }
    if OnChain(db, seen, w, u) && !SpentVisibly(db, seen, w, u.utxo.outpoint) {
      OnChainIsRow(db, seen, w, u);
      RecordedSpends(db, seen, w, u.utxo.blockHash, u.utxo.outpoint);
      assert RowUtxo(db, u.utxo.outpoint, u.utxo.blockHash) in GetUtxos(db);
    }
  }

  /** What `get_txos_for_address` reports: all of them, spent or not, at the heights of their blocks. */
  lemma {:induction false} TxosReported(db: ChainDb, seen: Seen, w: World, address: Address, txo: Txo)
    requires DbInv(db, seen, w)
    ensures txo in GetTxosForAddress(db, address) <==> OnChain(db, seen, w, AddressUtxo(address, txo))
  {
  }

  /** The unspent watched outputs of the chain, the set `get_utxos` is meant to be. */
  ghost predicate Unspent(db: ChainDb, seen: Seen, w: World, u: AddressUtxo) {
    OnChain(db, seen, w, u) && !Spent(db, w, u.utxo.outpoint)
  }

  /** Every transaction of the chain that spends a watched output pays a watched address too. */
  ghost predicate SpendersPayUs(db: ChainDb, seen: Seen, w: World) {
    forall b, b', op, k ::
        b in db.blocks && Makes(w, seen, b, op) && b' in db.blocks && SpendsIn(w, b', k, op) ==>
        Recorded(w, seen, b', k.spendingTx)
  }

  /** No outpoint is spent by two transactions of the chain. */
  ghost predicate NoDoubleSpend(w: World, blocks: map<BlockHash, BlockHeader>) {
    forall op, b, b', k, k' ::
        b in blocks && b' in blocks && SpendsIn(w, b, k, op) && SpendsIn(w, b', k', op) ==> b == b' && k == k'
  }

  /** `get_utxos` is the unspent watched outputs exactly when every spender of one also pays a watched address. */
  lemma {:induction false} UtxosExactWhen(db: ChainDb, seen: Seen, w: World)
    requires DbInv(db, seen, w) && SaneChain(w, db.blocks) && NoDoubleSpend(w, db.blocks)
    ensures (forall u :: u in GetUtxos(db) <==> Unspent(db, seen, w, u)) <==> SpendersPayUs(db, seen, w)
  {
    if SpendersPayUs(db, seen, w) {
      forall u ensures u in GetUtxos(db) <==> Unspent(db, seen, w, u) {
        UtxosReported(db, seen, w, u);
      }
    } else {
      var b, b', op, k :| b in db.blocks && Makes(w, seen, b, op) && b' in db.blocks && SpendsIn(w, b', k, op)
          && !Recorded(w, seen, b', k.spendingTx);
      var out := w.txs[op.txid].outputs[op.vout];
      var u := AddressUtxo(out.address.value, Txo(b, db.blocks[b].height, op, out.amount));
      UtxosReported(db, seen, w, u);
      assert Spent(db, w, op) && !Unspent(db, seen, w, u);
      assert !SpentVisibly(db, seen, w, op);
      assert u in GetUtxos(db);
    }
  }

  // A user funds a swap in block 1 and takes the money back in block 2.
  const FUND := Tx(10, [], [TxOutput(Some(7), 1000)])
  const REFUND := Tx(20, [OutPoint(10, 0)], [TxOutput(Some(99), 900)])
  const FUNDED := AddressUtxo(7, Txo(1, 1, OutPoint(10, 0), 1000))
  const REFUNDED := SpentTxo(OutPoint(10, 0), 20, 0)

  function AfterBoth(): ChainDb {
    var empty := ChainDb(map[], map[], map[], {}, {7});
    AddBlock(AddBlock(empty, BlockHeader(1, 1, 0), [FUNDED], []), BlockHeader(2, 2, 1), [], [REFUNDED])
  }

  lemma {:induction false} AfterBothTables()
    ensures var db := AfterBoth();
            && db.blocks == map[1 := BlockHeader(1, 1, 0), 2 := BlockHeader(2, 2, 1)]
            && db.txOutputs == map[OutPoint(10, 0) := OutputRow(7, 1000)]
            && db.txInputs == map[InputKey(20, 0) := OutPoint(10, 0)]
            && db.txBlocks == {TxBlock(10, 1)}
  {
    var empty := ChainDb(map[], map[], map[], {}, {7});
    var db := AddBlock(empty, BlockHeader(1, 1, 0), [FUNDED], []);
    assert db.txOutputs == map[OutPoint(10, 0) := OutputRow(7, 1000)];
    assert TxidsOf([FUNDED], []) == {10} by { assert FUNDED in [FUNDED]; }
    assert OutPoint(10, 0) in db.txOutputs;
    assert TxidsOf([], [REFUNDED]) == {20} by { assert REFUNDED in [REFUNDED]; }
  }

  lemma {:induction false} FundingExtracted()
    ensures Extracted([FUND], BlockHeader(1, 1, 0), {7}, [FUNDED], [])
    ensures Extracted([REFUND], BlockHeader(2, 2, 1), {7}, [], [REFUNDED])
  {
  }

  /**
   The gap is real: the refund spends the watched output and pays only the user,
   so the output stays listed although its address was watched all along.
   */
  lemma {:induction false} RefundStaysListed()
    ensures Extracted([FUND], BlockHeader(1, 1, 0), {7}, [FUNDED], [])
    ensures Extracted([REFUND], BlockHeader(2, 2, 1), {7}, [], [REFUNDED])
    ensures FUNDED in GetUtxos(AfterBoth())
    ensures Spent(AfterBoth(), World(map[1 := [FUND], 2 := [REFUND]], map[10 := FUND, 20 := REFUND]),
        FUNDED.utxo.outpoint)
  {
    FundingExtracted();
    AfterBothTables();
    assert RowUtxo(AfterBoth(), OutPoint(10, 0), 1) == FUNDED;
    assert SpendsIn(World(map[1 := [FUND], 2 := [REFUND]], map[10 := FUND, 20 := REFUND]), 2, InputKey(20, 0),
        OutPoint(10, 0));
  }
}

/** The repository over those tables, changed in place. */
module ChainRepository {
  import opened Types
  import opened Headers
  import opened ChainTables

  /** The table holds exactly the headers of the path. */
  ghost predicate StoresPath(blocks: map<BlockHash, BlockHeader>, path: seq<BlockHeader>) {
    && blocks.Keys == Hashes(path)
    && forall h :: h in path ==> h.hash in blocks && blocks[h.hash] == h
  }

  /** The rows of `SELECT ... FROM blocks ORDER BY height DESC`. */
  ghost predicate IsListing(blocks: map<BlockHash, BlockHeader>, headers: seq<BlockHeader>) {
    && (forall h :: h in headers <==> h.hash in blocks && blocks[h.hash] == h)
    && (forall i, j :: 0 <= i < j < |headers| ==> headers[i] != headers[j] && headers[i].height >= headers[j].height)
  }

  lemma {:induction false} TipIsHighest(tree: HeaderTree, path: seq<BlockHeader>, h: BlockHeader)
    requires WellFormed(tree) && IsPath(tree, path) && h in path
    ensures h.height <= Last(path).height && (h.height == Last(path).height ==> h == Last(path))
  {
    var i :| 0 <= i < |path| && path[i] == h;
    Heights(tree, path, i);
    Heights(tree, path, |path| - 1);
  }

  lemma {:induction false} MembersOfPath(blocks: map<BlockHash, BlockHeader>, path: seq<BlockHeader>, h: BlockHeader)
    requires StoresPath(blocks, path)
    ensures h in path <==> h.hash in blocks && blocks[h.hash] == h
  {
  }

  lemma {:induction false} SomeMember(headers: seq<BlockHeader>)
    ensures headers == [] || exists h :: h in headers
  {
    if headers != [] { assert headers[0] in headers; }
  }

  /** A listing of a stored path is that path from the tip down, whatever the database does about ties. */
  lemma {:induction false} ListingIsPath(tree: HeaderTree, headers: seq<BlockHeader>, path: seq<BlockHeader>)
    requires WellFormed(tree) && IsPath(tree, path)
    requires forall h :: h in headers <==> h in path
    requires forall i, j ::
        0 <= i < j < |headers| ==> headers[i] != headers[j] && headers[i].height >= headers[j].height
    ensures headers == Reverse(path)
    decreases |path|
  {
    hide WellFormed, IsPath;
    PathIsNotEmpty(tree, path);
    ListingStartsAtTip(tree, headers, path);
    var tip, below, rest := Last(path), path[..|path| - 1], headers[1..];
    assert path == below + [tip];
    assert headers == [tip] + rest;
    RestIsBelow(tree, headers, path);
    if below == [] {
      SomeMember(rest);
    } else {
      PathWithoutTip(tree, path);
      ListingIsPath(tree, rest, below);
    }
  }

  lemma {:induction false} PathIsNotEmpty(tree: HeaderTree, path: seq<BlockHeader>)
    requires IsPath(tree, path)
    ensures path != []
  {
  }

  lemma {:induction false} PathWithoutTip(tree: HeaderTree, path: seq<BlockHeader>)
    requires IsPath(tree, path) && |path| > 1
    ensures IsPath(tree, path[..|path| - 1])
  {
    var below := path[..|path| - 1];
    forall i | 0 < i < |below| ensures ChildAt(below, i) { assert ChildAt(path, i); }
  }

  lemma {:induction false} ListingStartsAtTip(tree: HeaderTree, headers: seq<BlockHeader>, path: seq<BlockHeader>)
    requires WellFormed(tree) && IsPath(tree, path)
    requires forall h :: h in headers <==> h in path
    requires forall i, j ::
        0 <= i < j < |headers| ==> headers[i] != headers[j] && headers[i].height >= headers[j].height
    ensures headers != [] && headers[0] == Last(path)
  {
    var tip := Last(path);
    assert tip in path;
    var j :| 0 <= j < |headers| && headers[j] == tip;
    assert headers[0] in path;
    TipIsHighest(tree, path, headers[0]);
  }

  lemma {:induction false} RestIsBelow(tree: HeaderTree, headers: seq<BlockHeader>, path: seq<BlockHeader>)
    requires WellFormed(tree) && IsPath(tree, path)
    requires forall h :: h in headers <==> h in path
    requires forall i, j :: 0 <= i < j < |headers| ==> headers[i] != headers[j]
    requires headers != [] && headers[0] == Last(path)
    ensures forall h :: h in headers[1..] <==> h in path[..|path| - 1]
  {
    var tip, below, rest := Last(path), path[..|path| - 1], headers[1..];
    assert path == below + [tip] && headers == [tip] + rest;
    assert tip !in below by {
      if tip in below {
        var i :| 0 <= i < |below| && below[i] == tip;
        HashesDistinct(tree, path, i, |path| - 1);
      }
    }
    forall h ensures h in rest <==> h in below {
      assert h in headers <==> h == tip || h in rest;
      assert h in path <==> h in below || h == tip;
    }
  }

  class Repository {
    var blocks: map<BlockHash, BlockHeader>
    var txOutputs: map<OutPoint, OutputRow>
    var txInputs: map<InputKey, OutPoint>
    var txBlocks: set<TxBlock>
    var watch: set<Address>

    function Db(): ChainDb
      reads this
    {
      ChainDb(blocks, txOutputs, txInputs, txBlocks, watch)
    }

    constructor ()
      ensures Db() == ChainDb(map[], map[], map[], {}, {})
    {
      blocks, txOutputs, txInputs, txBlocks, watch := map[], map[], map[], {}, {};
    }

    method AddBlock(header: BlockHeader, outs: seq<AddressUtxo>, ins: seq<SpentTxo>)
      modifies this
      ensures Db() == ChainTables.AddBlock(old(Db()), header, outs, ins)
    {
      if header.hash !in blocks { blocks := blocks[header.hash := header]; }
      txOutputs := InsertOutputs(outs, txOutputs, watch);
      txInputs := InsertInputs(ins, txInputs, txOutputs);
      txBlocks := txBlocks +
        set x | x in TxidsOf(outs, ins) && (HasOutputRow(txOutputs, x) || AnySelfSpend(txInputs)) ::
            TxBlock(x, header.hash);
    }

    method UndoBlock(hash: BlockHash)
      modifies this
      ensures Db() == ChainTables.UndoBlock(old(Db()), hash)
    {
      blocks := blocks - {hash};
      txBlocks := set x | x in txBlocks && x.block != hash;
    }

    /** Other tasks add addresses at any time. */
    method OthersWatch()
      modifies this
      ensures watch >= old(watch) && Db() == old(Db()).(watch := watch)
    {
      var more: set<Address> := *;
      watch := watch + more;
    }

    method FilterWatchAddresses(addresses: seq<Address>) returns (watched: seq<Address>)
      ensures forall a :: a in watched <==> a in addresses && a in watch
    {
      watched := [];
      for i := 0 to |addresses|
        invariant forall a :: a in watched <==> a in addresses[..i] && a in watch
      {
        if addresses[i] in watch { watched := watched + [addresses[i]]; }
      }
    }

    method GetBlockHeaders() returns (headers: seq<BlockHeader>)
      requires forall b :: b in blocks ==> blocks[b].hash == b
      ensures IsListing(blocks, headers)
    {
      headers := [];
      var remaining := blocks.Keys;
      while remaining != {}
        invariant remaining <= blocks.Keys
        invariant forall h :: h in headers <==> h.hash in blocks && blocks[h.hash] == h && h.hash !in remaining
        invariant forall i, j ::
            0 <= i < j < |headers| ==> headers[i] != headers[j] && headers[i].height >= headers[j].height
        invariant forall i, b :: 0 <= i < |headers| && b in remaining ==> headers[i].height >= blocks[b].height
        decreases remaining
      {
        var b := Highest(remaining);
        headers := headers + [blocks[b]];
        remaining := remaining - {b};
      }
    }

    method Highest(hashes: set<BlockHash>) returns (b: BlockHash)
      requires hashes != {} && hashes <= blocks.Keys
      ensures b in hashes && forall c :: c in hashes ==> blocks[c].height <= blocks[b].height
    {
      b :| b in hashes;
      var rest := hashes - {b};
      while rest != {}
        invariant rest <= hashes && b in hashes
        invariant forall c :: c in hashes - rest ==> blocks[c].height <= blocks[b].height
        decreases rest
      {
        var c :| c in rest;
        if blocks[c].height > blocks[b].height { b := c; }
        rest := rest - {c};
      }
    }
  }
}
