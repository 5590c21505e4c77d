/**
 The chain monitor: how a block is processed, how the tip sync follows the node
 through reorgs, and how it picks up again after a stop anywhere.
 */
module ChainMonitor {
  import opened Types
  import opened Headers
  import opened MemChain
  import opened ChainTables
  import opened ChainRepository

  // ------------------------------------------------------- process_block

  /** An output found in a block, by address. */
  datatype Found = Found(outpoint: OutPoint, amount: nat)

  type FoundBy = map<Address, seq<Found>>

  predicate In(found: FoundBy, a: Address, f: Found) { a in found && f in found[a] }

  predicate FoundIn(tx: Tx, n: nat, a: Address, f: Found) {
    f.outpoint.txid == tx.txid && f.outpoint.vout < n && Pays(tx, f.outpoint.vout, a, f.amount)
  }

  ghost predicate FoundInTxs(txs: seq<Tx>, a: Address, f: Found) {
    exists tx :: tx in txs && FoundIn(tx, |tx.outputs|, a, f)
  }

  method CollectOutputs(tx: Tx, addresses: seq<Address>, found: FoundBy)
      returns (addresses': seq<Address>, found': FoundBy)
    requires forall a :: a in found ==> a in addresses
    ensures forall a :: a in found' ==> a in addresses'
    ensures forall a, f :: In(found', a, f) <==> In(found, a, f) || FoundIn(tx, |tx.outputs|, a, f)
  {
    addresses', found' := addresses, found;
    for v := 0 to |tx.outputs|
      invariant forall a :: a in found' ==> a in addresses'
      invariant forall a, f :: In(found', a, f) <==> In(found, a, f) || FoundIn(tx, v, a, f)
    {
      var output := tx.outputs[v];
      if output.address.Some? {
        var a := output.address.value;
        ghost var before := found';
        var entry := if a in found' then found'[a] else [];
        var f := Found(OutPoint(tx.txid, v), output.amount);
        addresses' := addresses' + [a];
        found' := found'[a := entry + [f]];
        assert forall b, g :: In(found', b, g) <==> In(before, b, g) || (b == a && g == f);
      }
    }
  }

  method CollectInputs(tx: Tx, spent: seq<SpentTxo>) returns (spent': seq<SpentTxo>)
    ensures forall s :: s in spent' <==> s in spent || (s.spendingTx == tx.txid && Spends(tx, s.inputIndex, s.outpoint))
  {
    spent' := spent;
    for vin := 0 to |tx.inputs|
      invariant forall s ::
          s in spent' <==>
            s in spent || (s.spendingTx == tx.txid && s.inputIndex < vin && Spends(tx, s.inputIndex, s.outpoint))
    {
      spent' := spent' + [SpentTxo(tx.inputs[vin], tx.txid, vin)];
    }
  }

  /** All outputs with an address and all inputs of a block. */
  method CollectBlock(txs: seq<Tx>) returns (addresses: seq<Address>, found: FoundBy, spent: seq<SpentTxo>)
    ensures forall a :: a in found ==> a in addresses
    ensures forall a, f :: In(found, a, f) <==> FoundInTxs(txs, a, f)
    ensures forall s :: s in spent <==> IsSpend(txs, s)
  {
    addresses, found, spent := [], map[], [];
    for i := 0 to |txs|
      invariant forall a :: a in found ==> a in addresses
      invariant forall a, f :: In(found, a, f) <==> FoundInTxs(txs[..i], a, f)
      invariant forall s :: s in spent <==> IsSpend(txs[..i], s)
    {
      addresses, found := CollectOutputs(txs[i], addresses, found);
      spent := CollectInputs(txs[i], spent);
      assert txs[..i + 1] == txs[..i] + [txs[i]];
    }
    assert txs[..|txs|] == txs;
  }

  /** The outputs found for one address, as rows. */
  method RowsFor(header: BlockHeader, a: Address, found: seq<Found>, rows: seq<AddressUtxo>)
      returns (rows': seq<AddressUtxo>)
    ensures forall u :: u in rows' <==> u in rows || (u.address == a && Found(u.utxo.outpoint, u.utxo.value) in found
                                                        && u.utxo.blockHash == header.hash
                                                            && u.utxo.blockHeight == header.height)
  {
    rows' := rows;
    for i := 0 to |found|
      invariant forall u ::
          u in rows' <==> u in rows || (u.address == a && Found(u.utxo.outpoint, u.utxo.value) in found[..i]
                                                            && u.utxo.blockHash == header.hash
                                                                && u.utxo.blockHeight == header.height)
    {
      rows' := rows' + [AddressUtxo(a, Txo(header.hash, header.height, found[i].outpoint, found[i].amount))];
    }
  }

  /** Only outputs to watched addresses go to the repository, and all inputs do. */
  method Extract(repo: Repository, header: BlockHeader, txs: seq<Tx>)
      returns (outs: seq<AddressUtxo>, ins: seq<SpentTxo>)
    ensures Extracted(txs, header, repo.watch, outs, ins)
  {
    var addresses, found;
    addresses, found, ins := CollectBlock(txs);
    var watched := repo.FilterWatchAddresses(addresses);
    outs := [];
    for i := 0 to |watched|
      invariant forall u ::
          u in outs <==> u.address in watched[..i] && In(found, u.address, Found(u.utxo.outpoint, u.utxo.value))
                                           && u.utxo.blockHash == header.hash && u.utxo.blockHeight == header.height
    {
      if watched[i] in found {
        outs := RowsFor(header, watched[i], found[watched[i]], outs);
      }
    }
    assert watched[..|watched|] == watched;
    forall u ensures u in outs <==> IsWatchedOutput(txs, header, repo.watch, u) {
      var f := Found(u.utxo.outpoint, u.utxo.value);
      assert In(found, u.address, f) <==> FoundInTxs(txs, u.address, f);
      if IsWatchedOutput(txs, header, repo.watch, u) {
        var tx :| tx in txs && tx.txid == u.utxo.outpoint.txid
            && Pays(tx, u.utxo.outpoint.vout, u.address, u.utxo.value);
        assert FoundIn(tx, |tx.outputs|, u.address, f);
      }
    }
  }

  // --------------------------------------------------------------- syncing

  function BlocksOf(path: seq<BlockHeader>): (blocks: map<BlockHash, BlockHeader>)
  {
    if path == [] then map[] else BlocksOf(path[..|path| - 1])[Last(path).hash := Last(path)]
  }

  /** Putting a block on top. */
  lemma {:induction false} StoresMore(tree: HeaderTree, blocks: map<BlockHash, BlockHeader>, path: seq<BlockHeader>,
      h: BlockHeader)
    requires WellFormed(tree) && IsPath(tree, path) && StoresPath(blocks, path) && InTree(tree, h)
        && h.prev == Last(path).hash
    ensures IsPath(tree, path + [h]) && StoresPath(blocks[h.hash := h], path + [h])
  {
    PathOfConcat(tree, path, [h]);
    HashesOfConcat(path, [h]);
    assert Hashes([h]) == {h.hash} by { assert [h][0] == h; }
    NeighboursAreNew(tree, path, h);
    forall g | g in path ensures g.hash != h.hash {
      var i :| 0 <= i < |path| && path[i] == g;
      assert g.hash in Hashes(path);
    }
  }

  lemma {:induction false} BlocksOfPath(tree: HeaderTree, path: seq<BlockHeader>)
    requires WellFormed(tree) && IsPath(tree, path)
    ensures StoresPath(BlocksOf(path), path)
  {
    var below, tip := path[..|path| - 1], Last(path);
    assert path == below + [tip];
    if below == [] {
      assert Hashes(path) == {tip.hash} by { assert path[0] == tip; }
    } else {
      PathOfSlice(tree, path, 0, |path| - 1);
      assert path[0..|path| - 1] == below;
      BlocksOfPath(tree, below);
      assert ChildAt(path, |path| - 1);
      StoresMore(tree, BlocksOf(below), below, tip);
    }
  }

  /** A path of valid blocks. */
  ghost predicate SanePath(w: World, path: seq<BlockHeader>) {
    SaneTxs(w) && SaneChain(w, BlocksOf(path)) && NoDoubleSpend(w, BlocksOf(path))
  }

  /** What is left of a valid chain is valid. */
  lemma {:induction false} SaneBelow(w: World, blocks: map<BlockHash, BlockHeader>, fewer: map<BlockHash, BlockHeader>)
    requires SaneChain(w, blocks)
    requires forall b :: b in fewer ==> b in blocks && fewer[b] == blocks[b]
    ensures SaneChain(w, fewer) && (NoDoubleSpend(w, blocks) ==> NoDoubleSpend(w, fewer))
  {
  }

  lemma {:induction false} StoredBelow(tree: HeaderTree, blocks: map<BlockHash, BlockHeader>, path: seq<BlockHeader>,
      n: nat)
    requires WellFormed(tree) && IsPath(tree, path) && n <= |path| && StoresPath(blocks, path[..n])
    ensures forall b :: b in blocks ==> b in BlocksOf(path) && blocks[b] == BlocksOf(path)[b]
  {
    BlocksOfPath(tree, path);
    forall b | b in blocks ensures b in BlocksOf(path) && blocks[b] == BlocksOf(path)[b] {
      assert b in Hashes(path[..n]);
      var i :| 0 <= i < n && path[..n][i].hash == b;
      assert path[..n][i] in path[..n] && path[i] in path;
    }
  }

  /** The lower part of a valid path is valid. */
  lemma {:induction false} SanePrefix(tree: HeaderTree, w: World, path: seq<BlockHeader>, n: nat)
    requires WellFormed(tree) && IsPath(tree, path) && SanePath(w, path) && 0 < n <= |path|
    ensures SanePath(w, path[..n])
  {
    hide SaneTxs, SaneChain, NoDoubleSpend;
    PathOfSlice(tree, path, 0, n);
    assert path[0..n] == path[..n];
    BlocksOfPath(tree, path[..n]);
    StoredBelow(tree, BlocksOf(path[..n]), path, n);
    SaneBelow(w, BlocksOf(path), BlocksOf(path[..n]));
  }

  /** Taking the tip out of the table. */
  lemma {:induction false} StoresLess(tree: HeaderTree, blocks: map<BlockHash, BlockHeader>, path: seq<BlockHeader>)
    requires WellFormed(tree) && IsPath(tree, path) && StoresPath(blocks, path)
    ensures StoresPath(blocks - {Last(path).hash}, path[..|path| - 1])
  {
    var below, tip := path[..|path| - 1], Last(path);
    assert path == below + [tip];
    HashesOfConcat(below, [tip]);
    assert Hashes([tip]) == {tip.hash} by { assert [tip][0] == tip; }
    assert tip.hash !in Hashes(below) by {
      if tip.hash in Hashes(below) {
        var i :| 0 <= i < |below| && below[i].hash == tip.hash;
        HashesDistinct(tree, path, i, |path| - 1);
      }
    }
    forall h | h in below ensures h.hash != tip.hash {
      var i :| 0 <= i < |below| && below[i] == h;
      assert h.hash in Hashes(below);
    }
  }

  /** A stored part of a path lies no higher than its last block. */
  lemma {:induction false} StoredIsLower(tree: HeaderTree, blocks: map<BlockHash, BlockHeader>,
      target: seq<BlockHeader>, n: nat, m: nat)
    requires WellFormed(tree) && IsPath(tree, target)
    requires n < |target| && (m == n || m == n + 1) && m > 0 && StoresPath(blocks, target[..m])
    ensures forall b :: b in blocks && b != target[n].hash ==> blocks[b].height < target[n].height
  {
    Heights(tree, target, n);
    forall b | b in blocks && b != target[n].hash ensures blocks[b].height < target[n].height {
      assert b in Hashes(target[..m]);
      var i :| 0 <= i < m && target[..m][i].hash == b;
      assert target[..m][i] in target[..m];
      Heights(tree, target, i);
    }
  }

  /** The next block of the target may be processed once everything up to it is stored. */
  lemma {:induction false} MayProcessNext(tree: HeaderTree, w: World, db: ChainDb, target: seq<BlockHeader>, n: nat,
      m: nat)
    requires WellFormed(tree) && IsPath(tree, target) && SanePath(w, target)
    requires n < |target| && (m == n || m == n + 1) && m > 0 && StoresPath(db.blocks, target[..m])
    ensures MayProcess(db, w, target[n])
  {
    hide SaneChain, SaneTxs, IsPath, StoresPath, WellFormed;
    var h := target[n];
    StoredIsLower(tree, db.blocks, target, n, m);
    StoredBelow(tree, db.blocks, target, m);
    InBlocksOf(tree, target, n);
    SaneBelow(w, BlocksOf(target), db.blocks[h.hash := h]);
    SaneHasContents(w, db.blocks[h.hash := h], h.hash);
  }

  lemma {:induction false} SaneHasContents(w: World, blocks: map<BlockHash, BlockHeader>, b: BlockHash)
    requires SaneChain(w, blocks) && b in blocks
    ensures b in w.contents
  {
  }

  lemma {:induction false} InBlocksOf(tree: HeaderTree, path: seq<BlockHeader>, n: nat)
    requires WellFormed(tree) && IsPath(tree, path) && n < |path|
    ensures path[n].hash in BlocksOf(path) && BlocksOf(path)[path[n].hash] == path[n]
  {
    BlocksOfPath(tree, path);
    assert path[n] in path;
  }

  lemma {:induction false} KnownContents(db: ChainDb, w: World, header: BlockHeader)
    requires MayProcess(db, w, header)
    ensures header.hash in w.contents && (header.hash in db.blocks ==> db.blocks[header.hash] == header)
  {
  }

  lemma {:induction false} SaneAlone(tree: HeaderTree, w: World, path: seq<BlockHeader>, n: nat)
    requires WellFormed(tree) && IsPath(tree, path) && SanePath(w, path) && n < |path|
    ensures SanePath(w, [path[n]])
  {
    hide SaneTxs, SaneChain, NoDoubleSpend;
    PathOfSlice(tree, path, n, n + 1);
    assert path[n..n + 1] == [path[n]];
    BlocksOfPath(tree, [path[n]]);
    InBlocksOf(tree, path, n);
    assert Hashes([path[n]]) == {path[n].hash} by { assert [path[n]][0] == path[n]; }
    SaneBelow(w, BlocksOf(path), BlocksOf([path[n]]));
  }

  /** Without its tip a stored path is stored, valid and rightly recorded. */
  lemma {:induction false} TipUndone(tree: HeaderTree, w: World, db: ChainDb, seen: Seen, path: seq<BlockHeader>)
    requires WellFormed(tree) && IsPath(tree, path) && |path| > 1
    requires StoresPath(db.blocks, path) && SanePath(w, path) && DbInv(db, seen, w)
    ensures var below, db' := path[..|path| - 1], UndoBlock(db, Last(path).hash);
            IsPath(tree, below) && StoresPath(db'.blocks, below) && SanePath(w, below) && DbInv(db', seen, w)
  {
    hide SanePath, DbInv, StoresPath;
    StoresLess(tree, db.blocks, path);
    PathOfSlice(tree, path, 0, |path| - 1);
    assert path[0..|path| - 1] == path[..|path| - 1];
    UndoKeepsInv(db, seen, w, Last(path).hash);
    SanePrefix(tree, w, path, |path| - 1);
  }

  /** Two paths from one base that part after block `n`; the second is the one the node reports. */
  ghost predicate Fork(tree: HeaderTree, path: seq<BlockHeader>, target: seq<BlockHeader>, n: nat) {
    && WellFormed(tree) && IsPath(tree, path) && IsPath(tree, target) && path[0] == target[0]
    && n < |path| && n < |target| && path[..n + 1] == target[..n + 1]
    && forall m :: n < m < |target| ==> target[m].hash !in Hashes(path)
  }

  lemma {:induction false} ForkFound(tree: HeaderTree, path: seq<BlockHeader>, target: seq<BlockHeader>, n: nat)
    requires WellFormed(tree) && IsPath(tree, path) && IsPath(tree, target) && path[0] == target[0]
    requires n < |target| && target[n].hash in Hashes(path)
    requires forall m :: n < m < |target| ==> target[m].hash !in Hashes(path)
    ensures Fork(tree, path, target, n)
  {
    var i :| 0 <= i < |path| && path[i].hash == target[n].hash;
    PathsAgree(tree, path, target, i, n);
  }

  /** Coming down from the tip, the new chain first knows the block at the fork. */
  lemma {:induction false} KnownOnlyAtFork(tree: HeaderTree, path: seq<BlockHeader>, target: seq<BlockHeader>, n: nat,
      m: nat)
    requires Fork(tree, path, target, n) && n <= m < |path|
    ensures path[m].hash in Hashes(target[n..]) <==> m == n
  {
    assert path[m].hash in Hashes(path);
    if path[m].hash in Hashes(target[n..]) {
      var j :| 0 <= j < |target[n..]| && target[n..][j].hash == path[m].hash;
      PathsAgree(tree, path, target, m, n + j);
    }
    if m == n {
      assert path[..n + 1][n] == target[..n + 1][n] == target[n..][0];
    }
  }

  lemma {:induction false} DroppedAreGone(tree: HeaderTree, path: seq<BlockHeader>, target: seq<BlockHeader>, n: nat)
    requires Fork(tree, path, target, n)
    ensures forall h :: h in path[n + 1..] ==> h !in target
  {
    forall h | h in path[n + 1..] ensures h !in target {
      var i :| 0 <= i < |path[n + 1..]| && path[n + 1..][i] == h;
      assert path[n + 1 + i].hash in Hashes(path);
      if h in target {
        var j :| 0 <= j < |target| && target[j] == h;
        PathsAgree(tree, path, target, n + 1 + i, j);
      }
    }
  }

  lemma {:induction false} RetipGivesTarget(tree: HeaderTree, path: seq<BlockHeader>, target: seq<BlockHeader>, n: nat,
      k: nat,
      result: seq<BlockHeader>)
    requires Fork(tree, path, target, n)
    requires k < |path| && path[k] == target[n..][0] && result == path[..k] + target[n..]
    ensures result == target
  {
    assert path[..n + 1][n] == target[..n + 1][n];
    HashesDistinct(tree, path, k, n);
    assert path[..n] == path[..n + 1][..n] == target[..n];
  }

  lemma {:induction false} NeighboursDiffer(tree: HeaderTree, path: seq<BlockHeader>, i: nat)
    requires WellFormed(tree) && IsPath(tree, path) && 0 < i < |path|
    ensures path[i] != path[i - 1] && path[i].prev == path[i - 1].hash
  {
    Heights(tree, path, i);
    Heights(tree, path, i - 1);
    assert ChildAt(path, i);
  }

  /** Stepping down: with `top` blocks left, the next one to undo is listed at `|path| - top`. */
  lemma {:induction false} StepDown(path: seq<BlockHeader>, headers: seq<BlockHeader>, top: nat)
    requires headers == Reverse(path) && 0 < top <= |path|
    ensures headers[|path| - top] == path[top - 1] == Last(path[..top])
    ensures path[..top][..top - 1] == path[..top - 1]
    ensures headers[..|path| - top + 1] == headers[..|path| - top] + [path[top - 1]]
  {
  }

  lemma {:induction false} ReverseOfSuffix(path: seq<BlockHeader>, n: nat)
    requires n <= |path|
    ensures Reverse(path)[..|path| - n] == Reverse(path[n..])
  {
  }

  /** How a round of syncing ended; errors and cancellation look alike from here. */
  datatype Outcome = Completed | Stopped

  /** The last chain reported in any of the lives, if there is one. */
  function Latest(stored: seq<BlockHeader>, lives: seq<seq<seq<BlockHeader>>>): seq<BlockHeader> {
    if lives == [] then stored else
    var last := lives[|lives| - 1];
    if last == [] then Latest(stored, lives[..|lives| - 1]) else last[|last| - 1]
  }

  class Monitor {
    const tree: HeaderTree            // what the node answers to header queries
    const world: World                // what it answers to block queries
    const repo: Repository
    ghost var stored: seq<BlockHeader>   // the path in the blocks table
    ghost var seen: Seen
    ghost var undone: seq<BlockHeader>   // blocks undone so far, in order

    constructor (tree: HeaderTree, world: World, repo: Repository)
      ensures this.tree == tree && this.world == world && this.repo == repo
      ensures stored == [] && seen == map[] && undone == []
    {
      this.tree, this.world, this.repo := tree, world, repo;
      stored, seen, undone := [], map[], [];
    }

    /** The tables are right, and are those of one path of valid blocks. */
    ghost predicate Ready()
      reads this, repo
    {
      && WellFormed(tree) && IsPath(tree, stored)
      && StoresPath(repo.blocks, stored) && SanePath(world, stored)
      && DbInv(repo.Db(), seen, world)
    }

    /** A chain the node may report: valid blocks on top of our base. */
    ghost predicate Reportable(target: seq<BlockHeader>, base: BlockHeader) {
      IsPath(tree, target) && target[0] == base && SanePath(world, target)
    }

    method ProcessBlock(header: BlockHeader)
      requires Ready() && MayProcess(repo.Db(), world, header) && InTree(tree, header)
      requires header == Last(stored) || (header.prev == Last(stored).hash && SanePath(world, stored + [header]))
      modifies repo, this`stored, this`seen
      ensures Ready()
      ensures stored == if header == Last(old(stored)) then old(stored) else old(stored) + [header]
      ensures repo.watch >= old(repo.watch) && seen == old(seen)[header.hash := old(repo.watch)]
    {
      hide SanePath, DbInv, MayProcess;
      ghost var db := repo.Db();
      KnownContents(db, world, header);
      var outs, ins := Extract(repo, header, world.contents[header.hash]);
      repo.OthersWatch();
      AddAfterWatchKeepsInv(db, repo.watch, seen, world, header, outs, ins);
      assert db.(watch := db.watch + repo.watch) == repo.Db();
      if header == Last(stored) {
        assert header in stored;
      } else {
        NeighboursAreNew(tree, stored, header);
        StoresMore(tree, repo.blocks, stored, header);
        stored := stored + [header];
      }
      repo.AddBlock(header, outs, ins);
      seen := seen[header.hash := db.watch];
    }

    method UndoTip(block: BlockHeader)
      requires Ready() && |stored| > 1 && block == Last(stored)
      modifies repo, this`stored, this`undone
      ensures Ready() && repo.watch == old(repo.watch)
      ensures stored == old(stored)[..|old(stored)| - 1] && undone == old(undone) + [block]
    {
      hide IsPath, StoresPath, SanePath, DbInv, WellFormed;
      TipUndone(tree, world, repo.Db(), seen, stored);
      repo.UndoBlock(block.hash);
      undone := undone + [block];
      stored := stored[..|stored| - 1];
    }

    method OthersWatch()
      requires Ready()
      modifies repo
      ensures Ready() && repo.watch >= old(repo.watch) && repo.blocks == old(repo.blocks)
    {
      ghost var db := repo.Db();
      repo.OthersWatch();
      WatchKeepsInv(db, seen, world, repo.watch);
      assert db.(watch := db.watch + repo.watch) == repo.Db();
    }

    /** Errors of the node or the database, and cancellation: they can stop a round between any two calls. */
    method Interrupted(mayStop: bool) returns (stop: bool)
      ensures stop ==> mayStop
    {
      stop := *;
      stop := stop && mayStop;
    }

    /** From the node's tip back to the first block the chain knows; the height of the current header runs down. */
    method WalkBack(existing: Chain, target: seq<BlockHeader>, mayStop: bool)
        returns (outcome: Outcome, newChain: Chain, ghost n: nat)
      requires WellFormed(tree) && existing.Valid() && existing.tree == tree
      requires IsPath(tree, target) && target[0] == existing.path[0]
      ensures fresh(newChain) && newChain.Valid() && newChain.tree == tree
      ensures n < |target| && newChain.path == target[n..]
      ensures outcome.Completed? ==> Fork(tree, existing.path, target, n)
      ensures outcome.Stopped? ==> mayStop
    {
      var current := tree[Last(target).hash];
      newChain := new Chain(tree, current);
      n := |target| - 1;
      assert target[n..] == [current];
      assert target[0].hash in Hashes(existing.path);
      var known := existing.ContainsBlock(current.hash);
      while !known
        invariant fresh(newChain) && newChain.Valid() && newChain.tree == tree
        invariant n < |target| && newChain.path == target[n..] && current == target[n]
        invariant known <==> current.hash in Hashes(existing.path)
        invariant forall m :: n < m < |target| ==> target[m].hash !in Hashes(existing.path)
        decreases current.height
      {
        var stop := Interrupted(mayStop);
        if stop { return Stopped, newChain, n; }
        Heights(tree, target, n);
        Heights(tree, target, n - 1);
        assert ChildAt(target, n);
        current := tree[current.prev];
        var done := newChain.Prepend(current);
        n := n - 1;
        known := existing.ContainsBlock(current.hash);
      }
      ForkFound(tree, existing.path, target, n);
      outcome := Completed;
    }

    /** Undoes the blocks above the fork, tip first. */
    method UndoStale(existing: Chain, newChain: Chain, mayStop: bool, ghost target: seq<BlockHeader>, ghost n: nat)
        returns (outcome: Outcome)
      requires Ready() && existing.Valid() && newChain.Valid()
      requires stored == existing.path && Fork(tree, stored, target, n) && newChain.path == target[n..]
      modifies repo, this`stored, this`undone
      ensures Ready() && stored[0] == target[0] && repo.watch == old(repo.watch)
      ensures outcome.Completed? ==> stored == target[..n + 1] && undone == old(undone) + Reverse(old(stored)[n + 1..])
      ensures outcome.Stopped? ==> mayStop
    {
      hide DbInv, StoresPath, Holds;
      ghost var path := existing.path;
      KnownOnlyAtFork(tree, path, target, n, |path| - 1);
      KnownOnlyAtFork(tree, path, target, n, n);
      var base := newChain.Base();
      var tip := existing.Tip();
      assert path[..n + 1][n] == target[..n + 1][n];
      if base == tip {
        assert base.hash in Hashes(newChain.path);
        assert path[n + 1..] == [] && path[..n + 1] == path;
        return Completed;
      }
      var headers := existing.IterBackwards();
      ReverseOfSuffix(path, n + 1);
      outcome := UndoDownTo(newChain, headers, mayStop, path, target, n);
    }

    method UndoDownTo(newChain: Chain, headers: seq<BlockHeader>, mayStop: bool, ghost path: seq<BlockHeader>,
        ghost target: seq<BlockHeader>, ghost n: nat)
      returns (outcome: Outcome)
      requires Ready() && stored == path && newChain.Valid() && Fork(tree, path, target, n)
          && newChain.path == target[n..]
      requires headers == Reverse(path)
      modifies repo, this`stored, this`undone
      ensures Ready() && stored[0] == target[0] && repo.watch == old(repo.watch)
      ensures outcome.Completed? ==> stored == target[..n + 1] && undone == old(undone) + headers[..|path| - (n + 1)]
      ensures outcome.Stopped? ==> mayStop
    {
      hide DbInv, StoresPath, Holds, SanePath, WellFormed;
      var i := 0;
      var stale := true;
      while stale
        invariant Ready() && repo.watch == old(repo.watch) && newChain.Valid()
        invariant i <= |path| - 1 - n && stored == path[..|path| - i]
        invariant !stale ==> i == |path| - 1 - n
        invariant undone == old(undone) + headers[..i]
        decreases |path| - i, stale
      {
        StepDown(path, headers, |path| - i);
        KnownOnlyAtFork(tree, path, target, n, |path| - i - 1);
        var stop := Interrupted(mayStop);
        if stop { return Stopped; }
        var inNew := newChain.ContainsBlock(headers[i].hash);
        if inNew {
          stale := false;
        } else {
          UndoTip(headers[i]);
          i := i + 1;
        }
      }
      outcome := Completed;
    }

    /** Processes the new chain from the fork up; the fork block itself is processed again. */
    method ProcessNew(newChain: Chain, mayStop: bool, ghost target: seq<BlockHeader>, ghost n: nat)
        returns (outcome: Outcome)
      requires Ready() && newChain.Valid()
      requires n < |target| && stored == target[..n + 1] && newChain.path == target[n..]
          && Reportable(target, stored[0])
      modifies repo, this`stored, this`seen
      ensures Ready() && stored[0] == target[0]
      ensures outcome.Completed? ==> stored == target
      ensures outcome.Stopped? ==> mayStop
      ensures outcome.Completed? ==> forall h :: h in target[n..] ==> h.hash in seen && old(repo.watch) <= seen[h.hash]
    {
      hide DbInv, StoresPath, Holds, SanePath;
      var forwards := newChain.IterForwards();
      for j := 0 to |forwards|
        invariant Ready() && repo.watch >= old(repo.watch)
        invariant stored == if j == 0 then target[..n + 1] else target[..n + j]
        invariant forall i :: 0 <= i < j ==> forwards[i].hash in seen && old(repo.watch) <= seen[forwards[i].hash]
      {
        var stop := Interrupted(mayStop);
        if stop { return Stopped; }
        assert target[..n + j + 1] == target[..n + j] + [target[n + j]];
        ProcessNext(forwards[j], target, n + j, j == 0);
      }
      assert target[..n + |forwards|] == target;
      forall h | h in target[n..] ensures h.hash in seen && old(repo.watch) <= seen[h.hash] {
        var i :| 0 <= i < |forwards| && forwards[i] == h;
      }
      outcome := Completed;
    }

    method ProcessNext(header: BlockHeader, ghost target: seq<BlockHeader>, ghost i: nat, ghost again: bool)
      requires Ready() && i < |target| && header == target[i] && Reportable(target, stored[0])
      requires (again || i > 0) && stored == if again then target[..i + 1] else target[..i]
      modifies repo, this`stored, this`seen
      ensures Ready() && stored == target[..i + 1] && repo.watch >= old(repo.watch)
      ensures exists watch :: watch >= old(repo.watch) && seen == old(seen)[header.hash := watch]
    {
      hide DbInv, StoresPath, SanePath, MayProcess;
      OthersWatch();
      MayProcessNext(tree, world, repo.Db(), target, i, if again then i + 1 else i);
      if !again { NeighboursDiffer(tree, target, i); }
      SanePrefix(tree, world, target, i + 1);
      assert target[..i + 1] == target[..i] + [target[i]];
      ProcessBlock(header);
    }

    /**
     The switch from one chain to another that forked off after block `n`: what
     was undone is the old chain's part above the fork, from the tip down, and all
     of the new chain from the fork on was processed with the addresses now watched.
     */
    ghost predicate Switched(before: seq<BlockHeader>, target: seq<BlockHeader>, n: nat, undone: seq<BlockHeader>,
        undone': seq<BlockHeader>,
                             watch: set<Address>, seen: Seen)
    {
      && n < |before| && n < |target| && before[..n + 1] == target[..n + 1]
      && (forall h :: h in before[n + 1..] ==> h !in target)
      && undone' == undone + Reverse(before[n + 1..])
      && (forall h :: h in target[n..] ==> h.hash in seen && watch <= seen[h.hash])
    }

    /**
     One round. A round that completes leaves the chain and the table equal to
     the node's chain, having undone exactly the blocks the node dropped, tip
     first. One that stops anywhere leaves a table that is some path from the base. It
     completes unless something stops it.
     */
    method DoSync(existing: Chain, target: seq<BlockHeader>, mayStop: bool) returns (outcome: Outcome)
      requires Ready() && existing.Valid() && existing.tree == tree && existing.path == stored
      requires Reportable(target, stored[0])
      modifies existing, repo, this`stored, this`seen, this`undone
      ensures Ready() && stored[0] == old(stored)[0] && existing.Valid()
      ensures outcome.Stopped? ==> mayStop && existing.path == old(existing.path)
      ensures outcome.Completed? ==> existing.path == target && stored == target
      ensures outcome.Completed? ==> exists n: nat ::
          Switched(old(stored), target, n, old(undone), undone, old(repo.watch), seen)
    {
      var stop := Interrupted(mayStop);
      if stop { return Stopped; }
      var newChain;
      ghost var n;
      outcome, newChain, n := WalkBack(existing, target, mayStop);
      if outcome.Completed? {
        outcome := Follow(existing, newChain, mayStop, target, n);
      }
    }

    method Follow(existing: Chain, newChain: Chain, mayStop: bool, ghost target: seq<BlockHeader>, ghost n: nat)
        returns (outcome: Outcome)
      requires Ready() && existing.Valid() && existing.tree == tree && existing.path == stored
      requires Fork(tree, stored, target, n) && Reportable(target, stored[0])
      requires newChain.Valid() && newChain.tree == tree && newChain != existing && newChain.path == target[n..]
      modifies existing, repo, this`stored, this`seen, this`undone
      ensures Ready() && stored[0] == target[0] && existing.Valid()
      ensures outcome.Stopped? ==> mayStop && existing.path == old(existing.path)
      ensures outcome.Completed? ==> existing.path == target && stored == target
      ensures outcome.Completed? ==> Switched(old(stored), target, n, old(undone), undone, old(repo.watch), seen)
    {
      hide DbInv, StoresPath, Holds, SanePath, WellFormed, IsPath;
      ghost var path := stored;
      DroppedAreGone(tree, path, target, n);
      outcome := UndoStale(existing, newChain, mayStop, target, n);
      if outcome.Stopped? { return; }
      outcome := ProcessNew(newChain, mayStop, target, n);
      if outcome.Stopped? { return; }
      Adopt(existing, newChain, target, n);
    }

    method Adopt(existing: Chain, newChain: Chain, ghost target: seq<BlockHeader>, ghost n: nat)
      requires existing.Valid() && newChain.Valid() && existing.tree == newChain.tree == tree && newChain != existing
      requires Fork(tree, existing.path, target, n) && newChain.path == target[n..]
      modifies existing
      ensures existing.Valid() && existing.path == target
    {
      hide Holds, WellFormed, IsPath;
      ghost var path := existing.path;
      assert target[n].hash in Hashes(path) by {
        assert path[..n + 1][n] == target[..n + 1][n];
        assert path[n].hash == target[n].hash;
      }
      var done := existing.Retip(newChain);
      ghost var k :| 0 <= k < |path| && path[k] == newChain.path[0] && existing.path == path[..k] + newChain.path;
      RetipGivesTarget(tree, path, target, n, k, existing.path);
    }

    /** After a stop anywhere, the headers in the table give back exactly the stored path. */
    method Load() returns (r: Result<Chain, ChainError>)
      requires Ready()
      ensures r.Ok? && fresh(r.value) && r.value.Valid() && r.value.tree == tree && r.value.path == stored
    {
      forall b | b in repo.blocks ensures repo.blocks[b].hash == b {
        StoredUnderItsHash(repo.blocks, stored, b);
      }
      var headers := repo.GetBlockHeaders();
      forall h ensures h in headers <==> h in stored {
        MembersOfPath(repo.blocks, stored, h);
      }
      ListingIsPath(tree, headers, stored);
      ListedPath(tree, headers, stored);
      r := FromHeaders(tree, headers);
    }

    /** The very first start: the block twenty below the node's tip becomes the base, unprocessed. */
    method CreateBirthday(target: seq<BlockHeader>, mayStop: bool) returns (outcome: Outcome)
      requires WellFormed(tree) && IsPath(tree, target) && |target| > 20 && SanePath(world, target)
      requires repo.Db() == ChainDb(map[], map[], map[], {}, repo.watch)
      modifies repo, this`stored, this`seen
      ensures outcome.Completed? ==> Ready() && stored == [target[|target| - 21]]
      ensures outcome.Stopped? ==> mayStop && repo.Db() == old(repo.Db())
    {
      var birthday := tree[Last(target).hash];
      for n := 0 to 20
        invariant birthday == target[|target| - 1 - n] && repo.Db() == old(repo.Db())
      {
        var stop := Interrupted(mayStop);
        if stop { return Stopped; }
        assert ChildAt(target, |target| - 1 - n);
        birthday := tree[birthday.prev];
      }
      SaneAlone(tree, world, target, |target| - 21);
      BirthdayInv(repo.Db(), world, birthday);
      repo.AddBlock(birthday, [], []);
      stored, seen := [birthday], map[birthday.hash := {}];
      assert Hashes(stored) == {birthday.hash} by { assert stored[0] == birthday; }
      outcome := Completed;
    }

    /**
     One life of the process: pick up the stored chain, then follow the node round
     by round until something stops it. After each completed round the table is
     the node's chain of that round.
     */
    method Live(targets: seq<seq<BlockHeader>>, mayStop: bool) returns (completed: nat)
      requires Ready() && forall i :: 0 <= i < |targets| ==> Reportable(targets[i], stored[0])
      modifies repo, this`stored, this`seen, this`undone
      ensures Ready() && stored[0] == old(stored)[0] && completed <= |targets|
      ensures completed < |targets| ==> mayStop
      ensures completed == |targets| ==> stored == if targets == [] then old(stored) else targets[|targets| - 1]
    {
      hide DbInv, StoresPath, Holds, SanePath;
      var chain := Load();
      ghost var base := stored[0];
      completed := 0;
      while completed < |targets|
        invariant completed <= |targets|
        invariant Ready() && chain.value.Valid() && chain.value.tree == tree && chain.value.path == stored
            && stored[0] == base
        invariant stored == if completed == 0 then old(stored) else targets[completed - 1]
        invariant fresh(chain.value)
      {
        var outcome := DoSync(chain.value, targets[completed], mayStop);
        if outcome.Stopped? { return; }
        completed := completed + 1;
      }
    }

    /**
     Any number of lives, each ended anywhere: the tables stay right and the base stays put.
     If nothing ever stopped a round, the table is the last chain the node reported.
     */
    method Lives(lives: seq<seq<seq<BlockHeader>>>, mayStop: bool)
      requires Ready() && forall i, j :: 0 <= i < |lives| && 0 <= j < |lives[i]| ==> Reportable(lives[i][j], stored[0])
      modifies repo, this`stored, this`seen, this`undone
      ensures Ready() && stored[0] == old(stored)[0]
      ensures !mayStop ==> stored == Latest(old(stored), lives)
    {
      hide DbInv, StoresPath, SanePath;
      for i := 0 to |lives|
        invariant Ready() && stored[0] == old(stored)[0]
        invariant !mayStop ==> stored == Latest(old(stored), lives[..i])
      {
        assert lives[..i + 1][..i] == lives[..i];
        var completed := Live(lives[i], mayStop);
      }
      assert lives[..|lives|] == lives;
    }

    /** The whole history, from empty tables: a first start, and any number of lives after it. */
    method History(first: seq<BlockHeader>, lives: seq<seq<seq<BlockHeader>>>, mayStop: bool)
        returns (outcome: Outcome)
      requires WellFormed(tree) && IsPath(tree, first) && |first| > 20 && SanePath(world, first)
      requires repo.Db() == ChainDb(map[], map[], map[], {}, repo.watch)
      requires forall i, j :: 0 <= i < |lives| && 0 <= j < |lives[i]| ==> Reportable(lives[i][j], first[|first| - 21])
      modifies repo, this`stored, this`seen, this`undone
      ensures outcome.Completed? ==> Ready() && stored[0] == first[|first| - 21]
      ensures !mayStop ==> stored == Latest([first[|first| - 21]], lives)
      ensures outcome.Stopped? ==> mayStop && repo.Db() == old(repo.Db())
    {
      hide DbInv, StoresPath, SanePath;
      outcome := CreateBirthday(first, mayStop);
      if outcome.Completed? { Lives(lives, mayStop); }
    }

    /**
     What the queries say at any point of any history: `get_txos_for_address` all
     outputs the stored chain pays to addresses watched in time, `get_utxos` those
     not spent by a transaction that itself pays such an address; and this is the
     unspent ones exactly when every spender does.
     */
    lemma {:induction false} QueriesAfterSync()
      requires Ready()
      ensures forall u :: u in GetUtxos(repo.Db())
                     <==> OnChain(repo.Db(), seen, world, u) && !SpentVisibly(repo.Db(), seen, world, u.utxo.outpoint)
      ensures forall u: AddressUtxo ::
          u.utxo in GetTxosForAddress(repo.Db(), u.address) <==> OnChain(repo.Db(), seen, world, u)
      ensures (forall u :: u in GetUtxos(repo.Db()) <==> Unspent(repo.Db(), seen, world, u))
         <==> SpendersPayUs(repo.Db(), seen, world)
    {
      hide DbInv, SaneChain, NoDoubleSpend, OnChain, SpentVisibly, GetUtxos, GetTxosForAddress, Unspent, SpendersPayUs;
      StoredBelow(tree, repo.blocks, stored, |stored|);
      assert stored[..|stored|] == stored;
      SaneBelow(world, BlocksOf(stored), repo.blocks);
      forall u ensures u in GetUtxos(repo.Db())
                  <==> OnChain(repo.Db(), seen, world, u) && !SpentVisibly(repo.Db(), seen, world, u.utxo.outpoint) {
        UtxosReported(repo.Db(), seen, world, u);
      }
      forall u: AddressUtxo ensures u.utxo in GetTxosForAddress(repo.Db(), u.address) <==>
          OnChain(repo.Db(), seen, world, u) {
        TxosReported(repo.Db(), seen, world, u.address, u.utxo);
      }
      UtxosExactWhen(repo.Db(), seen, world);
    }
  }

  lemma {:induction false} StoredUnderItsHash(blocks: map<BlockHash, BlockHeader>, path: seq<BlockHeader>, b: BlockHash)
    requires StoresPath(blocks, path) && b in blocks
    ensures blocks[b].hash == b
  {
  }

  lemma {:induction false} ListedPath(tree: HeaderTree, headers: seq<BlockHeader>, path: seq<BlockHeader>)
    requires IsPath(tree, path) && headers == Reverse(path)
    ensures headers != [] && (forall h :: h in headers ==> InTree(tree, h)) && Reverse(headers) == path
    ensures forall i :: 0 < i < |headers| ==> headers[i - 1].prev == headers[i].hash
  {
    forall i | 0 < i < |headers| ensures headers[i - 1].prev == headers[i].hash {
      assert ChildAt(path, |path| - i);
    }
  }

  lemma {:induction false} BirthdayInv(db: ChainDb, w: World, birthday: BlockHeader)
    requires db == ChainDb(map[], map[], map[], {}, db.watch)
    ensures AddBlock(db, birthday, [], []) == ChainDb(map[birthday.hash := birthday], map[], map[], {}, db.watch)
    ensures DbInv(AddBlock(db, birthday, [], []), map[birthday.hash := {}], w)
  {
  }
}
