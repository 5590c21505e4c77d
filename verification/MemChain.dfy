/** Block headers, the tree they form, and paths in it. */
module Headers {
  import opened Types

  datatype BlockHeader = BlockHeader(hash: BlockHash, height: u64, prev: BlockHash)

  /** All headers there are: a hash names one header, and heights count up along `prev`. */
  type HeaderTree = map<BlockHash, BlockHeader>

  ghost predicate WellFormed(tree: HeaderTree) {
    forall h :: h in tree ==>
      tree[h].hash == h && (tree[h].prev in tree ==> tree[h].height == tree[tree[h].prev].height + 1)
  }

  predicate InTree(tree: HeaderTree, h: BlockHeader) { h.hash in tree && tree[h.hash] == h }

  predicate ChildAt(path: seq<BlockHeader>, i: nat)
    requires 0 < i < |path|
  {
    path[i].prev == path[i - 1].hash
  }

  /** A nonempty run of headers, each the parent of the next. */
  predicate IsPath(tree: HeaderTree, path: seq<BlockHeader>) {
    && path != []
    && (forall i :: 0 <= i < |path| ==> InTree(tree, path[i]))
    && (forall i :: 0 < i < |path| ==> ChildAt(path, i))
  }

  function Last(path: seq<BlockHeader>): BlockHeader
    requires path != []
  {
    path[|path| - 1]
  }

  function Hashes(path: seq<BlockHeader>): set<BlockHash> {
    set i | 0 <= i < |path| :: path[i].hash
  }

  function Reverse(path: seq<BlockHeader>): (r: seq<BlockHeader>)
    ensures |r| == |path|
    ensures forall i :: 0 <= i < |path| ==> r[i] == path[|path| - 1 - i]
  {
    if path == [] then [] else Reverse(path[1..]) + [path[0]]
  }

  lemma {:induction false} Heights(tree: HeaderTree, path: seq<BlockHeader>, i: nat)
    requires WellFormed(tree) && IsPath(tree, path) && i < |path|
    ensures path[i].height == path[0].height + i
  {
    if i > 0 {
      Heights(tree, path, i - 1);
      assert ChildAt(path, i);
    }
  }

  lemma {:induction false} HashesDistinct(tree: HeaderTree, path: seq<BlockHeader>, i: nat, j: nat)
    requires WellFormed(tree) && IsPath(tree, path) && i < |path| && j < |path|
    requires path[i].hash == path[j].hash
    ensures i == j
  {
    Heights(tree, path, i);
    Heights(tree, path, j);
  }

  /** A child of the last header, or the parent of the first, is not on the path yet. */
  lemma {:induction false} NeighboursAreNew(tree: HeaderTree, path: seq<BlockHeader>, h: BlockHeader)
    requires WellFormed(tree) && IsPath(tree, path) && InTree(tree, h)
    requires h.prev == Last(path).hash || path[0].prev == h.hash
    ensures h.hash !in Hashes(path)
  {
    if h.hash in Hashes(path) {
      var i :| 0 <= i < |path| && path[i].hash == h.hash;
      Heights(tree, path, i);
      Heights(tree, path, |path| - 1);
    }
  }

  /** Paths from one base agree wherever they meet. */
  lemma {:induction false} PathsAgree(tree: HeaderTree, a: seq<BlockHeader>, b: seq<BlockHeader>, i: nat, j: nat)
    requires WellFormed(tree) && IsPath(tree, a) && IsPath(tree, b) && a[0] == b[0]
    requires i < |a| && j < |b| && a[i].hash == b[j].hash
    ensures i == j && a[..i + 1] == b[..j + 1]
  {
    Heights(tree, a, i);
    Heights(tree, b, j);
    if i > 0 {
      assert ChildAt(a, i) && ChildAt(b, j);
      PathsAgree(tree, a, b, i - 1, j - 1);
      assert a[..i + 1] == a[..i] + [a[i]];
      assert b[..j + 1] == b[..j] + [b[j]];
    }
  }
}

/** The in-memory chain: blocks in a hash map, each with a link to the next. */
module MemChain {
  import opened Types
  import opened Headers

  datatype ChainError = EmptyChain | InvalidChain | BlockNotFound

  datatype BlockInfo = BlockInfo(header: BlockHeader, next: Option<BlockHash>)

  function NextOf(path: seq<BlockHeader>, i: nat): Option<BlockHash>
    requires i < |path|
  {
    if i + 1 < |path| then Some(path[i + 1].hash) else None
  }

  predicate Entry(blocks: map<BlockHash, BlockInfo>, path: seq<BlockHeader>, i: nat)
    requires i < |path|
  {
    path[i].hash in blocks && blocks[path[i].hash] == BlockInfo(path[i], NextOf(path, i))
  }

  /** The map holds exactly the blocks of the path, linked in its order. */
  ghost predicate Holds(blocks: map<BlockHash, BlockInfo>, path: seq<BlockHeader>) {
    && blocks.Keys == Hashes(path)
    && forall i :: 0 <= i < |path| ==> Entry(blocks, path, i)
  }

  lemma {:induction false} EntryOf(blocks: map<BlockHash, BlockInfo>, path: seq<BlockHeader>, i: nat)
    requires Holds(blocks, path) && i < |path|
    ensures Entry(blocks, path, i)
  {
  }

  lemma {:induction false} HashesOfConcat(a: seq<BlockHeader>, b: seq<BlockHeader>)
    ensures Hashes(a + b) == Hashes(a) + Hashes(b)
  {
    forall x | x in Hashes(a) + Hashes(b) ensures x in Hashes(a + b) {
      if x in Hashes(a) {
        var i :| 0 <= i < |a| && a[i].hash == x;
        assert (a + b)[i].hash == x;
      } else {
        var i :| 0 <= i < |b| && b[i].hash == x;
        assert (a + b)[|a| + i].hash == x;
      }
    }
  }

  lemma {:induction false} PathOfConcat(tree: HeaderTree, a: seq<BlockHeader>, b: seq<BlockHeader>)
    requires IsPath(tree, a) && IsPath(tree, b) && b[0].prev == Last(a).hash
    ensures IsPath(tree, a + b)
  {
    forall i | 0 < i < |a + b| ensures ChildAt(a + b, i) {
      if i < |a| { assert ChildAt(a, i); } else if i > |a| { assert ChildAt(b, i - |a|); }
    }
  }

  lemma {:induction false} PathOfSlice(tree: HeaderTree, path: seq<BlockHeader>, i: nat, j: nat)
    requires IsPath(tree, path) && i < j <= |path|
    ensures IsPath(tree, path[i..j])
  {
    forall n | 0 < n < j - i ensures ChildAt(path[i..j], n) { assert ChildAt(path, i + n); }
  }

  lemma {:induction false} AppendHolds(tree: HeaderTree, blocks: map<BlockHash, BlockInfo>, path: seq<BlockHeader>,
      h: BlockHeader)
    requires WellFormed(tree) && IsPath(tree, path) && Holds(blocks, path) && InTree(tree, h)
        && h.prev == Last(path).hash
    ensures IsPath(tree, path + [h])
    ensures Holds(blocks[Last(path).hash := BlockInfo(Last(path), Some(h.hash))][h.hash := BlockInfo(h, None)],
        path + [h])
  {
    PathOfConcat(tree, path, [h]);
    NeighboursAreNew(tree, path, h);
    HashesOfConcat(path, [h]);
    var blocks' := blocks[Last(path).hash := BlockInfo(Last(path), Some(h.hash))][h.hash := BlockInfo(h, None)];
    assert Hashes([h]) == {h.hash} by { assert [h][0] == h; }
    assert Last(path).hash in Hashes(path);
    forall i | 0 <= i < |path + [h]| ensures Entry(blocks', path + [h], i) {
      if i < |path| {
        assert Entry(blocks, path, i);
        assert path[i].hash in Hashes(path);
        if path[i].hash == Last(path).hash { HashesDistinct(tree, path, i, |path| - 1); }
      }
    }
  }

  lemma {:induction false} PrependHolds(tree: HeaderTree, blocks: map<BlockHash, BlockInfo>, path: seq<BlockHeader>,
      h: BlockHeader)
    requires WellFormed(tree) && IsPath(tree, path) && Holds(blocks, path) && InTree(tree, h) && path[0].prev == h.hash
    ensures IsPath(tree, [h] + path)
    ensures Holds(blocks[h.hash := BlockInfo(h, Some(path[0].hash))], [h] + path)
  {
    PathOfConcat(tree, [h], path);
    NeighboursAreNew(tree, path, h);
    HashesOfConcat([h], path);
    var blocks' := blocks[h.hash := BlockInfo(h, Some(path[0].hash))];
    assert Hashes([h]) == {h.hash} by { assert [h][0] == h; }
    forall i | 0 <= i < |[h] + path| ensures Entry(blocks', [h] + path, i) {
      if i > 0 {
        assert Entry(blocks, path, i - 1);
        assert path[i - 1].hash in Hashes(path);
      }
    }
  }

  lemma {:induction false} SliceBelow(path: seq<BlockHeader>, low: nat, top: nat)
    requires 0 < low <= top <= |path|
    ensures path[low - 1..top] == [path[low - 1]] + path[low..top]
  {
  }

  class Chain {
    ghost const tree: HeaderTree
    ghost var path: seq<BlockHeader>   // base first
    var tip: BlockHash
    var base: BlockHash
    var blocks: map<BlockHash, BlockInfo>

    ghost predicate Valid()
      reads this
    {
      && WellFormed(tree) && IsPath(tree, path)
      && base == path[0].hash && tip == Last(path).hash
      && Holds(blocks, path)
    }

    constructor (ghost tree: HeaderTree, tip: BlockHeader)
      requires WellFormed(tree) && InTree(tree, tip)
      ensures Valid() && path == [tip] && this.tree == tree
    {
      this.tree := tree;
      this.tip, base := tip.hash, tip.hash;
      blocks := map[tip.hash := BlockInfo(tip, None)];
      path := [tip];
      new;
      assert Hashes(path) == {tip.hash} by { assert path[0] == tip; }
    }

    method Append(newTip: BlockHeader) returns (r: Result<(), ChainError>)
      requires Valid() && InTree(tree, newTip)
      modifies this
      ensures Valid()
      ensures r == if newTip.prev == old(tip) then Ok(()) else Err(InvalidChain)
      ensures path == old(path) + if r.Ok? then [newTip] else []
      ensures r.Err? ==> unchanged(this)
    {
      if newTip.prev != tip { return Err(InvalidChain); }
      assert Entry(blocks, path, |path| - 1);
      AppendHolds(tree, blocks, path, newTip);
      blocks := blocks[tip := blocks[tip].(next := Some(newTip.hash))];
      tip := newTip.hash;
      blocks := blocks[newTip.hash := BlockInfo(newTip, None)];
      path := path + [newTip];
      r := Ok(());
    }

    method Base() returns (h: BlockHeader)
      requires Valid()
      ensures h == path[0]
    {
      assert Entry(blocks, path, 0);
      h := blocks[base].header;
    }

    method Tip() returns (h: BlockHeader)
      requires Valid()
      ensures h == Last(path)
    {
      assert Entry(blocks, path, |path| - 1);
      h := blocks[tip].header;
    }

    method ContainsBlock(hash: BlockHash) returns (b: bool)
      requires Valid()
      ensures b <==> hash in Hashes(path)
    {
      b := hash in blocks;
    }

    method GetBlock(hash: BlockHash) returns (r: Result<BlockHeader, ChainError>)
      requires Valid()
      ensures r.Ok? <==> hash in Hashes(path)
      ensures r.Ok? ==> r.value in path && r.value.hash == hash
      ensures r.Err? ==> r.error == BlockNotFound
    {
      if hash !in blocks { return Err(BlockNotFound); }
      ghost var i :| 0 <= i < |path| && path[i].hash == hash;
      assert Entry(blocks, path, i);
      r := Ok(blocks[hash].header);
    }

    method Prepend(newBase: BlockHeader) returns (r: Result<(), ChainError>)
      requires Valid() && InTree(tree, newBase)
      modifies this
      ensures Valid()
      ensures r == if old(path)[0].prev == newBase.hash then Ok(()) else Err(InvalidChain)
      ensures path == (if r.Ok? then [newBase] else []) + old(path)
      ensures r.Err? ==> unchanged(this)
    {
      assert Entry(blocks, path, 0);
      var oldBase := blocks[base];
      if oldBase.header.prev != newBase.hash { return Err(InvalidChain); }
      PrependHolds(tree, blocks, path, newBase);
      base := newBase.hash;
      blocks := blocks[newBase.hash := BlockInfo(newBase, Some(oldBase.header.hash))];
      path := [newBase] + path;
      r := Ok(());
    }

    /**
     Puts `other`'s blocks below this chain's base. Errs, before any change,
     exactly when the base is neither `other`'s base nor a child of one of its
     blocks.
     */
    method Rebase(other: Chain) returns (r: Result<(), ChainError>)
      requires Valid() && other.Valid() && other != this && other.tree == tree
      modifies this
      ensures Valid()
      ensures r.Ok? <==> old(base) == other.base || old(path)[0].prev in Hashes(other.path)
      ensures r.Err? ==> r.error == BlockNotFound && unchanged(this)
      ensures r.Ok? && old(base) == other.base ==> path == old(path)
      ensures r.Ok? && old(base) != other.base ==>
                exists k :: 0 <= k < |other.path| && other.path[k].hash == old(path)[0].prev
                    && path == other.path[..k + 1] + old(path)
    {
      hide Holds;
      EntryOf(blocks, path, 0);
      var next := blocks[base].header;
      ghost var start, original := true, path;
      ghost var top := 0;   // other.path[low..top] has been put below the original chain
      ghost var low := 0;
      while next.hash != other.base
        invariant Valid() && next == path[0]
        invariant start ==> unchanged(this) && path == original
        invariant !start ==> 0 <= low < top <= |other.path| && next == other.path[low]
        invariant !start ==> path == other.path[low..top] + original && other.path[top - 1].hash == original[0].prev
        invariant !start ==> original[0].hash != other.base
        decreases start, low
      {
        if !start {
          assert low > 0 && ChildAt(other.path, low);
          assert other.path[low - 1].hash in Hashes(other.path);
        }
        var current := other.GetBlock(next.prev);
        if current.Err? { return Err(BlockNotFound); }
        ghost var i :| 0 <= i < |other.path| && other.path[i] == current.value;
        if start {
          top := i + 1;
          assert other.path[i..top] == [current.value];
        } else {
          HashesDistinct(tree, other.path, i, low - 1);
          SliceBelow(other.path, low, top);
        }
        var done := Prepend(current.value);
        assert done.Ok? && path[0] == current.value;
        next := current.value;
        low, start := i, false;
      }
      if !start {
        HashesDistinct(tree, other.path, low, 0);
        assert other.path[0..top] == other.path[..top];
      }
      r := Ok(());
    }

    /**
     Cuts this chain above `other`'s base and continues with `other`. Errs,
     without any change, exactly when this chain does not contain that base.
     */
    method Retip(other: Chain) returns (r: Result<(), ChainError>)
      requires Valid() && other.Valid() && other != this && other.tree == tree
      modifies this
      ensures Valid()
      ensures r.Ok? <==> other.base in Hashes(old(path))
      ensures r.Err? ==> r.error == BlockNotFound && unchanged(this)
      ensures r.Ok? ==> exists k ::
          0 <= k < |old(path)| && old(path)[k] == other.path[0] && path == old(path)[..k] + other.path
    {
      if other.base !in blocks { return Err(BlockNotFound); }
      ghost var original := path;
      Truncate(other.base);
      ghost var k := |path| - 1;
      assert original[k] == path[k] && original[k].hash == other.path[0].hash;

      var forwards := other.IterForwards();
      assert path == original[..k] + forwards[..1];
      for i := 1 to |forwards|
        invariant Valid() && forwards == other.path && path == original[..k] + forwards[..i]
      {
        assert ChildAt(forwards, i);
        assert Last(path) == forwards[i - 1];
        var done := Append(forwards[i]);
        assert forwards[..i + 1] == forwards[..i] + [forwards[i]];
      }
      assert forwards[..|forwards|] == forwards;
      r := Ok(());
    }

    /** The first half of `retip`: makes a block the tip and drops every block above it. */
    method Truncate(hash: BlockHash)
      requires Valid() && hash in blocks
      modifies this
      ensures Valid()
      ensures 0 < |path| <= |old(path)| && path == old(path)[..|path|] && Last(path).hash == hash
    {
      ghost var k :| 0 <= k < |path| && path[k].hash == hash;
      assert Entry(blocks, path, k);
      var newTip := blocks[hash];
      var next := newTip.next;
      HoldsAfterCut(tree, blocks, blocks[hash := newTip.(next := None)], path, k);
      blocks := blocks[hash := newTip.(next := None)];
      tip := newTip.header.hash;
      RemoveFollowing(next, k);
      CutIsPath(tree, blocks, path, k);
      path := path[..k + 1];
    }

    method RemoveFollowing(first: Option<BlockHash>, ghost k: nat)
      requires WellFormed(tree) && IsPath(tree, path) && k < |path|
      requires first == NextOf(path, k) && CutHolds(blocks, path, k, k + 1)
      modifies `blocks
      ensures CutHolds(blocks, path, k, |path|)
    {
      hide CutHolds, IsPath, WellFormed;
      var next := first;
      ghost var j := k + 1;
      while next.Some?
        invariant k < j <= |path|
        invariant next == if j < |path| then Some(path[j].hash) else None
        invariant CutHolds(blocks, path, k, j)
        decreases |path| - j
      {
        var current := next.value;
        CutEntry(blocks, path, k, j);
        next := blocks[current].next;
        RemoveOne(tree, blocks, path, k, j);
        blocks := blocks - {current};
        j := j + 1;
      }
    }

    /** Follows the `next` links from the base. */
    method IterForwards() returns (headers: seq<BlockHeader>)
      requires Valid()
      ensures headers == path
    {
      headers := [];
      assert Entry(blocks, path, 0);
      var current := Some(blocks[base]);
      while current.Some?
        invariant |headers| <= |path| && headers == path[..|headers|]
        invariant current == if |headers| < |path| then Some(BlockInfo(path[|headers|], NextOf(path, |headers|)))
            else None
        decreases |path| - |headers|
      {
        var info := current.value;
        if info.next.Some? { assert Entry(blocks, path, |headers| + 1); }
        current := if info.next.Some? then Some(blocks[info.next.value]) else None;
        headers := headers + [info.header];
      }
    }

    /** Follows the `prev` hashes from the tip down to the base. */
    method IterBackwards() returns (headers: seq<BlockHeader>)
      requires Valid()
      ensures headers == Reverse(path)
    {
      headers := [];
      assert Entry(blocks, path, |path| - 1);
      var current := Some(blocks[tip]);
      while current.Some?
        invariant |headers| <= |path|
        invariant forall i :: 0 <= i < |headers| ==> headers[i] == path[|path| - 1 - i]
        invariant current == if |headers| < |path|
            then Some(BlockInfo(path[|path| - 1 - |headers|], NextOf(path, |path| - 1 - |headers|))) else None
        decreases |path| - |headers|
      {
        var info := current.value;
        ghost var i := |path| - 1 - |headers|;
        if i > 0 {
          assert ChildAt(path, i) && Entry(blocks, path, i - 1);
          if info.header.hash == base { HashesDistinct(tree, path, i, 0); }
        }
        current := if info.header.hash == base then None else Some(blocks[info.header.prev]);
        headers := headers + [info.header];
      }
    }
  }

  /** Midway through a cut: blocks k+1 up to j are gone, block k has lost its link. */
  ghost predicate CutHolds(blocks: map<BlockHash, BlockInfo>, path: seq<BlockHeader>, k: nat, j: nat)
    requires k < j <= |path|
  {
    && blocks.Keys == Hashes(path[..k + 1]) + Hashes(path[j..])
    && (forall i :: 0 <= i < k || j <= i < |path| ==> Entry(blocks, path, i))
    && path[k].hash in blocks && blocks[path[k].hash] == BlockInfo(path[k], None)
  }

  lemma {:induction false} HoldsAfterCut(tree: HeaderTree, blocks: map<BlockHash, BlockInfo>, blocks': map<BlockHash,
      BlockInfo>,
                                         path: seq<BlockHeader>, k: nat)
    requires WellFormed(tree) && IsPath(tree, path) && Holds(blocks, path) && k < |path|
    requires blocks' == blocks[path[k].hash := BlockInfo(path[k], None)]
    ensures CutHolds(blocks', path, k, k + 1)
  {
    HashesOfConcat(path[..k + 1], path[k + 1..]);
    assert path[..k + 1] + path[k + 1..] == path;
    assert path[k].hash in Hashes(path);
    forall i | 0 <= i < |path| && i != k ensures Entry(blocks', path, i) {
      assert Entry(blocks, path, i);
      if path[i].hash == path[k].hash { HashesDistinct(tree, path, i, k); }
    }
  }

  lemma {:induction false} CutEntry(blocks: map<BlockHash, BlockInfo>, path: seq<BlockHeader>, k: nat, j: nat)
    requires k < j < |path| && CutHolds(blocks, path, k, j)
    ensures Entry(blocks, path, j)
  {
  }

  lemma {:induction false} RemoveOne(tree: HeaderTree, blocks: map<BlockHash, BlockInfo>, path: seq<BlockHeader>,
      k: nat, j: nat)
    requires WellFormed(tree) && IsPath(tree, path) && k < j < |path| && CutHolds(blocks, path, k, j)
    ensures CutHolds(blocks - {path[j].hash}, path, k, j + 1)
  {
    var blocks' := blocks - {path[j].hash};
    assert path[j..] == [path[j]] + path[j + 1..];
    HashesOfConcat([path[j]], path[j + 1..]);
    assert Hashes([path[j]]) == {path[j].hash} by { assert [path[j]][0] == path[j]; }
    forall i | 0 <= i < |path| && i != j ensures path[i].hash != path[j].hash {
      if path[i].hash == path[j].hash { HashesDistinct(tree, path, i, j); }
    }
    assert path[j].hash !in Hashes(path[..k + 1]) + Hashes(path[j + 1..]);
    forall i | 0 <= i < k || j + 1 <= i < |path| ensures Entry(blocks', path, i) {
      assert Entry(blocks, path, i);
    }
  }

  lemma {:induction false} CutIsPath(tree: HeaderTree, blocks: map<BlockHash, BlockInfo>, path: seq<BlockHeader>,
      k: nat)
    requires IsPath(tree, path) && k < |path| && CutHolds(blocks, path, k, |path|)
    ensures IsPath(tree, path[..k + 1]) && Holds(blocks, path[..k + 1])
  {
    var cut := path[..k + 1];
    PathOfSlice(tree, path, 0, k + 1);
    assert path[0..k + 1] == cut && Hashes(path[|path|..]) == {};
    forall i | 0 <= i < |cut| ensures Entry(blocks, cut, i) {
      if i < k { assert Entry(blocks, path, i); }
    }
  }

  /** Headers as the repository lists them, tip first. */
  method FromHeaders(ghost tree: HeaderTree, headers: seq<BlockHeader>) returns (r: Result<Chain, ChainError>)
    requires WellFormed(tree) && forall h :: h in headers ==> InTree(tree, h)
    ensures r.Ok? <==> headers != [] && forall i :: 0 < i < |headers| ==> headers[i - 1].prev == headers[i].hash
    ensures r.Ok? ==> fresh(r.value) && r.value.Valid() && r.value.path == Reverse(headers) && r.value.tree == tree
    ensures r.Err? ==> r.error == if headers == [] then EmptyChain else InvalidChain
  {
    if headers == [] { return Err(EmptyChain); }
    var chain := new Chain(tree, headers[0]);
    for n := 1 to |headers|
      invariant fresh(chain) && chain.Valid() && chain.tree == tree
      invariant |chain.path| == n && forall i :: 0 <= i < n ==> chain.path[n - 1 - i] == headers[i]
      invariant forall i :: 0 < i < n ==> headers[i - 1].prev == headers[i].hash
    {
      assert chain.path[n - 1 - (n - 1)] == headers[n - 1];
      var done := chain.Prepend(headers[n]);
      if done.Err? { return Err(done.error); }
    }
    r := Ok(chain);
  }
}
