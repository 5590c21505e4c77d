/**
 The claim monitor: one round splits the claimable outputs between stored claims
 and new ones, rechecks the former and makes the latter.
 */
module ClaimMonitor {
  import opened Types
  import opened ClaimTx
  import opened ClaimService
  import opened Replacement

  type ByOutPoint = map<OutPoint, Claimable>

  /** A stored claim with the claimables its inputs spend. */
  datatype Recheck = Recheck(claim: Claim, claimables: seq<Claimable>)

  // ------------------------------------------------------- the partition

  predicate Keyed(m: ByOutPoint) { forall op :: op in m ==> m[op].utxo.outpoint == op }

  /** Collecting into a map: of two claimables with one outpoint the later stays. */
  method CollectByOutPoint(cs: seq<Claimable>) returns (m: ByOutPoint)
    ensures Keyed(m)
    ensures forall c :: c in cs ==> c.utxo.outpoint in m
    ensures forall op :: op in m ==> m[op] in cs
  {
    m := map[];
    for i := 0 to |cs|
      invariant Keyed(m)
      invariant forall j :: 0 <= j < i ==> cs[j].utxo.outpoint in m
      invariant forall op :: op in m ==> m[op] in cs
    {
      m := m[cs[i].utxo.outpoint := cs[i]];
    }
  }

  predicate FullyClaimable(m: ByOutPoint, claim: Claim) {
    forall i :: 0 <= i < |claim.tx.input| ==> claim.tx.input[i].previousOutput in m
  }

  predicate SpentBy(claim: Claim, op: OutPoint) {
    exists i :: 0 <= i < |claim.tx.input| && claim.tx.input[i].previousOutput == op
  }

  /** Some stored claim that is still valid as a whole spends the output. */
  predicate Handled(m: ByOutPoint, claims: seq<Claim>, op: OutPoint) {
    exists c :: c in claims && FullyClaimable(m, c) && SpentBy(c, op)
  }

  function CurrentClaimables(m: ByOutPoint, claim: Claim): seq<Claimable>
    requires FullyClaimable(m, claim)
  {
    seq(|claim.tx.input|, i requires 0 <= i < |claim.tx.input| => m[claim.tx.input[i].previousOutput])
  }

  function Rechecks(m: ByOutPoint, claims: seq<Claim>): seq<Recheck> {
    if claims == [] then []
    else if FullyClaimable(m, claims[0]) then [Recheck(claims[0], CurrentClaimables(m, claims[0]))] + Rechecks(m,
        claims[1..])
    else Rechecks(m, claims[1..])
  }

  predicate IsCurrent(m: ByOutPoint, claim: Claim, cs: seq<Claimable>) {
    && |cs| == |claim.tx.input|
    && forall i :: 0 <= i < |cs| ==>
         claim.tx.input[i].previousOutput in m && cs[i] == m[claim.tx.input[i].previousOutput]
  }

  /** Rechecked is a stored claim all of whose inputs are claimable, with the claimables of its inputs. */
  lemma {:induction false} RechecksMeaning(m: ByOutPoint, claims: seq<Claim>, rc: Recheck)
    ensures rc in Rechecks(m, claims)
       <==> rc.claim in claims && IsCurrent(m, rc.claim, rc.claimables)
  {
    if claims != [] {
      RechecksMeaning(m, claims[1..], rc);
      if FullyClaimable(m, claims[0]) { assert CurrentClaimables(m, claims[0]) == rc.claimables <==>
          IsCurrent(m, claims[0], rc.claimables); }
    }
  }

  /** Paid over lightning, and no stored claim takes care of it. */
  predicate IsFresh(m: ByOutPoint, claims: seq<Claim>, c: Claimable) {
    c.utxo.outpoint in m && m[c.utxo.outpoint] == c && c.paidWithRequest.Some? && !Handled(m, claims, c.utxo.outpoint)
  }

  /** The outputs for new claims, each group under the hash of its swap. */
  ghost predicate GroupsFresh(m: ByOutPoint, claims: seq<Claim>, groups: map<Hash, seq<Claimable>>) {
    && (forall h :: h in groups ==> groups[h] != [] && DistinctOutPoints(groups[h]))
    && (forall h, c :: h in groups && c in groups[h] ==> c.swapHash == h && IsFresh(m, claims, c))
    && (forall c :: IsFresh(m, claims, c) ==> c.swapHash in groups && c in groups[c.swapHash])
  }

  method TakeInputs(m: ByOutPoint, claim: Claim, unhandled: set<OutPoint>)
      returns (current: seq<Claimable>, left: set<OutPoint>)
    requires FullyClaimable(m, claim)
    ensures current == CurrentClaimables(m, claim)
    ensures forall op :: op in left <==> op in unhandled && !SpentBy(claim, op)
  {
    current, left := [], unhandled;
    for n := 0 to |claim.tx.input|
      invariant |current| == n && forall i :: 0 <= i < n ==> current[i] == m[claim.tx.input[i].previousOutput]
      invariant forall op ::
          op in left <==> op in unhandled && forall i :: 0 <= i < n ==> claim.tx.input[i].previousOutput != op
    {
      var op := claim.tx.input[n].previousOutput;
      left := left - {op};
      current := current + [m[op]];
    }
  }

  method CollectRechecks(m: ByOutPoint, claims: seq<Claim>) returns (recheck: seq<Recheck>, unhandled: set<OutPoint>)
    ensures recheck == Rechecks(m, claims)
    ensures forall op :: op in unhandled <==> op in m && !Handled(m, claims, op)
  {
    hide Handled, FullyClaimable, SpentBy, CurrentClaimables;
    HandledNone(m);
    recheck, unhandled := [], m.Keys;
    for k := 0 to |claims|
      invariant recheck + Rechecks(m, claims[k..]) == Rechecks(m, claims)
      invariant forall op :: op in unhandled <==> op in m && !Handled(m, claims[..k], op)
    {
      var claim := claims[k];
      assert claims[..k + 1] == claims[..k] + [claim];
      if FullyClaimable(m, claim) {
        var current;
        current, unhandled := TakeInputs(m, claim, unhandled);
        recheck := recheck + [Recheck(claim, current)];
      }
      HandledNext(m, claims, k);
    }
    assert claims[..|claims|] == claims;
  }

  lemma {:induction false} HandledNone(m: ByOutPoint)
    ensures forall op :: !Handled(m, [], op)
  {
  }

  lemma {:induction false} HandledNext(m: ByOutPoint, claims: seq<Claim>, k: nat)
    requires k < |claims|
    ensures forall op ::
        Handled(m, claims[..k + 1], op) <==>
        Handled(m, claims[..k], op) || (FullyClaimable(m, claims[k]) && SpentBy(claims[k], op))
  {
  }

  /** What the groups hold while outpoints are still to be visited. */
  ghost predicate GroupsSoFar(m: ByOutPoint, seen: set<OutPoint>, groups: map<Hash, seq<Claimable>>) {
    && seen <= m.Keys
    && (forall h :: h in groups ==> groups[h] != [] && DistinctOutPoints(groups[h]))
    && (forall h, c :: h in groups && c in groups[h] ==>
          c.swapHash == h && c.utxo.outpoint in seen && m[c.utxo.outpoint] == c && c.paidWithRequest.Some?)
    && (forall op ::
        op in seen && m[op].paidWithRequest.Some? ==> m[op].swapHash in groups && m[op] in groups[m[op].swapHash])
  }

  method GroupBySwap(m: ByOutPoint, unhandled: set<OutPoint>) returns (groups: map<Hash, seq<Claimable>>)
    requires Keyed(m) && unhandled <= m.Keys
    ensures GroupsSoFar(m, unhandled, groups)
  {
    groups := map[];
    var rest, seen := unhandled, {};
    while rest != {}
      invariant seen !! rest && seen + rest == unhandled
      invariant GroupsSoFar(m, seen, groups)
      decreases rest
    {
      var op :| op in rest;
      rest := rest - {op};
      var claimable := m[op];
      ghost var before := groups;
      if claimable.paidWithRequest.Some? {
        var entry := if claimable.swapHash in groups then groups[claimable.swapHash] else [];
        groups := groups[claimable.swapHash := entry + [claimable]];
      }
      GroupOne(m, seen, before, op, groups);
      seen := seen + {op};
    }
    assert seen == unhandled;
  }

  lemma {:induction false} GroupOne(m: ByOutPoint, seen: set<OutPoint>, groups: map<Hash, seq<Claimable>>, op: OutPoint,
      groups': map<Hash, seq<Claimable>>)
    requires Keyed(m) && op in m && op !in seen && GroupsSoFar(m, seen, groups)
    requires var h := m[op].swapHash;
             groups' == if m[op].paidWithRequest.Some?
                 then groups[h := (if h in groups then groups[h] else []) + [m[op]]] else groups
    ensures GroupsSoFar(m, seen + {op}, groups')
  {
  }

  /** The split, for any list of stored claims. */
  method Partition(m: ByOutPoint, claims: seq<Claim>) returns (recheck: seq<Recheck>, groups: map<Hash, seq<Claimable>>)
    requires Keyed(m)
    ensures recheck == Rechecks(m, claims)
    ensures GroupsFresh(m, claims, groups)
  {
    hide Handled;
    var unhandled;
    recheck, unhandled := CollectRechecks(m, claims);
    groups := GroupBySwap(m, unhandled);
  }

  predicate InRecheck(recheck: seq<Recheck>, op: OutPoint) {
    exists k, i :: 0 <= k < |recheck| && 0 <= i < |recheck[k].claimables|
        && recheck[k].claimables[i].utxo.outpoint == op
  }

  predicate AtGroup(groups: map<Hash, seq<Claimable>>, h: Hash, i: nat, op: OutPoint) {
    h in groups && i < |groups[h]| && groups[h][i].utxo.outpoint == op
  }

  lemma {:induction false} HandledIsRechecked(m: ByOutPoint, claims: seq<Claim>, op: OutPoint)
    requires Keyed(m)
    ensures Handled(m, claims, op) <==> InRecheck(Rechecks(m, claims), op)
  {
    var recheck := Rechecks(m, claims);
    if Handled(m, claims, op) {
      var c :| c in claims && FullyClaimable(m, c) && SpentBy(c, op);
      var rc := Recheck(c, CurrentClaimables(m, c));
      RechecksMeaning(m, claims, rc);
      var k :| 0 <= k < |recheck| && recheck[k] == rc;
      var i :| 0 <= i < |c.tx.input| && c.tx.input[i].previousOutput == op;
      assert recheck[k].claimables[i].utxo.outpoint == op;
    }
    if k, i :| 0 <= k < |recheck| && 0 <= i < |recheck[k].claimables| && recheck[k].claimables[i].utxo.outpoint == op {
      RechecksMeaning(m, claims, recheck[k]);
      assert SpentBy(recheck[k].claim, op);
    }
  }

  /**
   Every claimable output goes exactly one of three ways: to the recheck of a
   stored claim, to one place in one group (that of its own swap), or nowhere
   because it was not paid for. Nothing else is rechecked or grouped.
   */
  lemma {:induction false} ThreeWays(m: ByOutPoint, claims: seq<Claim>, recheck: seq<Recheck>, groups: map<Hash,
      seq<Claimable>>, op: OutPoint)
    requires Keyed(m) && recheck == Rechecks(m, claims) && GroupsFresh(m, claims, groups)
    ensures InRecheck(recheck, op) ==> op in m
    ensures (exists h, i :: AtGroup(groups, h, i, op)) <==>
        op in m && !InRecheck(recheck, op) && m[op].paidWithRequest.Some?
    ensures forall h, i, h', i' ::
        AtGroup(groups, h, i, op) && AtGroup(groups, h', i', op) ==> h == h' == m[op].swapHash && i == i'
  {
    HandledIsRechecked(m, claims, op);
    forall h: Hash, i: nat | AtGroup(groups, h, i, op)
      ensures op in m && h == m[op].swapHash && m[op].paidWithRequest.Some? && !Handled(m, claims, op)
    {
      assert groups[h][i] in groups[h];
    }
    if op in m && !InRecheck(recheck, op) && m[op].paidWithRequest.Some? {
      var c := m[op];
      assert IsFresh(m, claims, c);
      var i :| 0 <= i < |groups[c.swapHash]| && groups[c.swapHash][i] == c;
      assert AtGroup(groups, c.swapHash, i, op);
    }
  }

  // ------------------------------------------------- rechecks and new claims

  /** Everything the outside answers while one claim is processed. */
  datatype Market = Market(estimate: i32 -> Option<u32>, newAddress: Option<Destination>, answers: Answers)

  /** `recheck_claim`: keep the claim and rebroadcast it, or replace it. */
  function RecheckStep(l: Ledger, dustLimit: u64, height: u64, rc: Recheck, market: Market): (Ledger, Result<(),
      ClaimError>) {
    var blocksLeft := MinBlocksLeft(rc.claimables, height);
    if blocksLeft.None? then (l, Err(NoInputs)) else
    var estimate := market.estimate(blocksLeft.value);
    if estimate.None? then (l, Err(NoEstimate)) else
    if Sufficient(rc.claim.feePerKw, estimate.value) then
      match market.answers.broadcast
      case Accepted => (l.(sent := l.sent + [rc.claim.tx]), Ok(()))
      case InsufficientFee => (l, Ok(()))
      case _ => (l, Err(NotBroadcast(market.answers.broadcast)))
    else
      var (l', r) := MakeClaim(l, dustLimit, rc.claimables, estimate.value, height, rc.claim.destination,
          rc.claim.autoBump, market.answers);
      (l', if r.Ok? then Ok(()) else Err(r.error))
  }

  /** `claim`: a new claim for the outputs of one swap. */
  function ClaimStep(l: Ledger, dustLimit: u64, height: u64, cs: seq<Claimable>, market: Market): (Ledger, Result<(),
      ClaimError>) {
    var blocksLeft := MinBlocksLeft(cs, height);
    if blocksLeft.None? then (l, Err(NoInputs)) else
    var estimate := market.estimate(blocksLeft.value);
    if estimate.None? then (l, Err(NoEstimate)) else
    if market.newAddress.None? then (l, Err(NoAddress)) else
    var (l', r) := MakeClaim(l, dustLimit, cs, estimate.value, height, market.newAddress.value, true, market.answers);
    (l', if r.Ok? then Ok(()) else Err(r.error))
  }

  function RecheckAll(l: Ledger, dustLimit: u64, height: u64, rcs: seq<Recheck>, markets: seq<Market>): Ledger
    requires |markets| == |rcs|
    decreases |rcs|
  {
    if rcs == [] then l else
    var n := |rcs| - 1;
    RecheckStep(RecheckAll(l, dustLimit, height, rcs[..n], markets[..n]), dustLimit, height, rcs[n], markets[n]).0
  }

  function ClaimAll(l: Ledger, dustLimit: u64, height: u64, groups: map<Hash, seq<Claimable>>, order: seq<Hash>,
      markets: seq<Market>): Ledger
    requires |markets| == |order| && forall h :: h in order ==> h in groups
    decreases |order|
  {
    if order == [] then l else
    var n := |order| - 1;
    ClaimStep(ClaimAll(l, dustLimit, height, groups, order[..n], markets[..n]), dustLimit, height, groups[order[n]],
        markets[n]).0
  }

  /** Each swap's group once. */
  ghost predicate Lists(order: seq<Hash>, hashes: set<Hash>) {
    (forall h :: h in hashes <==> h in order) && forall i, j :: 0 <= i < j < |order| ==> order[i] != order[j]
  }

  /** Every stored claim was crafted at its rate, for its address, and none is stored twice. */
  ghost predicate LedgerInv(dustLimit: u64, worth: OutPoint -> nat, l: Ledger) {
    && DistinctIds(l.claims)
    && forall k :: 0 <= k < |l.claims| ==> Crafted(dustLimit, worth, l.claims[k])
  }

  ghost predicate SpendsGroup(tx: Transaction, cs: seq<Claimable>) {
    |tx.input| == |cs| && forall op :: op in Spent(tx) <==> exists i :: 0 <= i < |cs| && cs[i].utxo.outpoint == op
  }

  /**
   A transaction the round may send: one that spends just what a still valid stored
   claim spends, or just one group.
   */
  ghost predicate MaySend(m: ByOutPoint, claims: seq<Claim>, groups: map<Hash, seq<Claimable>>, tx: Transaction) {
    || (exists c :: c in claims && FullyClaimable(m, c) && Spent(tx) == Spent(c.tx))
    || (exists h :: h in groups && SpendsGroup(tx, groups[h]))
  }

  /** A row the round may store: the replacement of a still valid stored claim, or a bumpable claim for one group. */
  ghost predicate MayStore(dustLimit: u64, worth: OutPoint -> nat, m: ByOutPoint, claims: seq<Claim>, groups: map<Hash,
      seq<Claimable>>, row: Claim) {
    || (exists c :: c in claims && FullyClaimable(m, c) && Replaces(dustLimit, worth, c, row))
    || (exists h :: h in groups && SpendsGroup(row.tx, groups[h]) && row.autoBump && Crafted(dustLimit, worth, row))
  }

  /** What a round may do to the ledger. */
  ghost predicate RoundEffect(dustLimit: u64, worth: OutPoint -> nat, m: ByOutPoint, claims: seq<Claim>,
      groups: map<Hash, seq<Claimable>>, l: Ledger, l': Ledger) {
    && l.sent <= l'.sent && l.claims <= l'.claims && l.watched <= l'.watched
    && (DistinctIds(l.claims) ==> DistinctIds(l'.claims))
    && (forall k :: |l.sent| <= k < |l'.sent| ==> MaySend(m, claims, groups, l'.sent[k]))
    && (forall k :: |l.claims| <= k < |l'.claims| ==> MayStore(dustLimit, worth, m, claims, groups, l'.claims[k]))
  }

  lemma {:induction false} EffectThen(dustLimit: u64, worth: OutPoint -> nat, m: ByOutPoint, claims: seq<Claim>,
      groups: map<Hash,
      seq<Claimable>>,
                                      a: Ledger, b: Ledger, c: Ledger)
    requires RoundEffect(dustLimit, worth, m, claims, groups, a, b)
        && RoundEffect(dustLimit, worth, m, claims, groups, b, c)
    ensures RoundEffect(dustLimit, worth, m, claims, groups, a, c)
  {
  }

  /** The effect of handing one crafted transaction to the claim service. */
  lemma {:induction false} MakeClaimEffect(dustLimit: u64, worth: OutPoint -> nat, m: ByOutPoint, claims: seq<Claim>,
      groups: map<Hash,
      seq<Claimable>>,
                                           l: Ledger, cs: seq<Claimable>, rate: u32, height: u64,
                                               destination: Destination, autoBump: bool, ans: Answers)
    requires var tx := ClaimTransaction(cs, rate, height, destination, dustLimit);
             tx.Ok? ==>
               && MaySend(m, claims, groups, tx.value)
               && MayStore(dustLimit, worth, m, claims, groups, ClaimRow(tx.value, destination, rate, autoBump))
    ensures RoundEffect(dustLimit, worth, m, claims, groups, l,
        MakeClaim(l, dustLimit, cs, rate, height, destination, autoBump, ans).0)
  {
    hide MaySend, MayStore, ClaimTransaction;
  }

  lemma {:induction false} RecheckEffect(dustLimit: u64, worth: OutPoint -> nat, m: ByOutPoint, claims: seq<Claim>,
      groups: map<Hash,
      seq<Claimable>>,
                                         l: Ledger, height: u64, rc: Recheck, market: Market)
    requires dustLimit > 0 && Keyed(m) && rc in Rechecks(m, claims) && Crafted(dustLimit, worth, rc.claim)
    requires forall op :: op in m ==> m[op].utxo.value == worth(op)
    ensures RoundEffect(dustLimit, worth, m, claims, groups, l, RecheckStep(l, dustLimit, height, rc, market).0)
  {
    hide Crafted, Sufficient, ClaimTransaction, MinBlocksLeft;
    RechecksMeaning(m, claims, rc);
    assert MaySend(m, claims, groups, rc.claim.tx);
    var blocksLeft := MinBlocksLeft(rc.claimables, height);
    if blocksLeft.Some? {
      var estimate := market.estimate(blocksLeft.value);
      if estimate.Some? && !Sufficient(rc.claim.feePerKw, estimate.value) {
        var tx := ClaimTransaction(rc.claimables, estimate.value, height, rc.claim.destination, dustLimit);
        if tx.Ok? {
          var row := ClaimRow(tx.value, rc.claim.destination, estimate.value, rc.claim.autoBump);
          assert ReplacedBy(dustLimit, worth, rc.claim, row, rc.claimables, height);
          ReplacementSpendsTheSame(dustLimit, worth, rc.claim, row);
        }
        MakeClaimEffect(dustLimit, worth, m, claims, groups, l, rc.claimables, estimate.value, height,
            rc.claim.destination, rc.claim.autoBump, market.answers);
      }
    }
  }

  // --------------------------------------------- what a round has to do

  /** The least of the blocks left for any of them. */
  predicate Least(cs: seq<Claimable>, height: u64, blocks: i32) {
    && (forall c :: c in cs ==> blocks <= BlocksLeft(c, height))
    && exists c :: c in cs && BlocksLeft(c, height) == blocks
  }

  lemma {:induction false} LeastIsMin(cs: seq<Claimable>, height: u64, blocks: i32)
    requires Least(cs, height, blocks)
    ensures MinBlocksLeft(cs, height) == Some(blocks)
  {
    MinIsLeast(cs, height);
  }

  /** The estimate has left the rate of a stored claim behind; at the top of the 32 bits the limit starts over. */
  predicate Outdated(feePerKw: u32, estimate: u32) {
    estimate >= if feePerKw + 250 <= U32_MAX then feePerKw + 250 else feePerKw + 250 - (U32_MAX + 1)
  }

  lemma {:induction false} OutdatedMeans(feePerKw: u32, estimate: u32)
    ensures Outdated(feePerKw, estimate) <==> !Sufficient(feePerKw, estimate)
  {
  }

  /** A recheck asks at the least blocks left; without inputs or without an estimate it changes nothing. */
  lemma {:induction false} RecheckNeedsEstimate(l: Ledger, dustLimit: u64, height: u64, rc: Recheck, market: Market)
    requires forall blocks :: Least(rc.claimables, height, blocks) ==> market.estimate(blocks).None?
    ensures RecheckStep(l, dustLimit, height, rc, market)
         == (l, Err(if rc.claimables == [] then NoInputs else NoEstimate))
  {
    MinIsLeast(rc.claimables, height);
    if rc.claimables != [] { assert Least(rc.claimables, height, MinBlocksLeft(rc.claimables, height).value); }
  }

  /** As long as the rate is good, the very transaction that is stored is sent again, and nothing else happens. */
  lemma {:induction false} RecheckRebroadcasts(l: Ledger, dustLimit: u64, height: u64, rc: Recheck, market: Market,
      blocks: i32)
    requires Least(rc.claimables, height, blocks) && market.estimate(blocks).Some?
    requires !Outdated(rc.claim.feePerKw, market.estimate(blocks).value)
    ensures var (l', r) := RecheckStep(l, dustLimit, height, rc, market);
            && l'.claims == l.claims && l'.watched == l.watched
            && l'.sent == l.sent + (if market.answers.broadcast == Accepted then [rc.claim.tx] else [])
            && (r.Ok? <==> market.answers.broadcast == Accepted || market.answers.broadcast == InsufficientFee)
            && (r.Err? ==> r.error == NotBroadcast(market.answers.broadcast))
  {
    hide Least, MinBlocksLeft, MakeClaim, Sufficient, Outdated;
    LeastIsMin(rc.claimables, height, blocks);
    OutdatedMeans(rc.claim.feePerKw, market.estimate(blocks).value);
  }

  lemma {:induction false} RecheckClaims(l: Ledger, dustLimit: u64, height: u64, rc: Recheck, market: Market,
      blocks: i32)
    requires Least(rc.claimables, height, blocks) && market.estimate(blocks).Some?
    requires Outdated(rc.claim.feePerKw, market.estimate(blocks).value)
    ensures var (l', made) := MakeClaim(l, dustLimit, rc.claimables, market.estimate(blocks).value, height,
                rc.claim.destination, rc.claim.autoBump, market.answers);
            RecheckStep(l, dustLimit, height, rc, market) == (l', if made.Ok? then Ok(()) else Err(made.error))
  {
    hide Least, MinBlocksLeft, MakeClaim, Sufficient, Outdated;
    LeastIsMin(rc.claimables, height, blocks);
    OutdatedMeans(rc.claim.feePerKw, market.estimate(blocks).value);
  }

  /**
   When the estimate has left the rate behind, a claim for the same outputs to the same
   address at the estimate is made; if everything answers and it is not stored yet, it
   replaces the old one, and its row is all that is added.
   */
  lemma {:induction false} RecheckReplaces(l: Ledger, dustLimit: u64, worth: OutPoint -> nat, m: ByOutPoint,
      claims: seq<Claim>, height: u64, rc: Recheck, market: Market, blocks: i32)
    requires Keyed(m) && rc in Rechecks(m, claims) && forall op :: op in m ==> m[op].utxo.value == worth(op)
    requires Least(rc.claimables, height, blocks) && market.estimate(blocks).Some?
    requires var rate := market.estimate(blocks).value;
             Outdated(rc.claim.feePerKw, rate)
             && Affordable(rc.claimables, rate, height, rc.claim.destination, dustLimit)
    ensures exists row {:trigger Replaces(dustLimit, worth, rc.claim, row)} ::
              && Replaces(dustLimit, worth, rc.claim, row) && row.feePerKw == market.estimate(blocks).value
              && Arrives(row, market.answers, l, RecheckStep(l, dustLimit, height, rc, market).0)
              && (market.answers == Answers(Accepted, true, true) && IsNew(l.claims, row.tx) ==>
                    RecheckStep(l, dustLimit, height, rc, market).1 == Ok(())
                    && Added(l, RecheckStep(l, dustLimit, height, rc, market).0, row))
  {
    hide ClaimTransaction, IdTaken, IsNew, FeeSat, Least, MinBlocksLeft, RecheckStep, MakeClaim, Rechecks, TotalValue,
        Outdated, Sufficient, Replaces;
    var rate, destination := market.estimate(blocks).value, rc.claim.destination;
    RecheckClaims(l, dustLimit, height, rc, market, blocks);
    ClaimPossibleWhen(rc.claimables, rate, height, destination, dustLimit);
    ClaimLeaves(l, dustLimit, rc.claimables, rate, height, destination, rc.claim.autoBump, market.answers);
    var tx := ClaimTransaction(rc.claimables, rate, height, destination, dustLimit);
    assert tx.Ok?;
    var row := ClaimRow(tx.value, destination, rate, rc.claim.autoBump);
    RowReplaces(dustLimit, worth, m, claims, rc, row, height);
  }

  lemma {:induction false} RowReplaces(dustLimit: u64, worth: OutPoint -> nat, m: ByOutPoint, claims: seq<Claim>,
      rc: Recheck, row: Claim, height: u64)
    requires Keyed(m) && rc in Rechecks(m, claims) && forall op :: op in m ==> m[op].utxo.value == worth(op)
    requires Outdated(rc.claim.feePerKw, row.feePerKw)
    requires row.destination == rc.claim.destination && row.autoBump == rc.claim.autoBump
    requires ClaimTransaction(rc.claimables, row.feePerKw, height, row.destination, dustLimit) == Ok(row.tx)
    ensures Replaces(dustLimit, worth, rc.claim, row)
  {
    hide ClaimTransaction, Rechecks, Outdated, Sufficient;
    RechecksMeaning(m, claims, rc);
    OutdatedMeans(rc.claim.feePerKw, row.feePerKw);
    assert ReplacedBy(dustLimit, worth, rc.claim, row, rc.claimables, height);
  }

  /** What claiming has left of a row when the round is over, from the ledger it met. */
  ghost predicate Arrives(row: Claim, ans: Answers, reached: Ledger, end: Ledger) {
    ans.broadcast == Accepted ==>
      && row.tx in end.sent
      && (ans.recorded && IsNew(reached.claims, row.tx) ==>
            row in end.claims && (ans.watching ==> row.destination.address in end.watched))
  }

  lemma {:induction false} ArrivesLater(row: Claim, ans: Answers, reached: Ledger, mid: Ledger, end: Ledger)
    requires Arrives(row, ans, reached, mid) && Grows(mid, end)
    ensures Arrives(row, ans, reached, end)
  {
    hide IsNew;
    if row.tx in mid.sent { Kept(row.tx, mid.sent, end.sent); }
    if row in mid.claims { Kept(row, mid.claims, end.claims); }
  }

  lemma {:induction false} Kept<T>(x: T, a: seq<T>, b: seq<T>)
    requires a <= b && x in a
    ensures x in b
  {
    var i :| 0 <= i < |a| && a[i] == x;
    assert b[i] == x;
  }

  ghost predicate Grows(l: Ledger, l': Ledger) {
    l.sent <= l'.sent && l.claims <= l'.claims && l.watched <= l'.watched
  }

  /** A new claim too asks for the estimate at the least blocks left, and needs an address. */
  lemma {:induction false} GroupNeedsAnswers(l: Ledger, dustLimit: u64, height: u64, cs: seq<Claimable>, market: Market)
    requires market.newAddress.None? || forall blocks :: Least(cs, height, blocks) ==> market.estimate(blocks).None?
    ensures var (l', r) := ClaimStep(l, dustLimit, height, cs, market);
            l' == l && r.Err? && (r.error == NoInputs <==> cs == [])
                && (r.error == NoAddress ==> market.newAddress.None?)
  {
    MinIsLeast(cs, height);
    if cs != [] { assert Least(cs, height, MinBlocksLeft(cs, height).value); }
  }

  /** What is made for a group: a bumpable claim for just its outputs, at the rate and to the address answered. */
  ghost predicate ClaimsGroup(dustLimit: u64, height: u64, cs: seq<Claimable>, rate: u32, destination: Destination,
      row: Claim) {
    && SpendsGroup(row.tx, cs) && ClaimTransaction(cs, rate, height, destination, dustLimit) == Ok(row.tx)
    && row.feePerKw == rate && row.destination == destination && row.autoBump
  }

  /** A group whose outputs can pay for a claim is claimed; if everything answers, its row is all that is added. */
  lemma {:induction false} GroupIsClaimed(l: Ledger, dustLimit: u64, height: u64, cs: seq<Claimable>, market: Market,
      blocks: i32)
    requires Least(cs, height, blocks) && market.estimate(blocks).Some? && market.newAddress.Some?
    requires Affordable(cs, market.estimate(blocks).value, height, market.newAddress.value, dustLimit)
    ensures exists row ::
              && ClaimsGroup(dustLimit, height, cs, market.estimate(blocks).value, market.newAddress.value, row)
              && Arrives(row, market.answers, l, ClaimStep(l, dustLimit, height, cs, market).0)
              && (market.answers == Answers(Accepted, true, true) && IsNew(l.claims, row.tx) ==>
                    ClaimStep(l, dustLimit, height, cs, market).1 == Ok(())
                    && Added(l, ClaimStep(l, dustLimit, height, cs, market).0, row))
  {
    hide ClaimTransaction, IdTaken, IsNew, FeeSat, Least, MinBlocksLeft, ClaimStep, MakeClaim, TotalValue, SpendsGroup;
    var rate, destination := market.estimate(blocks).value, market.newAddress.value;
    GroupClaims(l, dustLimit, height, cs, market, blocks);
    ClaimPossibleWhen(cs, rate, height, destination, dustLimit);
    ClaimLeaves(l, dustLimit, cs, rate, height, destination, true, market.answers);
    var tx := ClaimTransaction(cs, rate, height, destination, dustLimit);
    assert tx.Ok?;
    ClaimSpendsGroup(cs, rate, height, destination, dustLimit);
    assert ClaimsGroup(dustLimit, height, cs, rate, destination, ClaimRow(tx.value, destination, rate, true));
  }

  lemma {:induction false} GroupClaims(l: Ledger, dustLimit: u64, height: u64, cs: seq<Claimable>, market: Market,
      blocks: i32)
    requires Least(cs, height, blocks) && market.estimate(blocks).Some? && market.newAddress.Some?
    ensures var (l', made) := MakeClaim(l, dustLimit, cs, market.estimate(blocks).value, height,
                market.newAddress.value, true, market.answers);
            ClaimStep(l, dustLimit, height, cs, market) == (l', if made.Ok? then Ok(()) else Err(made.error))
  {
    hide Least, MinBlocksLeft, MakeClaim;
    LeastIsMin(cs, height, blocks);
  }

  /**
   What a recheck has led to when the round is over: an outdated claim whose outputs can
   pay for it has its replacement at the new rate, and any other was sent again. `reached`
   is the ledger the recheck met.
   */
  ghost predicate RecheckDelivers(dustLimit: u64, worth: OutPoint -> nat, height: u64, rc: Recheck, market: Market,
      reached: Ledger, end: Ledger) {
    forall blocks :: Least(rc.claimables, height, blocks) && market.estimate(blocks).Some? ==>
      var rate := market.estimate(blocks).value;
      if Outdated(rc.claim.feePerKw, rate) then
        Affordable(rc.claimables, rate, height, rc.claim.destination, dustLimit) ==>
          exists row {:trigger Replaces(dustLimit, worth, rc.claim, row)} ::
            && Replaces(dustLimit, worth, rc.claim, row) && row.feePerKw == rate
            && Arrives(row, market.answers, reached, end)
      else
        market.answers.broadcast == Accepted ==> rc.claim.tx in end.sent
  }

  /** What the claim of a group has led to. */
  ghost predicate GroupDelivers(dustLimit: u64, height: u64, cs: seq<Claimable>, market: Market, reached: Ledger,
      end: Ledger) {
    forall blocks :: Least(cs, height, blocks) && market.estimate(blocks).Some? && market.newAddress.Some? ==>
      var (rate, destination) := (market.estimate(blocks).value, market.newAddress.value);
      Affordable(cs, rate, height, destination, dustLimit) ==>
        exists row ::
          ClaimsGroup(dustLimit, height, cs, rate, destination, row) && Arrives(row, market.answers, reached, end)
  }

  lemma {:induction false} RecheckGrows(l: Ledger, dustLimit: u64, height: u64, rc: Recheck, market: Market)
    ensures Grows(l, RecheckStep(l, dustLimit, height, rc, market).0)
  {
    hide ClaimTransaction, IdTaken, MinBlocksLeft, Sufficient;
  }

  lemma {:induction false} ClaimGrows(l: Ledger, dustLimit: u64, height: u64, cs: seq<Claimable>, market: Market)
    ensures Grows(l, ClaimStep(l, dustLimit, height, cs, market).0)
  {
    hide ClaimTransaction, IdTaken, MinBlocksLeft;
  }

  lemma {:induction false} RecheckAllGrows(l: Ledger, dustLimit: u64, height: u64, rcs: seq<Recheck>,
      markets: seq<Market>, k: nat)
    requires |markets| == |rcs| && k <= |rcs|
    ensures Grows(RecheckAll(l, dustLimit, height, rcs[..k], markets[..k]),
                  RecheckAll(l, dustLimit, height, rcs, markets))
    decreases |rcs|
  {
    hide RecheckStep;
    if k == |rcs| {
      assert rcs[..k] == rcs && markets[..k] == markets;
    } else {
      var n := |rcs| - 1;
      assert rcs[..n][..k] == rcs[..k] && markets[..n][..k] == markets[..k];
      RecheckAllGrows(l, dustLimit, height, rcs[..n], markets[..n], k);
      RecheckGrows(RecheckAll(l, dustLimit, height, rcs[..n], markets[..n]), dustLimit, height, rcs[n], markets[n]);
    }
  }

  lemma {:induction false} ClaimAllGrows(l: Ledger, dustLimit: u64, height: u64, groups: map<Hash, seq<Claimable>>,
      order: seq<Hash>, markets: seq<Market>, k: nat)
    requires |markets| == |order| && k <= |order| && forall h :: h in order ==> h in groups
    ensures Grows(ClaimAll(l, dustLimit, height, groups, order[..k], markets[..k]),
                  ClaimAll(l, dustLimit, height, groups, order, markets))
    decreases |order|
  {
    hide ClaimStep;
    if k == |order| {
      assert order[..k] == order && markets[..k] == markets;
    } else {
      var n := |order| - 1;
      assert order[..n][..k] == order[..k] && markets[..n][..k] == markets[..k];
      ClaimAllGrows(l, dustLimit, height, groups, order[..n], markets[..n], k);
      ClaimGrows(ClaimAll(l, dustLimit, height, groups, order[..n], markets[..n]), dustLimit, height, groups[order[n]],
          markets[n]);
    }
  }

  /** Everything a round has led to, each recheck and each claim from the ledger it met. */
  ghost predicate Delivered(dustLimit: u64, worth: OutPoint -> nat, height: u64, rcs: seq<Recheck>, asked: seq<Market>,
      groups: map<Hash, seq<Claimable>>, order: seq<Hash>, answered: seq<Market>, l: Ledger)
    requires |asked| == |rcs| && |answered| == |order| && forall h :: h in order ==> h in groups
  {
    var mid := RecheckAll(l, dustLimit, height, rcs, asked);
    var end := ClaimAll(mid, dustLimit, height, groups, order, answered);
    && (forall k :: 0 <= k < |rcs| ==> RecheckDelivers(dustLimit, worth, height, rcs[k], asked[k],
          RecheckAll(l, dustLimit, height, rcs[..k], asked[..k]), end))
    && (forall k :: 0 <= k < |order| ==> GroupDelivers(dustLimit, height, groups[order[k]], answered[k],
          ClaimAll(mid, dustLimit, height, groups, order[..k], answered[..k]), end))
  }

  /** No recheck and no claim of a round is passed over: each leads to what its answers allow. */
  lemma {:induction false} RoundDelivers(dustLimit: u64, worth: OutPoint -> nat, m: ByOutPoint, claims: seq<Claim>,
      groups: map<Hash, seq<Claimable>>, l: Ledger, height: u64, asked: seq<Market>, order: seq<Hash>,
      answered: seq<Market>)
    requires Keyed(m) && forall op :: op in m ==> m[op].utxo.value == worth(op)
    requires |asked| == |Rechecks(m, claims)| && |answered| == |order| && forall h :: h in order ==> h in groups
    ensures Delivered(dustLimit, worth, height, Rechecks(m, claims), asked, groups, order, answered, l)
  {
    hide RecheckDelivers, GroupDelivers, RecheckAll, ClaimAll, Rechecks;
    var rcs := Rechecks(m, claims);
    var mid := RecheckAll(l, dustLimit, height, rcs, asked);
    var end := ClaimAll(mid, dustLimit, height, groups, order, answered);
    forall k | 0 <= k < |rcs|
      ensures RecheckDelivers(dustLimit, worth, height, rcs[k], asked[k],
          RecheckAll(l, dustLimit, height, rcs[..k], asked[..k]), end)
    {
      var reached := RecheckAll(l, dustLimit, height, rcs[..k], asked[..k]);
      RecheckedLater(l, dustLimit, height, rcs, asked, k);
      RoundGrows(mid, dustLimit, height, groups, order, answered);
      OneRecheckDelivers(dustLimit, worth, m, claims, height, rcs[k], asked[k], reached, end);
    }
    forall k | 0 <= k < |order|
      ensures GroupDelivers(dustLimit, height, groups[order[k]], answered[k],
          ClaimAll(mid, dustLimit, height, groups, order[..k], answered[..k]), end)
    {
      var reached := ClaimAll(mid, dustLimit, height, groups, order[..k], answered[..k]);
      ClaimedLater(mid, dustLimit, height, groups, order, answered, k);
      OneGroupDelivers(dustLimit, height, groups[order[k]], answered[k], reached, end);
    }
  }

  lemma {:induction false} RecheckedLater(l: Ledger, dustLimit: u64, height: u64, rcs: seq<Recheck>,
      markets: seq<Market>, k: nat)
    requires |markets| == |rcs| && k < |rcs|
    ensures Grows(RecheckStep(RecheckAll(l, dustLimit, height, rcs[..k], markets[..k]), dustLimit, height, rcs[k],
        markets[k]).0, RecheckAll(l, dustLimit, height, rcs, markets))
  {
    hide RecheckStep;
    assert rcs[..k + 1][..k] == rcs[..k] && markets[..k + 1][..k] == markets[..k];
    RecheckAllGrows(l, dustLimit, height, rcs, markets, k + 1);
  }

  lemma {:induction false} ClaimedLater(l: Ledger, dustLimit: u64, height: u64, groups: map<Hash, seq<Claimable>>,
      order: seq<Hash>, markets: seq<Market>, k: nat)
    requires |markets| == |order| && k < |order| && forall h :: h in order ==> h in groups
    ensures Grows(ClaimStep(ClaimAll(l, dustLimit, height, groups, order[..k], markets[..k]), dustLimit, height,
        groups[order[k]], markets[k]).0, ClaimAll(l, dustLimit, height, groups, order, markets))
  {
    hide ClaimStep;
    assert order[..k + 1][..k] == order[..k] && markets[..k + 1][..k] == markets[..k];
    ClaimAllGrows(l, dustLimit, height, groups, order, markets, k + 1);
  }

  lemma {:induction false} RoundGrows(l: Ledger, dustLimit: u64, height: u64, groups: map<Hash, seq<Claimable>>,
      order: seq<Hash>, markets: seq<Market>)
    requires |markets| == |order| && forall h :: h in order ==> h in groups
    ensures Grows(l, ClaimAll(l, dustLimit, height, groups, order, markets))
  {
    hide ClaimStep;
    ClaimAllGrows(l, dustLimit, height, groups, order, markets, 0);
    assert order[..0] == [] && markets[..0] == [];
  }

  lemma {:induction false} OneRecheckDelivers(dustLimit: u64, worth: OutPoint -> nat, m: ByOutPoint,
      claims: seq<Claim>, height: u64, rc: Recheck, market: Market, reached: Ledger, end: Ledger)
    requires Keyed(m) && rc in Rechecks(m, claims) && forall op :: op in m ==> m[op].utxo.value == worth(op)
    requires Grows(RecheckStep(reached, dustLimit, height, rc, market).0, end)
    ensures RecheckDelivers(dustLimit, worth, height, rc, market, reached, end)
  {
    hide Least, RecheckStep, Outdated, Affordable, Replaces, Rechecks, Arrives;
    var mid := RecheckStep(reached, dustLimit, height, rc, market).0;
    forall blocks | Least(rc.claimables, height, blocks) && market.estimate(blocks).Some?
      ensures var rate := market.estimate(blocks).value;
        if Outdated(rc.claim.feePerKw, rate) then
          Affordable(rc.claimables, rate, height, rc.claim.destination, dustLimit) ==>
            exists row {:trigger Replaces(dustLimit, worth, rc.claim, row)} ::
              && Replaces(dustLimit, worth, rc.claim, row) && row.feePerKw == rate
              && Arrives(row, market.answers, reached, end)
        else
          market.answers.broadcast == Accepted ==> rc.claim.tx in end.sent
    {
      var rate := market.estimate(blocks).value;
      if !Outdated(rc.claim.feePerKw, rate) {
        RecheckRebroadcasts(reached, dustLimit, height, rc, market, blocks);
        if market.answers.broadcast == Accepted {
          assert rc.claim.tx in mid.sent;
          Kept(rc.claim.tx, mid.sent, end.sent);
        }
      } else if Affordable(rc.claimables, rate, height, rc.claim.destination, dustLimit) {
        RecheckReplaces(reached, dustLimit, worth, m, claims, height, rc, market, blocks);
        var row :| Replaces(dustLimit, worth, rc.claim, row) && row.feePerKw == rate
            && Arrives(row, market.answers, reached, mid);
        ArrivesLater(row, market.answers, reached, mid, end);
      }
    }
  }

  lemma {:induction false} OneGroupDelivers(dustLimit: u64, height: u64, cs: seq<Claimable>, market: Market,
      reached: Ledger, end: Ledger)
    requires Grows(ClaimStep(reached, dustLimit, height, cs, market).0, end)
    ensures GroupDelivers(dustLimit, height, cs, market, reached, end)
  {
    hide Least, ClaimStep, Affordable, ClaimsGroup, Arrives;
    var mid := ClaimStep(reached, dustLimit, height, cs, market).0;
    forall blocks | Least(cs, height, blocks) && market.estimate(blocks).Some? && market.newAddress.Some?
      ensures var (rate, destination) := (market.estimate(blocks).value, market.newAddress.value);
        Affordable(cs, rate, height, destination, dustLimit) ==>
          exists row ::
            ClaimsGroup(dustLimit, height, cs, rate, destination, row) && Arrives(row, market.answers, reached, end)
    {
      var rate, destination := market.estimate(blocks).value, market.newAddress.value;
      if Affordable(cs, rate, height, destination, dustLimit) {
        GroupIsClaimed(reached, dustLimit, height, cs, market, blocks);
        var row :| ClaimsGroup(dustLimit, height, cs, rate, destination, row)
            && Arrives(row, market.answers, reached, mid);
        ArrivesLater(row, market.answers, reached, mid, end);
      }
    }
  }

  lemma {:induction false} ClaimSpendsGroup(cs: seq<Claimable>, rate: u32, height: u64, destination: Destination,
      dustLimit: u64)
    requires ClaimTransaction(cs, rate, height, destination, dustLimit).Ok?
    ensures SpendsGroup(ClaimTransaction(cs, rate, height, destination, dustLimit).value, cs)
  {
    hide FeeSat;
    var tx := ClaimTransaction(cs, rate, height, destination, dustLimit).value;
    var sorted := SortByOutPoint(cs);
    SameMembers(sorted, cs);
    forall op ensures op in Spent(tx) <==> exists i :: 0 <= i < |cs| && cs[i].utxo.outpoint == op {
      if op in Spent(tx) {
        var i :| 0 <= i < |sorted| && sorted[i].utxo.outpoint == op;
        assert sorted[i] in cs;
      }
      if i :| 0 <= i < |cs| && cs[i].utxo.outpoint == op {
        assert cs[i] in sorted;
        var j :| 0 <= j < |sorted| && sorted[j] == cs[i];
        assert Spent(tx)[j] == op;
      }
    }
  }

  lemma {:induction false} ClaimEffect(dustLimit: u64, worth: OutPoint -> nat, m: ByOutPoint, claims: seq<Claim>,
      groups: map<Hash,
      seq<Claimable>>,
                                       l: Ledger, height: u64, h: Hash, market: Market)
    requires dustLimit > 0 && GroupsFresh(m, claims, groups) && h in groups
    requires forall op :: op in m ==> m[op].utxo.value == worth(op)
    ensures RoundEffect(dustLimit, worth, m, claims, groups, l, ClaimStep(l, dustLimit, height, groups[h], market).0)
  {
    hide ClaimTransaction, MinBlocksLeft, Handled, SpendsGroup, DistinctOutPoints;
    var cs := groups[h];
    var blocksLeft := MinBlocksLeft(cs, height);
    if blocksLeft.Some? {
      var estimate := market.estimate(blocksLeft.value);
      if estimate.Some? && market.newAddress.Some? {
        var destination := market.newAddress.value;
        var tx := ClaimTransaction(cs, estimate.value, height, destination, dustLimit);
        if tx.Ok? {
          ClaimSpendsGroup(cs, estimate.value, height, destination, dustLimit);
          assert CraftedFrom(dustLimit, worth, ClaimRow(tx.value, destination, estimate.value, true), cs, height);
        }
        MakeClaimEffect(dustLimit, worth, m, claims, groups, l, cs, estimate.value, height, destination, true,
            market.answers);
      }
    }
  }

  /** Rounds keep the ledger's invariant: what they store is crafted. */
  lemma {:induction false} EffectKeepsInv(dustLimit: u64, worth: OutPoint -> nat, m: ByOutPoint, claims: seq<Claim>,
      groups: map<Hash,
      seq<Claimable>>,
                                          l: Ledger, l': Ledger)
    requires dustLimit > 0 && LedgerInv(dustLimit, worth, l) && RoundEffect(dustLimit, worth, m, claims, groups, l, l')
    requires forall c :: c in claims ==> Crafted(dustLimit, worth, c)
    ensures LedgerInv(dustLimit, worth, l')
  {
    hide Crafted, Replaces;
    forall k | 0 <= k < |l'.claims| ensures Crafted(dustLimit, worth, l'.claims[k]) {
      if k < |l.claims| {
        assert l'.claims[k] == l.claims[k];
      } else {
        var row := l'.claims[k];
        assert MayStore(dustLimit, worth, m, claims, groups, row);
        if c :| c in claims && FullyClaimable(m, c) && Replaces(dustLimit, worth, c, row) {
          ReplacementSpendsTheSame(dustLimit, worth, c, row);
        }
      }
    }
  }

  lemma {:induction false} RecheckAllEffect(dustLimit: u64, worth: OutPoint -> nat, m: ByOutPoint, claims: seq<Claim>,
      groups: map<Hash, seq<Claimable>>,
                                            l: Ledger, height: u64, rcs: seq<Recheck>, markets: seq<Market>)
    requires dustLimit > 0 && Keyed(m) && |markets| == |rcs|
    requires forall rc :: rc in rcs ==> rc in Rechecks(m, claims) && Crafted(dustLimit, worth, rc.claim)
    requires forall op :: op in m ==> m[op].utxo.value == worth(op)
    ensures RoundEffect(dustLimit, worth, m, claims, groups, l, RecheckAll(l, dustLimit, height, rcs, markets))
    decreases |rcs|
  {
    hide RoundEffect, Crafted, RecheckStep;
    if rcs == [] {
      NoEffect(dustLimit, worth, m, claims, groups, l);
    } else {
      var n := |rcs| - 1;
      var mid := RecheckAll(l, dustLimit, height, rcs[..n], markets[..n]);
      RecheckAllEffect(dustLimit, worth, m, claims, groups, l, height, rcs[..n], markets[..n]);
      RecheckEffect(dustLimit, worth, m, claims, groups, mid, height, rcs[n], markets[n]);
      EffectThen(dustLimit, worth, m, claims, groups, l, mid, RecheckAll(l, dustLimit, height, rcs, markets));
    }
  }

  lemma {:induction false} ClaimAllEffect(dustLimit: u64, worth: OutPoint -> nat, m: ByOutPoint, claims: seq<Claim>,
      groups: map<Hash, seq<Claimable>>,
                                          l: Ledger, height: u64, order: seq<Hash>, markets: seq<Market>)
    requires dustLimit > 0 && GroupsFresh(m, claims, groups) && |markets| == |order| && forall h ::
        h in order ==> h in groups
    requires forall op :: op in m ==> m[op].utxo.value == worth(op)
    ensures RoundEffect(dustLimit, worth, m, claims, groups, l, ClaimAll(l, dustLimit, height, groups, order, markets))
    decreases |order|
  {
    hide RoundEffect, GroupsFresh, ClaimStep;
    if order == [] {
      NoEffect(dustLimit, worth, m, claims, groups, l);
    } else {
      var n := |order| - 1;
      var mid := ClaimAll(l, dustLimit, height, groups, order[..n], markets[..n]);
      ClaimAllEffect(dustLimit, worth, m, claims, groups, l, height, order[..n], markets[..n]);
      ClaimEffect(dustLimit, worth, m, claims, groups, mid, height, order[n], markets[n]);
      EffectThen(dustLimit, worth, m, claims, groups, l, mid, ClaimAll(l, dustLimit, height, groups, order, markets));
    }
  }

  /**
   What a whole round does, whatever the outside answers: it only rebroadcasts
   or replaces stored claims that are still valid, and makes claims for whole
   groups of fresh outputs; and every row of the ledger stays crafted.
   */
  lemma {:induction false} RoundIsSafe(dustLimit: u64, worth: OutPoint -> nat, m: ByOutPoint, claims: seq<Claim>,
      groups: map<Hash,
      seq<Claimable>>,
                                       l: Ledger, height: u64, asked: seq<Market>, order: seq<Hash>,
                                           answered: seq<Market>)
    requires dustLimit > 0 && Keyed(m) && GroupsFresh(m, claims, groups) && LedgerInv(dustLimit, worth, l)
    requires forall c :: c in claims ==> c in l.claims
    requires forall op :: op in m ==> m[op].utxo.value == worth(op)
    requires |asked| == |Rechecks(m, claims)| && |answered| == |order| && forall h :: h in order ==> h in groups
    ensures var l' := ClaimAll(RecheckAll(l, dustLimit, height, Rechecks(m, claims), asked), dustLimit, height, groups,
        order, answered);
            RoundEffect(dustLimit, worth, m, claims, groups, l, l') && LedgerInv(dustLimit, worth, l')
  {
    hide RoundEffect, GroupsFresh, Crafted;
    var rcs := Rechecks(m, claims);
    var mid := RecheckAll(l, dustLimit, height, rcs, asked);
    forall rc | rc in rcs ensures Crafted(dustLimit, worth, rc.claim) {
      RechecksMeaning(m, claims, rc);
    }
    RecheckAllEffect(dustLimit, worth, m, claims, groups, l, height, rcs, asked);
    ClaimAllEffect(dustLimit, worth, m, claims, groups, mid, height, order, answered);
    EffectThen(dustLimit, worth, m, claims, groups, l, mid, ClaimAll(mid, dustLimit, height, groups, order, answered));
    EffectKeepsInv(dustLimit, worth, m, claims, groups, l, ClaimAll(mid, dustLimit, height, groups, order, answered));
  }

  lemma {:induction false} NoEffect(dustLimit: u64, worth: OutPoint -> nat, m: ByOutPoint, claims: seq<Claim>,
      groups: map<Hash,
      seq<Claimable>>, l: Ledger)
    ensures RoundEffect(dustLimit, worth, m, claims, groups, l, l)
  {
  }

  /** The chain takes what is sent, and there is an estimate the outputs can pay if they have to. */
  ghost predicate CanRecheck(dustLimit: u64, height: u64, rc: Recheck, market: Market) {
    && market.answers.broadcast == Accepted
    && forall blocks :: Least(rc.claimables, height, blocks) ==>
         && market.estimate(blocks).Some?
         && (Outdated(rc.claim.feePerKw, market.estimate(blocks).value) ==>
               Affordable(rc.claimables, market.estimate(blocks).value, height, rc.claim.destination, dustLimit))
  }

  ghost predicate CanClaim(dustLimit: u64, height: u64, cs: seq<Claimable>, market: Market) {
    && market.answers.broadcast == Accepted && market.newAddress.Some?
    && forall blocks :: Least(cs, height, blocks) ==>
         && market.estimate(blocks).Some?
         && Affordable(cs, market.estimate(blocks).value, height, market.newAddress.value, dustLimit)
  }

  lemma {:induction false} SomeLeast(cs: seq<Claimable>, height: u64)
    requires cs != []
    ensures exists blocks :: Least(cs, height, blocks)
  {
    MinIsLeast(cs, height);
    assert Least(cs, height, MinBlocksLeft(cs, height).value);
  }

  lemma {:induction false} RecheckSpends(dustLimit: u64, worth: OutPoint -> nat, height: u64, rc: Recheck,
      market: Market, reached: Ledger, end: Ledger, op: OutPoint)
    requires dustLimit > 0 && Crafted(dustLimit, worth, rc.claim) && rc.claimables != [] && op in Spent(rc.claim.tx)
    requires RecheckDelivers(dustLimit, worth, height, rc, market, reached, end)
    requires CanRecheck(dustLimit, height, rc, market)
    ensures exists tx :: tx in end.sent && op in Spent(tx)
  {
    hide Least, Outdated, Affordable, Replaces, Crafted;
    SomeLeast(rc.claimables, height);
    var blocks :| Least(rc.claimables, height, blocks);
    var rate := market.estimate(blocks).value;
    if Outdated(rc.claim.feePerKw, rate) {
      var row :| Replaces(dustLimit, worth, rc.claim, row) && row.feePerKw == rate
          && Arrives(row, market.answers, reached, end);
      ReplacementSpendsTheSame(dustLimit, worth, rc.claim, row);
    }
  }

  lemma {:induction false} GroupSpends(dustLimit: u64, height: u64, cs: seq<Claimable>, market: Market,
      reached: Ledger, end: Ledger, i: nat)
    requires i < |cs| && GroupDelivers(dustLimit, height, cs, market, reached, end)
    requires CanClaim(dustLimit, height, cs, market)
    ensures exists tx :: tx in end.sent && cs[i].utxo.outpoint in Spent(tx)
  {
    hide Least, Affordable;
    SomeLeast(cs, height);
    var blocks :| Least(cs, height, blocks);
    var row :| ClaimsGroup(dustLimit, height, cs, market.estimate(blocks).value, market.newAddress.value, row)
        && Arrives(row, market.answers, reached, end);
  }

  /**
   Nothing that can be claimed is left lying: after a round in which the chain took what
   was sent and the outputs could pay, every claimable output that is paid for, or that a
   valid stored claim spends, is spent by a transaction that was sent.
   */
  lemma {:induction false} OutputIsSpent(dustLimit: u64, worth: OutPoint -> nat, m: ByOutPoint, claims: seq<Claim>,
      groups: map<Hash, seq<Claimable>>, l: Ledger, height: u64, asked: seq<Market>, order: seq<Hash>,
      answered: seq<Market>, op: OutPoint)
    requires dustLimit > 0 && Keyed(m) && GroupsFresh(m, claims, groups) && Lists(order, groups.Keys)
    requires |asked| == |Rechecks(m, claims)| && |answered| == |order|
    requires Delivered(dustLimit, worth, height, Rechecks(m, claims), asked, groups, order, answered, l)
    requires forall c :: c in claims ==> Crafted(dustLimit, worth, c)
    requires forall k :: 0 <= k < |asked| ==> CanRecheck(dustLimit, height, Rechecks(m, claims)[k], asked[k])
    requires forall k :: 0 <= k < |order| ==> CanClaim(dustLimit, height, groups[order[k]], answered[k])
    requires op in m && (m[op].paidWithRequest.Some? || Handled(m, claims, op))
    ensures var mid := RecheckAll(l, dustLimit, height, Rechecks(m, claims), asked);
            exists tx :: tx in ClaimAll(mid, dustLimit, height, groups, order, answered).sent && op in Spent(tx)
  {
    hide CanRecheck, CanClaim, RecheckDelivers, GroupDelivers, Crafted, RecheckAll, ClaimAll;
    var rcs := Rechecks(m, claims);
    var mid := RecheckAll(l, dustLimit, height, rcs, asked);
    var end := ClaimAll(mid, dustLimit, height, groups, order, answered);
    HandledIsRechecked(m, claims, op);
    if Handled(m, claims, op) {
      var k, i :| 0 <= k < |rcs| && 0 <= i < |rcs[k].claimables| && rcs[k].claimables[i].utxo.outpoint == op;
      RechecksMeaning(m, claims, rcs[k]);
      assert Spent(rcs[k].claim.tx)[i] == op;
      RecheckSpends(dustLimit, worth, height, rcs[k], asked[k],
          RecheckAll(l, dustLimit, height, rcs[..k], asked[..k]), end, op);
    } else {
      var c := m[op];
      assert IsFresh(m, claims, c);
      var i :| 0 <= i < |groups[c.swapHash]| && groups[c.swapHash][i] == c;
      var k :| 0 <= k < |order| && order[k] == c.swapHash;
      GroupSpends(dustLimit, height, groups[order[k]], answered[k],
          ClaimAll(mid, dustLimit, height, groups, order[..k], answered[..k]), end, i);
    }
  }

  class Monitor {
    const service: Service

    constructor (service: Service)
      ensures this.service == service
    {
      this.service := service;
    }

    method RecheckClaim(height: u64, rc: Recheck, market: Market) returns (r: Result<(), ClaimError>)
      modifies service
      ensures (service.State(), r) == RecheckStep(old(service.State()), service.dustLimit, height, rc, market)
    {
      var blocksLeft := MinBlocksLeft(rc.claimables, height);
      if blocksLeft.None? { return Err(NoInputs); }
      var estimate := market.estimate(blocksLeft.value);
      if estimate.None? { return Err(NoEstimate); }
      if Sufficient(rc.claim.feePerKw, estimate.value) {
        service.BroadcastTx(rc.claim.tx, market.answers.broadcast);
        match market.answers.broadcast {
          case Accepted => return Ok(());
          case InsufficientFee => return Ok(());
          case _ => return Err(NotBroadcast(market.answers.broadcast));
        }
      }
      var made := service.Claim(rc.claimables, estimate.value, height, rc.claim.destination, rc.claim.autoBump,
          market.answers);
      r := if made.Ok? then Ok(()) else Err(made.error);
    }

    method ClaimGroup(height: u64, cs: seq<Claimable>, market: Market) returns (r: Result<(), ClaimError>)
      modifies service
      ensures (service.State(), r) == ClaimStep(old(service.State()), service.dustLimit, height, cs, market)
    {
      var blocksLeft := MinBlocksLeft(cs, height);
      if blocksLeft.None? { return Err(NoInputs); }
      var estimate := market.estimate(blocksLeft.value);
      if estimate.None? { return Err(NoEstimate); }
      if market.newAddress.None? { return Err(NoAddress); }
      var made := service.Claim(cs, estimate.value, height, market.newAddress.value, true, market.answers);
      r := if made.Ok? then Ok(()) else Err(made.error);
    }

    /** Whatever the outside will answer next. */
    method Ask() returns (market: Market) { market := *; }

    /**
     One round over the claimables listed and any selection of stored claims:
     every still valid claim is rechecked, then every group claimed, each once.
     */
    method DoClaim(height: u64, claimables: seq<Claimable>, claims: seq<Claim>, ghost worth: OutPoint -> nat)
      returns (m: ByOutPoint, groups: map<Hash, seq<Claimable>>, ghost asked: seq<Market>, ghost order: seq<Hash>,
          ghost answered: seq<Market>)
      requires service.dustLimit > 0 && LedgerInv(service.dustLimit, worth, service.State()) && Worth(worth, claimables)
      requires forall c :: c in claims ==> c in service.claims
      modifies service
      ensures Keyed(m) && GroupsFresh(m, claims, groups)
      ensures forall c :: c in claimables ==> c.utxo.outpoint in m
      ensures forall op :: op in m ==> m[op] in claimables
      ensures |asked| == |Rechecks(m, claims)| && |answered| == |order| && Lists(order, groups.Keys)
      ensures service.State()
           == ClaimAll(RecheckAll(old(service.State()), service.dustLimit, height, Rechecks(m, claims), asked),
                       service.dustLimit, height, groups, order, answered)
      ensures Delivered(service.dustLimit, worth, height, Rechecks(m, claims), asked, groups, order, answered,
                  old(service.State()))
      ensures RoundEffect(service.dustLimit, worth, m, claims, groups, old(service.State()), service.State())
      ensures LedgerInv(service.dustLimit, worth, service.State())
    {
      hide RoundEffect, GroupsFresh, LedgerInv, ClaimStep, RecheckStep, Delivered;
      ghost var before := service.State();
      m := CollectByOutPoint(claimables);
      var recheck;
      recheck, groups := Partition(m, claims);
      asked, order, answered := [], [], [];
      for k := 0 to |recheck|
        invariant |asked| == k && service.State() == RecheckAll(before, service.dustLimit, height, recheck[..k], asked)
      {
        var market := Ask();
        var r := RecheckClaim(height, recheck[k], market);
        assert recheck[..k + 1][..k] == recheck[..k] && (asked + [market])[..k] == asked;
        asked := asked + [market];
      }
      assert recheck[..|recheck|] == recheck;
      ghost var mid := service.State();
      var hashes := groups.Keys;
      while hashes != {}
        invariant hashes <= groups.Keys && Lists(order, groups.Keys - hashes)
        invariant |answered| == |order| && forall h :: h in order ==> h in groups
        invariant service.State() == ClaimAll(mid, service.dustLimit, height, groups, order, answered)
        decreases hashes
      {
        var h :| h in hashes;
        hashes := hashes - {h};
        var market := Ask();
        var r := ClaimGroup(height, groups[h], market);
        assert (order + [h])[..|order|] == order && (answered + [market])[..|order|] == answered;
        order, answered := order + [h], answered + [market];
      }
      assert groups.Keys - {} == groups.Keys;
      RoundIsSafe(service.dustLimit, worth, m, claims, groups, before, height, asked, order, answered);
      RoundDelivers(service.dustLimit, worth, m, claims, groups, before, height, asked, order, answered);
    }
  }
}
