/**
 The parts together: what a run of the pay/refund protocol says about the outputs
 the claim monitor makes new claims for.
 */
module Settlement {
  import opened Types
  import opened PaySwap
  import opened Timelock
  import opened SwapTables
  import opened Protocol
  import opened Attribution
  import opened ClaimTx
  import opened ChainTables
  import opened Claimables
  import opened ClaimMonitor
  import ClaimService

  /**
   The attempt was made for the output, for exactly what its outputs are worth,
   and is recorded as successful.
   */
  ghost predicate SettledBy(s: State, c: Claimable, l: Label) {
    && Succeeded(s, l) && l in s.plans && s.tables.attempts[l].hash == c.swapHash
    && c.utxo.outpoint in OutPoints(s.plans[l].outputs) && s.tables.attempts[l].outputs == OutPoints(s.plans[l].outputs)
    && s.tables.attempts[l].amountMsat == 1000 * SumValues(s.plans[l].outputs)
    && c.paidWithRequest == Some(s.tables.attempts[l].paymentRequest)
    && !NoneComplete(s.node, c.swapHash)
    && (l !in s.late && l !in s.revised ==> CompletedItself(s, l) && s.node[l].hash == c.swapHash)
  }

  lemma {:induction false} SuccessSettles(cfg: Config, s: State, c: Claimable, l: Label)
    requires DataInv(cfg, s) && OwnSuccesses(s) && c.paidWithRequest.Some?
    requires l in s.tables.attempts
    requires PaidBy(s.tables.attempts[l], c.swapHash, PaidOutpoint(c.utxo.outpoint, c.paidWithRequest.value))
    ensures SettledBy(s, c, l)
  {
    hide TablesInv, ReleasedInv, PreimagesSound;
    assert Succeeded(s, l);
  }

  lemma {:induction false} ListedIsSettled(cfg: Config, s: State, utxos: seq<AddressUtxo>, cs: seq<Claimable>,
      c: Claimable)
    requires Inv(cfg, s) && OwnInv(s) && IsListing(s.tables, utxos, cs) && c in cs
    ensures c.swapHash in s.tables.swaps && s.tables.swaps[c.swapHash].preimage == Some(c.preimage)
    ensures PaidWith(s.node, c.swapHash, c.preimage)
    ensures c.paidWithRequest.Some? ==> exists l :: SettledBy(s, c, l)
  {
    hide HandlersInv, MonitorsInv, TablesInv, ReleasedInv, AttemptsInv, NodeInv, ResultsSound, PlansSound,
        OwnSuccesses, SettledBy;
    var u :| u in utxos && IsClaimable(s.tables, u, c);
    if c.paidWithRequest.Some? {
      var l :| l in s.tables.attempts && PaidBy(s.tables.attempts[l], c.swapHash,
          PaidOutpoint(c.utxo.outpoint, c.paidWithRequest.value));
      SuccessSettles(cfg, s, c, l);
    }
  }

  /**
   Every output in a group for a new claim is among the recorded outputs of an
   attempt of the group's own swap that was for exactly the value of its outputs
   and is marked successful; the node completed a payment of that swap, and it
   completed this very attempt unless the attempt was locked when the swap had
   its preimage already or its success replaced a failure. (That these two
   exceptions are real is `Attribution.SuccessIsOwnExactly`.)
   */
  lemma {:induction false} NewClaimsArePaidFor(
      cfg: Config, states: seq<State>, actions: seq<Action>, i: nat, utxos: seq<AddressUtxo>, cs: seq<Claimable>,
      m: ByOutPoint, claims: seq<ClaimService.Claim>, groups: map<Hash, seq<Claimable>>, h: Hash, c: Claimable)
    requires IsRun(cfg, states, actions) && i < |states| && IsListing(states[i].tables, utxos, cs)
    requires (forall op :: op in m ==> m[op] in cs) && GroupsFresh(m, claims, groups)
    requires h in groups && c in groups[h]
    ensures c.swapHash == h && exists l :: SettledBy(states[i], c, l)
  {
    RunKeepsInv(cfg, states, actions, i);
    RunKeepsOwn(cfg, states, actions, i);
    assert IsFresh(m, claims, c);
    ListedIsSettled(cfg, states[i], utxos, cs, c);
  }

  /**
   What the first exception costs: two requests with one hash and different
   outputs both pass, the second one locks late, and an output of the second is
   claimable as paid although no completed payment was made for it.
   */
  lemma {:induction false} UnpaidOutputIsClaimable(cfg: Config, row: SwapRow, first: PassedRequest,
      second: PassedRequest, txo: Txo)
    returns (s: State, c: Claimable)
    requires Passes(cfg, row, first) && Passes(cfg, row, second) && first.plan.hash == second.plan.hash
    requires txo in second.plan.outputs && txo.outpoint !in OutPoints(first.plan.outputs)
    ensures Reachable(cfg, s) && IsClaimable(s.tables, AddressUtxo(row.address, txo), c) && c.paidWithRequest.Some?
    ensures forall l ::
        CompletedItself(s, l) ==> l in s.tables.attempts && txo.outpoint !in s.tables.attempts[l].outputs
  {
    hide Reachable, Passes;
    s := LateNotOwn(cfg, row, first, second, 1, 2, 0);
    var i :| 0 <= i < |second.plan.outputs| && second.plan.outputs[i] == txo;
    assert OutPoints(second.plan.outputs)[i] == txo.outpoint;
    c := Claimable(txo, second.plan.hash, row.lockTime, 0, Some(second.plan.invoice));
    assert PaidBy(s.tables.attempts[2], c.swapHash, PaidOutpoint(txo.outpoint, second.plan.invoice));
  }

  /**
   Claiming and refunding exclude each other over whole runs: a swap with a
   claimable output has no refund signature out, before or ever after.
   */
  lemma {:induction false} ClaimableIsNeverRefunded(
      cfg: Config, states: seq<State>, actions: seq<Action>, i: nat, j: nat, utxos: seq<AddressUtxo>,
          cs: seq<Claimable>,
      c: Claimable, r: RefundId)
    requires IsRun(cfg, states, actions) && i < |states| && j < |states|
    requires IsListing(states[i].tables, utxos, cs) && c in cs
    ensures (c.swapHash, r) !in states[j].released
  {
    RunKeepsInv(cfg, states, actions, i);
    RunKeepsOwn(cfg, states, actions, i);
    ListedIsSettled(cfg, states[i], utxos, cs, c);
    var last := if i <= j then j else i;
    RunKeepsPaid(cfg, states, actions, i, last, c.swapHash, c.preimage);
    var l :| l in states[last].node && states[last].node[l].hash == c.swapHash
        && states[last].node[l].status == Complete(c.preimage);
    PaymentExcludesRefund(cfg, states, actions, j, last, l, r);
  }

  // ----------------------------------------- claims as spenders on the chain

  /** The transaction on the chain is this claim. */
  predicate IsClaimOnChain(t: Tx, tx: Transaction) {
    t.inputs == ClaimTx.Spent(tx) && t.outputs == [TxOutput(Some(tx.destination.address), tx.value)]
  }

  lemma {:induction false} ClaimIsRecorded(w: World, seen: ChainTables.Seen, b: BlockHash, txid: Txid, tx: Transaction)
    requires HasTx(w, b, txid) && IsClaimOnChain(w.txs[txid], tx) && b in seen && tx.destination.address in seen[b]
    ensures ChainTables.Recorded(w, seen, b, txid)
  {
    assert w.txs[txid].outputs[0].address == Some(tx.destination.address);
  }

  /**
   A claim that was made, recorded and watched is recorded as a spender when a
   block that holds it is processed afterwards, although the query asks for an
   output to a watched address: the claim itself is that output.
   */
  lemma {:induction false} MadeClaimIsRecorded(l: ClaimService.Ledger, dustLimit: u64, cs: seq<Claimable>, rate: u32,
      height: u64, destination: Destination, autoBump: bool, ans: ClaimService.Answers,
      w: World, seen: ChainTables.Seen, b: BlockHash, txid: Txid)
    requires ClaimService.MakeClaim(l, dustLimit, cs, rate, height, destination, autoBump, ans).1.Ok?
    requires var (l', r) := ClaimService.MakeClaim(l, dustLimit, cs, rate, height, destination, autoBump, ans);
             && HasTx(w, b, txid) && IsClaimOnChain(w.txs[txid], r.value)
             && b in seen && l'.watched <= seen[b]
    ensures ChainTables.Recorded(w, seen, b, txid)
  {
    hide IsClaimOnChain, HasTx, ChainTables.Recorded, FeeSat;
    var tx := ClaimTransaction(cs, rate, height, destination, dustLimit).value;
    assert tx.destination == destination;
    ClaimIsRecorded(w, seen, b, txid, tx);
  }

  /** As long as only claims that were watched in time spend watched outputs, `get_utxos` is right. */
  lemma {:induction false} ClaimsKeepUtxosRight(db: ChainDb, seen: ChainTables.Seen, w: World)
    requires DbInv(db, seen, w) && SaneChain(w, db.blocks) && NoDoubleSpend(w, db.blocks)
    requires forall b, b', op, k ::
        b in db.blocks && Makes(w, seen, b, op) && b' in db.blocks && SpendsIn(w, b', k, op) ==>
               exists tx :: IsClaimOnChain(w.txs[k.spendingTx], tx) && tx.destination.address in seen[b']
    ensures forall u :: u in GetUtxos(db) <==> Unspent(db, seen, w, u)
  {
    hide SaneChain, NoDoubleSpend, GetUtxos, Unspent, Makes;
    forall b, b', op, k | b in db.blocks && Makes(w, seen, b, op) && b' in db.blocks && SpendsIn(w, b', k, op)
      ensures ChainTables.Recorded(w, seen, b', k.spendingTx)
    {
      var tx :| IsClaimOnChain(w.txs[k.spendingTx], tx) && tx.destination.address in seen[b'];
      ClaimIsRecorded(w, seen, b', k.spendingTx, tx);
    }
    UtxosExactWhen(db, seen, w);
  }

  // ------------------------------------------------- requests that do pass

  const CONFIG := Config(1_000_000, 1, 10, 1_000, 10, 546)
  const EARLY := Txo(7, 100, OutPoint(1, 0), 100_000)
  const LATER := Txo(8, 101, OutPoint(2, 0), 50_000)
  const SWAP := SwapRow(1, 288, None)
  const NEIGHBOUR := SwapRow(2, 288, None)

  function SeenOnChain(txos: seq<Txo>): Observed { Observed(250, txos, 105, Some(txos), 250) }

  function RequestFor(h: Hash, invoice: Invoice, amountSat: nat, txos: seq<Txo>, window: u32): PassedRequest
    requires amountSat * 1000 <= U64_MAX
  {
    PassedRequest(PayRequest(invoice, Some(amountSat * 1000), h, 144), SeenOnChain(txos),
                  PayPlan(h, invoice, amountSat * 1000, txos, window, 144, 105))
  }

  const BEFORE := RequestFor(1, 1, 100_000, [EARLY], 273)
  const AFTER := RequestFor(1, 2, 150_000, [EARLY] + [LATER], 273)
  const ELSEWHERE := RequestFor(2, 3, 50_000, [LATER], 274)

  predicate IsExample(txos: seq<Txo>) { txos == [EARLY] || txos == [LATER] || txos == [EARLY] + [LATER] }

  lemma {:induction false} EligibleOne(obs: Observed, txo: Txo)
    requires IsEligible(CONFIG, obs, txo)
    ensures Eligible(CONFIG, obs, [txo]) == [txo]
  {
    hide IsEligible;
    assert [txo][1..] == [];
    EligibleFirst(CONFIG, obs, [txo]);
    EligibleOfNone(CONFIG, obs);
  }

  lemma {:induction false} ExampleTxosEligible(txos: seq<Txo>)
    requires IsExample(txos)
    ensures Eligible(CONFIG, SeenOnChain(txos), txos) == txos
  {
    assert MinAmountSat(CONFIG, 250) == 1_000;
    assert IsEligible(CONFIG, SeenOnChain(txos), EARLY) && IsEligible(CONFIG, SeenOnChain(txos), LATER);
    EligibleOne(SeenOnChain(txos), LATER);
    EligibleOne(SeenOnChain(txos), EARLY);
    EligibleOfConcat(CONFIG, SeenOnChain(txos), [EARLY], [LATER]);
  }

  lemma {:induction false} ExampleSum(txos: seq<Txo>)
    requires IsExample(txos)
    ensures SumValues(txos) == if txos == [EARLY] then 100_000 else if txos == [LATER] then 50_000 else 150_000
  {
    assert SumValues([LATER]) == 50_000 && SumValues([EARLY]) == 100_000;
    assert ([EARLY] + [LATER])[1..] == [LATER];
    assert SumValues([EARLY] + [LATER]) == 100_000 + SumValues([LATER]);
  }

  lemma {:induction false} ExampleClaimPossible(h: Hash, txos: seq<Txo>)
    requires IsExample(txos)
    ensures ClaimTransaction(FakeClaimables(h, 288, txos), 250, 105, FAKE_DESTINATION, 546).Ok?
  {
    var cs := FakeClaimables(h, 288, txos);
    ExampleSum(txos);
    TotalOfTxos(cs, txos);
    assert FeeSat(1, P2WPKH_SCRIPT_LENGTH, 250) == 138 && FeeSat(2, P2WPKH_SCRIPT_LENGTH, 250) == 234;
    ClaimPossibleWhen(cs, 250, 105, FAKE_DESTINATION, 546);
  }

  lemma {:induction false} ExampleWindow(txos: seq<Txo>)
    requires IsExample(txos)
    ensures txos != [] && PayoutWindow(SwapBlocksLeft(288, MinHeight(txos), 105), 10, 144, 10)
         == Some(if txos == [LATER] then 274 else 273)
  {
    assert MinHeight([LATER]) == 101 && MinHeight([EARLY]) == 100;
    assert ([EARLY] + [LATER])[1..] == [LATER];
    assert MinHeight([EARLY] + [LATER]) == 100;
  }

  lemma {:induction false} ExampleChecks(h: Hash, invoice: Invoice, amountSat: nat, txos: seq<Txo>, window: u32)
    requires IsExample(txos) && amountSat == SumValues(txos) && 1_000 <= amountSat <= 1_000_000
    requires window == if txos == [LATER] then 274 else 273
    ensures Passes(CONFIG, SwapRow(h, 288, None), RequestFor(h, invoice, amountSat, txos, window))
  {
    ExampleTxosEligible(txos);
    ExampleClaimPossible(h, txos);
    ExampleWindow(txos);
    assert MinAmountSat(CONFIG, 250) == 1_000 && (amountSat * 1000) / 1000 == amountSat;
    hide ClaimTransaction, Eligible, MinHeight, PayoutWindow, SwapBlocksLeft, SumValues, MinAmountSat, FakeClaimables;
  }

  /**
   Requests pass the checks: two for one swap, the second when another output
   has been confirmed, and one for another swap. So what is said about passing
   requests is said about something.
   */
  lemma {:induction false} SomeRequestsPass()
    ensures Passes(CONFIG, SWAP, BEFORE) && Passes(CONFIG, SWAP, AFTER) && BEFORE.plan.hash == AFTER.plan.hash
    ensures OtherSwap(CONFIG, SWAP, BEFORE.plan.hash, NEIGHBOUR, ELSEWHERE)
    ensures LATER in AFTER.plan.outputs && LATER.outpoint !in OutPoints(BEFORE.plan.outputs)
  {
    ExampleSum([EARLY]);
    ExampleSum([LATER]);
    ExampleSum([EARLY] + [LATER]);
    ExampleChecks(1, 1, 100_000, [EARLY], 273);
    ExampleChecks(1, 2, 150_000, [EARLY] + [LATER], 273);
    ExampleChecks(2, 3, 50_000, [LATER], 274);
    hide Passes;
  }
}
