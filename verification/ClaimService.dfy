/**
 Which outputs can be claimed: the query that joins swaps with the outputs
 their successful payments were made for, and the listing built from it.
 */
module Claimables {
  import opened Types
  import opened SwapTables
  import opened Protocol
  import opened ClaimTx
  import opened ChainTables

  datatype PaidOutpoint = PaidOutpoint(outpoint: OutPoint, paymentRequest: Invoice)
  datatype PaidSwap = PaidSwap(hash: Hash, row: SwapRow, paid: seq<PaidOutpoint>)

  /** A result row: the columns of a swap and, from the LEFT JOIN, one paid outpoint or NULLs. */
  datatype JoinRow = JoinRow(hash: Hash, row: SwapRow, paid: Option<PaidOutpoint>)

  predicate PaidBy(a: Attempt, h: Hash, p: PaidOutpoint) {
    a.hash == h && a.success == Some(true) && a.paymentRequest == p.paymentRequest && p.outpoint in a.outputs
  }

  /** A successful payment of that invoice for the swap was made for the output. */
  predicate PaidFor(t: Tables, h: Hash, p: PaidOutpoint) { exists l :: l in t.attempts && PaidBy(t.attempts[l], h, p) }

  function PaidOutpoints(t: Tables, h: Hash): (r: set<PaidOutpoint>)
    ensures forall p :: p in r <==> PaidFor(t, h, p)
  {
    set l, op | l in t.attempts && op in t.attempts[l].outputs && t.attempts[l].hash == h
        && t.attempts[l].success == Some(true)
      :: PaidOutpoint(op, t.attempts[l].paymentRequest)
  }

  /** The rows of the query, in no particular order. */
  function Join(t: Tables, addresses: set<Address>): set<JoinRow> {
    (set h, p | h in t.swaps && p in PaidOutpoints(t, h) && t.swaps[h].address in addresses ::
        JoinRow(h, t.swaps[h], Some(p)))
    + (set h | h in t.swaps && t.swaps[h].address in addresses && PaidOutpoints(t, h) == {} ::
        JoinRow(h, t.swaps[h], None))
  }

  lemma {:induction false} JoinRows(t: Tables, addresses: set<Address>, r: JoinRow)
    ensures r in Join(t, addresses)
       <==> && r.hash in t.swaps && r.row == t.swaps[r.hash] && r.row.address in addresses
            && if r.paid.Some? then PaidFor(t, r.hash, r.paid.value) else forall p :: !PaidFor(t, r.hash, p)
  {
  }

  /** The grouped rows: each queried address of a swap, with everything paid for that swap. */
  ghost predicate Grouped(t: Tables, addresses: set<Address>, result: map<Address, PaidSwap>) {
    && (forall a :: a in result ==>
          && a in addresses && result[a].hash in t.swaps && result[a].row == t.swaps[result[a].hash]
              && result[a].row.address == a
          && forall p :: p in result[a].paid <==> PaidFor(t, result[a].hash, p))
    && (forall h :: h in t.swaps && t.swaps[h].address in addresses ==> t.swaps[h].address in result)
  }

  /** What the rows read so far say. */
  ghost predicate GroupedSoFar(t: Tables, addresses: set<Address>, rows: set<JoinRow>, result: map<Address, PaidSwap>) {
    && (forall a :: a in result ==>
          && a in addresses && result[a].hash in t.swaps && result[a].row == t.swaps[result[a].hash]
              && result[a].row.address == a
          && forall p :: p in result[a].paid <==> JoinRow(result[a].hash, result[a].row, Some(p)) in rows)
    && (forall r :: r in rows ==> r.row.address in result)
  }

  lemma {:induction false} GroupRow(t: Tables, addresses: set<Address>, rows: set<JoinRow>, result: map<Address,
      PaidSwap>,
                                    r: JoinRow, result': map<Address, PaidSwap>)
    requires AddressesDistinct(t.swaps) && GroupedSoFar(t, addresses, rows, result) && r in Join(t, addresses)
        && r !in rows
    requires var entry := if r.row.address in result then result[r.row.address] else PaidSwap(r.hash, r.row, []);
             result' == result[r.row.address := if r.paid.Some? then entry.(paid := entry.paid + [r.paid.value])
                 else entry]
    ensures GroupedSoFar(t, addresses, rows + {r}, result')
  {
    JoinRows(t, addresses, r);
    forall a | a in result'
      ensures && a in addresses && result'[a].hash in t.swaps && result'[a].row == t.swaps[result'[a].hash]
          && result'[a].row.address == a
      ensures forall p :: p in result'[a].paid <==> JoinRow(result'[a].hash, result'[a].row, Some(p)) in rows + {r}
    {
      if a == r.row.address {
        assert result'[a].hash == r.hash;
        if a !in result {
          assert forall q :: q in rows ==> q.row.address != a;
        }
      }
    }
  }

  lemma {:induction false} AllRowsGrouped(t: Tables, addresses: set<Address>, result: map<Address, PaidSwap>)
    requires GroupedSoFar(t, addresses, Join(t, addresses), result)
    ensures Grouped(t, addresses, result)
  {
    forall a, p | a in result ensures p in result[a].paid <==> PaidFor(t, result[a].hash, p) {
      JoinRows(t, addresses, JoinRow(result[a].hash, result[a].row, Some(p)));
    }
    forall h | h in t.swaps && t.swaps[h].address in addresses ensures t.swaps[h].address in result {
      if p :| p in PaidOutpoints(t, h) {
        JoinRows(t, addresses, JoinRow(h, t.swaps[h], Some(p)));
        assert JoinRow(h, t.swaps[h], Some(p)) in Join(t, addresses);
      } else {
        assert JoinRow(h, t.swaps[h], None) in Join(t, addresses);
      }
    }
  }

  /** Reads the rows one by one into a map, as they come. */
  method GetSwapsWithPaidOutpoints(t: Tables, addresses: set<Address>) returns (result: map<Address, PaidSwap>)
    requires AddressesDistinct(t.swaps)
    ensures Grouped(t, addresses, result)
  {
    hide Join;
    result := map[];
    var rows, seen := Join(t, addresses), {};
    while rows != {}
      invariant seen !! rows && seen + rows == Join(t, addresses)
      invariant GroupedSoFar(t, addresses, seen, result)
      decreases rows
    {
      var r :| r in rows;
      ghost var before := result;
      if r.row.address !in result { result := result[r.row.address := PaidSwap(r.hash, r.row, [])]; }
      if r.paid.Some? {
        var entry := result[r.row.address];
        result := result[r.row.address := entry.(paid := entry.paid + [r.paid.value])];
      }
      GroupRow(t, addresses, seen, before, r, result);
      rows, seen := rows - {r}, seen + {r};
    }
    assert seen == Join(t, addresses);
    AllRowsGrouped(t, addresses, result);
  }

  // ---------------------------------------------------------- the listing

  /** The claimable for an output of the swap. */
  ghost predicate IsClaimable(t: Tables, u: AddressUtxo, c: Claimable) {
    && c.utxo == u.utxo
    && c.swapHash in t.swaps && t.swaps[c.swapHash].address == u.address
    && t.swaps[c.swapHash].preimage == Some(c.preimage) && t.swaps[c.swapHash].lockTime == c.lockTime
    && if c.paidWithRequest.Some? then PaidFor(t, c.swapHash, PaidOutpoint(c.utxo.outpoint, c.paidWithRequest.value))
       else forall inv :: !PaidFor(t, c.swapHash, PaidOutpoint(c.utxo.outpoint, inv))
  }

  predicate Claims(t: Tables, address: Address) {
    exists h :: h in t.swaps && t.swaps[h].address == address && t.swaps[h].preimage.Some?
  }

  /** The outputs whose swap has a preimage. */
  ghost predicate IsListing(t: Tables, utxos: seq<AddressUtxo>, cs: seq<Claimable>) {
    && (forall c :: c in cs ==> exists u :: u in utxos && IsClaimable(t, u, c))
    && (forall u :: u in utxos && Claims(t, u.address) ==> exists c :: c in cs && IsClaimable(t, u, c))
  }

  predicate DistinctUtxos(utxos: seq<AddressUtxo>) {
    forall i, j :: 0 <= i < j < |utxos| ==> utxos[i].utxo.outpoint != utxos[j].utxo.outpoint
  }

  method FindPaid(paid: seq<PaidOutpoint>, op: OutPoint) returns (r: Option<Invoice>)
    ensures r.Some? ==> PaidOutpoint(op, r.value) in paid
    ensures r.None? ==> forall inv :: PaidOutpoint(op, inv) !in paid
  {
    for i := 0 to |paid|
      invariant forall j :: 0 <= j < i ==> paid[j].outpoint != op
    {
      if paid[i].outpoint == op { return Some(paid[i].paymentRequest); }
    }
    r := None;
  }

  lemma {:induction false} ListNext(t: Tables, utxos: seq<AddressUtxo>, n: nat, cs: seq<Claimable>, c: Claimable)
    requires n < |utxos| && IsListing(t, utxos[..n], cs) && IsClaimable(t, utxos[n], c)
    ensures IsListing(t, utxos[..n + 1], cs + [c])
  {
  }

  lemma {:induction false} ListSkip(t: Tables, utxos: seq<AddressUtxo>, n: nat, cs: seq<Claimable>)
    requires n < |utxos| && IsListing(t, utxos[..n], cs) && !Claims(t, utxos[n].address)
    ensures IsListing(t, utxos[..n + 1], cs)
  {
  }

  /** `list_claimable`, over the swap tables at one moment and the outputs read before. */
  method ListClaimable(t: Tables, utxos: seq<AddressUtxo>) returns (cs: seq<Claimable>)
    requires AddressesDistinct(t.swaps)
    ensures IsListing(t, utxos, cs)
    ensures DistinctUtxos(utxos) ==> DistinctOutPoints(cs)
  {
    hide IsListing;
    var addresses := set u | u in utxos :: u.address;
    var swaps := GetSwapsWithPaidOutpoints(t, addresses);
    cs := [];
    ListNone(t);
    for n := 0 to |utxos|
      invariant IsListing(t, utxos[..n], cs)
      invariant forall c :: c in cs ==> exists k :: 0 <= k < n && c.utxo == utxos[k].utxo
      invariant DistinctUtxos(utxos) ==> DistinctOutPoints(cs)
    {
      var u := utxos[n];
      if u.address in swaps && swaps[u.address].row.preimage.Some? {
        var swap := swaps[u.address];
        var paid := FindPaid(swap.paid, u.utxo.outpoint);
        var c := Claimable(u.utxo, swap.hash, swap.row.lockTime, swap.row.preimage.value, paid);
        ListNext(t, utxos, n, cs, c);
        cs := cs + [c];
      } else {
        ListSkip(t, utxos, n, cs);
      }
    }
    assert utxos[..|utxos|] == utxos;
  }

  lemma {:induction false} ListNone(t: Tables)
    ensures IsListing(t, [], [])
  {
  }
}

/**
 `ClaimService::claim`: crafting, broadcasting and recording a claim. What the
 chain client and the two repositories answer is a parameter; the claims table
 refuses a transaction it has already.
 */
module ClaimService {
  import opened Types
  import opened ClaimTx

  /** A row of the claims table. */
  datatype Claim = ClaimRow(tx: Transaction, destination: Destination, feePerKw: u32, autoBump: bool)

  datatype Broadcast = Accepted | ChainUnavailable | InsufficientFee | Rejected
  datatype Answers = Answers(broadcast: Broadcast, recorded: bool, watching: bool)

  datatype ClaimError =
    | NotCrafted(error: SwapError)
    | NoInputs | NoEstimate | NoAddress
    | NotBroadcast(answer: Broadcast)
    | NotStored

  /** What claiming leaves behind: transactions the chain took, rows and watched addresses. */
  datatype Ledger = Ledger(sent: seq<Transaction>, claims: seq<Claim>, watched: set<Address>)

  /** The primary key of the claims table is the transaction id. */
  predicate IdTaken(claims: seq<Claim>, tx: Transaction) {
    exists c :: c in claims && IdentityOf(c.tx) == IdentityOf(tx)
  }

  predicate DistinctIds(claims: seq<Claim>) {
    forall i, j :: 0 <= i < j < |claims| ==> IdentityOf(claims[i].tx) != IdentityOf(claims[j].tx)
  }

  function MakeClaim(l: Ledger, dustLimit: u64, cs: seq<Claimable>, rate: u32, height: u64, destination: Destination,
      autoBump: bool, ans: Answers)
    : (Ledger, Result<Transaction, ClaimError>)
  {
    var crafted := ClaimTransaction(cs, rate, height, destination, dustLimit);
    if crafted.Err? then (l, Err(NotCrafted(crafted.error))) else
    var tx := crafted.value;
    if !ans.broadcast.Accepted? then (l, Err(NotBroadcast(ans.broadcast))) else
    var sent := l.(sent := l.sent + [tx]);
    if !ans.recorded || IdTaken(l.claims, tx) then (sent, Err(NotStored)) else
    var recorded := sent.(claims := l.claims + [ClaimRow(tx, destination, rate, autoBump)]);
    if !ans.watching then (recorded, Err(NotStored)) else
    (recorded.(watched := l.watched + {destination.address}), Ok(tx))
  }

  /** No stored claim has the transaction's id. */
  ghost predicate IsNew(claims: seq<Claim>, tx: Transaction) {
    forall c :: c in claims ==> IdentityOf(c.tx) != IdentityOf(tx)
  }

  /** The row is stored, its transaction sent and its address watched; nothing else changes. */
  ghost predicate Added(l: Ledger, l': Ledger, row: Claim) {
    l' == Ledger(l.sent + [row.tx], l.claims + [row], l.watched + {row.destination.address})
  }

  /** What a claim may cost the outputs. */
  ghost predicate Affordable(cs: seq<Claimable>, rate: u32, height: u64, destination: Destination, dustLimit: u64) {
    && height % (U32_MAX + 1) <= MAX_LOCK_HEIGHT
    && TotalValue(cs) >= FeeSat(|cs|, destination.scriptLength, rate) + dustLimit
  }

  /**
   A claim the outputs can pay for, which the chain takes and both repositories accept, is
   answered with its transaction and stored as it was asked for.
   */
  lemma {:induction false} ClaimIsStored(l: Ledger, dustLimit: u64, cs: seq<Claimable>, rate: u32, height: u64,
      destination: Destination, autoBump: bool)
    requires Affordable(cs, rate, height, destination, dustLimit)
    ensures var crafted := ClaimTransaction(cs, rate, height, destination, dustLimit);
            var (l', r) := MakeClaim(l, dustLimit, cs, rate, height, destination, autoBump,
                Answers(Accepted, true, true));
            && crafted.Ok?
            && (r == Ok(crafted.value) <==> IsNew(l.claims, crafted.value))
            && (r.Ok? ==> Added(l, l', ClaimRow(crafted.value, destination, rate, autoBump)))
  {
    hide ClaimTransaction, FeeSat;
    ClaimPossibleWhen(cs, rate, height, destination, dustLimit);
  }

  /** However far a claim gets: what it leaves behind, and what it answers. */
  lemma {:induction false} ClaimLeaves(l: Ledger, dustLimit: u64, cs: seq<Claimable>, rate: u32, height: u64,
      destination: Destination, autoBump: bool, ans: Answers)
    ensures var crafted := ClaimTransaction(cs, rate, height, destination, dustLimit);
            var (l', r) := MakeClaim(l, dustLimit, cs, rate, height, destination, autoBump, ans);
            if crafted.Err? then l' == l && r == Err(NotCrafted(crafted.error)) else
            var row := ClaimRow(crafted.value, destination, rate, autoBump);
            var (sent, stored, watched) := (l'.sent != l.sent, l'.claims != l.claims, r.Ok?);
            && (sent <==> ans.broadcast == Accepted) && (sent ==> l'.sent == l.sent + [row.tx])
            && (stored <==> sent && ans.recorded && IsNew(l.claims, row.tx))
            && (stored ==> l'.claims == l.claims + [row])
            && (watched <==> stored && ans.watching)
            && l'.watched == l.watched + (if watched then {destination.address} else {})
            && r == if !sent then Err(NotBroadcast(ans.broadcast)) else if !watched then Err(NotStored) else Ok(row.tx)
  {
    hide ClaimTransaction;
    var crafted := ClaimTransaction(cs, rate, height, destination, dustLimit);
    if crafted.Ok? {
      assert |l.sent + [crafted.value]| == |l.sent| + 1;
      assert |l.claims + [ClaimRow(crafted.value, destination, rate, autoBump)]| == |l.claims| + 1;
    }
  }

  class Service {
    const dustLimit: u64
    var sent: seq<Transaction>
    var claims: seq<Claim>
    var watched: set<Address>

    function State(): Ledger
      reads this
    {
      Ledger(sent, claims, watched)
    }

    constructor (dustLimit: u64)
      ensures this.dustLimit == dustLimit && State() == Ledger([], [], {})
    {
      this.dustLimit := dustLimit;
      sent, claims, watched := [], [], {};
    }

    method BroadcastTx(tx: Transaction, answer: Broadcast)
      modifies this`sent
      ensures sent == if answer.Accepted? then old(sent) + [tx] else old(sent)
    {
      if answer.Accepted? { sent := sent + [tx]; }
    }

    method Claim(cs: seq<Claimable>, rate: u32, height: u64, destination: Destination, autoBump: bool, ans: Answers)
      returns (r: Result<Transaction, ClaimError>)
      modifies this
      ensures (State(), r) == MakeClaim(old(State()), dustLimit, cs, rate, height, destination, autoBump, ans)
    {
      var crafted := CreateClaimTx(cs, rate, height, destination, dustLimit);
      if crafted.Err? { return Err(NotCrafted(crafted.error)); }
      BroadcastTx(crafted.value, ans.broadcast);
      if !ans.broadcast.Accepted? { return Err(NotBroadcast(ans.broadcast)); }
      if !ans.recorded || IdTaken(claims, crafted.value) { return Err(NotStored); }
      claims := claims + [ClaimRow(crafted.value, destination, rate, autoBump)];
      if !ans.watching { return Err(NotStored); }
      watched := watched + {destination.address};
      r := Ok(crafted.value);
    }
  }
}
