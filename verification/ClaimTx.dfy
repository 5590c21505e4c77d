/**
 `SwapService::create_claim_tx`: sorting, fee arithmetic on the estimated
 weight, the dust rule and the witnesses of a claim transaction.
 */
module ClaimTx {
  import opened Types

  /** A `ClaimableUtxo`: an output of a swap whose preimage is known. */
  datatype Claimable = Claimable(
    utxo: Txo,
    swapHash: Hash,
    lockTime: u16,
    preimage: Preimage,
    paidWithRequest: Option<Invoice>)

  datatype SwapError = InvalidBlockHeight | AmountTooLow

  datatype WitnessItem =
    | Signature(signer: Hash)      // by the claim key of that swap
    | Secret(preimage: Preimage)
    | ClaimScript(swap: Hash)
    | ControlBlock(swap: Hash)

  datatype TxIn = TxIn(previousOutput: OutPoint, stack: seq<WitnessItem>)
  datatype Destination = Destination(address: Address, scriptLength: nat)
  datatype Transaction = Transaction(lockTime: u32, input: seq<TxIn>, destination: Destination, value: nat)

  // ---------------------------------------------------------------- sorting

  predicate Before(a: OutPoint, b: OutPoint) {
    a.txid < b.txid || (a.txid == b.txid && a.vout <= b.vout)
  }

  predicate Sorted(cs: seq<Claimable>) {
    forall i, j :: 0 <= i < j < |cs| ==> Before(cs[i].utxo.outpoint, cs[j].utxo.outpoint)
  }

  predicate DistinctOutPoints(cs: seq<Claimable>) {
    forall i, j :: 0 <= i < j < |cs| ==> cs[i].utxo.outpoint != cs[j].utxo.outpoint
  }

  /** Two listings of the same claimables. */
  ghost predicate Permutation(a: seq<Claimable>, b: seq<Claimable>) { multiset(a) == multiset(b) }

  function Insert(c: Claimable, cs: seq<Claimable>): (r: seq<Claimable>)
    ensures multiset(r) == multiset{c} + multiset(cs)
  {
    if cs == [] || Before(c.utxo.outpoint, cs[0].utxo.outpoint) then
      [c] + cs
    else
      assert cs == [cs[0]] + cs[1..];
      [cs[0]] + Insert(c, cs[1..])
  }

  function SortByOutPoint(cs: seq<Claimable>): (r: seq<Claimable>)
    ensures Permutation(r, cs)
  {
    if cs == [] then [] else
    assert cs == [cs[0]] + cs[1..];
    Insert(cs[0], SortByOutPoint(cs[1..]))
  }

  lemma {:induction false} InsertSorted(c: Claimable, cs: seq<Claimable>)
    requires Sorted(cs)
    ensures Sorted(Insert(c, cs))
  {
    if cs == [] || Before(c.utxo.outpoint, cs[0].utxo.outpoint) {
      ConsSorted(c, cs);
    } else {
      var rest := Insert(c, cs[1..]);
      InsertSorted(c, cs[1..]);
      if rest != [] {
        assert rest[0] in multiset(rest);
        assert rest[0] == c || rest[0] in cs[1..];
      }
      ConsSorted(cs[0], rest);
    }
  }

  lemma {:induction false} ConsSorted(c: Claimable, cs: seq<Claimable>)
    requires Sorted(cs) && (cs == [] || Before(c.utxo.outpoint, cs[0].utxo.outpoint))
    ensures Sorted([c] + cs)
  {
  }

  lemma {:induction false} SortSorts(cs: seq<Claimable>)
    ensures Sorted(SortByOutPoint(cs))
  {
    if cs != [] {
      SortSorts(cs[1..]);
      InsertSorted(cs[0], SortByOutPoint(cs[1..]));
    }
  }

  lemma {:induction false} DistinctTail(cs: seq<Claimable>)
    requires DistinctOutPoints(cs) && cs != []
    ensures DistinctOutPoints(cs[1..])
    ensures forall c :: c in cs[1..] ==> c.utxo.outpoint != cs[0].utxo.outpoint
  {
  }

  lemma {:induction false} SameMembers(a: seq<Claimable>, b: seq<Claimable>)
    requires Permutation(a, b)
    ensures |a| == |b|
    ensures forall c :: c in a <==> c in b
  {
    assert |multiset(a)| == |multiset(b)|;
    forall c ensures c in a <==> c in b {
      assert c in a <==> c in multiset(a);
      assert c in b <==> c in multiset(b);
    }
  }

  lemma {:induction false} TailsPermute(a: seq<Claimable>, b: seq<Claimable>)
    requires a != [] && b != [] && a[0] == b[0] && Permutation(a, b)
    ensures Permutation(a[1..], b[1..])
  {
    assert a == [a[0]] + a[1..] && b == [b[0]] + b[1..];
    assert multiset(a[1..]) == multiset(a) - multiset{a[0]};
    assert multiset(b[1..]) == multiset(b) - multiset{b[0]};
  }

  /** With distinct outpoints there is only one sorted listing. */
  lemma {:induction false} SortedListingUnique(a: seq<Claimable>, b: seq<Claimable>)
    requires Sorted(a) && Sorted(b) && Permutation(a, b) && DistinctOutPoints(a)
    ensures a == b
    decreases |a|
  {
    hide Permutation;
    SameMembers(a, b);
    if a != [] {
      assert a[0] in b && b[0] in a;
      SameFirst(a, b);
      TailsPermute(a, b);
      DistinctTail(a);
      SortedListingUnique(a[1..], b[1..]);
      assert a == [a[0]] + a[1..] && b == [b[0]] + b[1..];
    }
  }

  lemma {:induction false} SameFirst(a: seq<Claimable>, b: seq<Claimable>)
    requires a != [] && b != [] && Sorted(a) && Sorted(b) && DistinctOutPoints(a)
    requires a[0] in b && b[0] in a
    ensures a[0] == b[0]
  {
  }

  /** Distinctness does not depend on the listing. */
  lemma {:induction false} DistinctPermutation(a: seq<Claimable>, b: seq<Claimable>)
    requires Permutation(a, b) && DistinctOutPoints(a)
    ensures DistinctOutPoints(b)
  {
    SameMembers(a, b);
    forall i, j | 0 <= i < j < |b| ensures b[i].utxo.outpoint != b[j].utxo.outpoint {
      if b[i].utxo.outpoint == b[j].utxo.outpoint {
        assert b[i] in a && b[j] in a;
        if b[i] == b[j] {
          var c := b[i];
          assert b == b[..j] + [b[j]] + b[j + 1..];
          assert b[i] in b[..j];
          assert multiset(b)[c] >= 2;
          DistinctCount(a, c);
        }
      }
    }
  }

  lemma {:induction false} DistinctCount(a: seq<Claimable>, c: Claimable)
    requires DistinctOutPoints(a)
    ensures multiset(a)[c] <= 1
  {
    if a != [] {
      assert a == [a[0]] + a[1..];
      DistinctTail(a);
      DistinctCount(a[1..], c);
      if a[0] == c { assert c !in a[1..]; }
    }
  }

  // ------------------------------------------------------- weights and fees

  const CLAIM_INPUT_WITNESS_SIZE := 222
  const P2WPKH_SCRIPT_LENGTH := 22
  const MAX_LOCK_HEIGHT := 499_999_999

  /** Length of a compact size prefix. */
  function CompactSize(n: nat): nat {
    if n <= 0xFC then 1 else if n <= 0xFFFF then 3 else if n <= 0xFFFF_FFFF then 5 else 9
  }

  /** Bytes outside the witnesses: version, inputs, the one output, lock time. */
  function BaseSize(inputs: nat, scriptLength: nat): nat {
    4 + CompactSize(inputs) + 41 * inputs + 1 + 8 + CompactSize(scriptLength) + scriptLength + 4
  }

  /**
   The weight fees are computed from: the unsigned transaction (which only
   serializes the segwit marker and flag when it has no input at all) plus a
   fixed allowance per input.
   */
  function EstimatedWeight(inputs: nat, scriptLength: nat): nat {
    4 * BaseSize(inputs, scriptLength) + (if inputs == 0 then 2 else 0) + CLAIM_INPUT_WITNESS_SIZE * inputs
  }

  function DivCeil(x: nat, d: nat): nat
    requires d > 0
  {
    (x + d - 1) / d
  }

  function FeeSat(inputs: nat, scriptLength: nat, satPerKw: u32): nat {
    DivCeil(EstimatedWeight(inputs, scriptLength) * satPerKw, 1000)
  }

  function TotalValue(cs: seq<Claimable>): nat {
    if cs == [] then 0 else cs[0].utxo.value + TotalValue(cs[1..])
  }

  // ----------------------------------------------------- the claim itself

  function WitnessFor(c: Claimable): seq<WitnessItem> {
    [Signature(c.swapHash), Secret(c.preimage), ClaimScript(c.swapHash), ControlBlock(c.swapHash)]
  }

  function SignedInputs(cs: seq<Claimable>): seq<TxIn> {
    seq(|cs|, i requires 0 <= i < |cs| => TxIn(cs[i].utxo.outpoint, WitnessFor(cs[i])))
  }

  function UnsignedInputs(cs: seq<Claimable>): seq<TxIn> {
    seq(|cs|, i requires 0 <= i < |cs| => TxIn(cs[i].utxo.outpoint, []))
  }

  function Spent(tx: Transaction): seq<OutPoint> {
    seq(|tx.input|, i requires 0 <= i < |tx.input| => tx.input[i].previousOutput)
  }

  /** What a transaction id commits to: everything but the witnesses. */
  datatype Identity = Identity(lockTime: u32, spent: seq<OutPoint>, destination: Destination, value: nat)

  function IdentityOf(tx: Transaction): Identity {
    Identity(tx.lockTime, Spent(tx), tx.destination, tx.value)
  }

  /** What `create_claim_tx` returns, signatures taken as opaque items. */
  function ClaimTransaction(claimables: seq<Claimable>, satPerKw: u32, currentHeight: u64,
                            destination: Destination, dustLimit: u64): Result<Transaction, SwapError>
  {
    var sorted := SortByOutPoint(claimables);
    var lockTime := currentHeight % (U32_MAX + 1);
    if lockTime > MAX_LOCK_HEIGHT then Err(InvalidBlockHeight) else
    var total := TotalValue(sorted);
    var fee := FeeSat(|sorted|, destination.scriptLength, satPerKw);
    var valueAfterFees := if total >= fee then total - fee else 0;
    if valueAfterFees < dustLimit then Err(AmountTooLow) else
    Ok(Transaction(lockTime, SignedInputs(sorted), destination, valueAfterFees))
  }

  /**
   The code's own steps: fold the values, build an unsigned transaction, overwrite its
   output, sign input by input.
   */
  method CreateClaimTx(claimables: seq<Claimable>, satPerKw: u32, currentHeight: u64,
                       destination: Destination, dustLimit: u64) returns (r: Result<Transaction, SwapError>)
    ensures r == ClaimTransaction(claimables, satPerKw, currentHeight, destination, dustLimit)
  {
    var sorted := SortByOutPoint(claimables);
    var total := 0;
    for i := 0 to |sorted|
      invariant total + TotalValue(sorted[i..]) == TotalValue(sorted)
    {
      total := total + sorted[i].utxo.value;
    }
    var lockTime := currentHeight % (U32_MAX + 1);
    if lockTime > MAX_LOCK_HEIGHT { return Err(InvalidBlockHeight); }
    var tx := Transaction(lockTime,
                          UnsignedInputs(sorted),
                          destination, total);

    var fee := FeeSat(|tx.input|, destination.scriptLength, satPerKw);
    var valueAfterFees := if total >= fee then total - fee else 0;
    if valueAfterFees < dustLimit { return Err(AmountTooLow); }
    tx := tx.(value := valueAfterFees);
    var signed := SignInputs(tx.input, sorted);
    r := Ok(tx.(input := signed));
  }

  method SignInputs(unsigned: seq<TxIn>, sorted: seq<Claimable>) returns (input: seq<TxIn>)
    requires |unsigned| == |sorted|
    requires forall i :: 0 <= i < |sorted| ==> unsigned[i].previousOutput == sorted[i].utxo.outpoint
    ensures input == SignedInputs(sorted)
  {
    input := unsigned;
    for n := 0 to |sorted|
      invariant |input| == |sorted|
      invariant forall i :: 0 <= i < n ==> input[i] == TxIn(sorted[i].utxo.outpoint, WitnessFor(sorted[i]))
      invariant forall i :: n <= i < |sorted| ==> input[i].previousOutput == sorted[i].utxo.outpoint
    {
      input := input[n := input[n].(stack := WitnessFor(sorted[n]))];
    }
  }

  // ------------------------------------------------------------ properties

  lemma {:induction false} TotalOfInsert(c: Claimable, cs: seq<Claimable>)
    ensures TotalValue(Insert(c, cs)) == c.utxo.value + TotalValue(cs)
  {
    if cs == [] || Before(c.utxo.outpoint, cs[0].utxo.outpoint) {
      assert ([c] + cs)[1..] == cs;
    } else {
      TotalOfInsert(c, cs[1..]);
      assert ([cs[0]] + Insert(c, cs[1..]))[1..] == Insert(c, cs[1..]);
    }
  }

  lemma {:induction false} TotalOfSort(cs: seq<Claimable>)
    ensures TotalValue(SortByOutPoint(cs)) == TotalValue(cs)
  {
    if cs != [] {
      TotalOfSort(cs[1..]);
      TotalOfInsert(cs[0], SortByOutPoint(cs[1..]));
    }
  }

  /** The order in which claimables are listed does not matter. */
  lemma {:induction false} ClaimIsReproducible(a: seq<Claimable>, b: seq<Claimable>, satPerKw: u32, currentHeight: u64,
                            destination: Destination, dustLimit: u64)
    requires DistinctOutPoints(a) && Permutation(a, b)
    ensures ClaimTransaction(a, satPerKw, currentHeight, destination, dustLimit)
         == ClaimTransaction(b, satPerKw, currentHeight, destination, dustLimit)
  {
    SortSorts(a);
    SortSorts(b);
    DistinctPermutation(a, SortByOutPoint(a));
    SortedListingUnique(SortByOutPoint(a), SortByOutPoint(b));
  }

  /**
   A claim conserves value, spends exactly the listed outputs in outpoint order
   and gives each input the witness of its own swap.
   */
  lemma {:induction false} ClaimConserves(cs: seq<Claimable>, satPerKw: u32, currentHeight: u64,
      destination: Destination, dustLimit: u64)
    requires dustLimit > 0
    requires ClaimTransaction(cs, satPerKw, currentHeight, destination, dustLimit).Ok?
    ensures var tx := ClaimTransaction(cs, satPerKw, currentHeight, destination, dustLimit).value;
            && tx.value + FeeSat(|cs|, destination.scriptLength, satPerKw) == TotalValue(cs)
            && tx.value >= dustLimit
            && tx.destination == destination
            && |tx.input| == |cs|
            && (forall i, j :: 0 <= i < j < |tx.input| ==>
                  var (a, b) := (tx.input[i].previousOutput, tx.input[j].previousOutput);
                  a.txid < b.txid || (a.txid == b.txid && a.vout <= b.vout))
            && (forall c :: c in cs ==> TxIn(c.utxo.outpoint, WitnessFor(c)) in tx.input)
            && (forall i :: 0 <= i < |tx.input| ==>
                  exists c :: c in cs && tx.input[i] == TxIn(c.utxo.outpoint, WitnessFor(c)))
  {
    hide FeeSat;
    var sorted := SortByOutPoint(cs);
    SortSorts(cs);
    SameMembers(sorted, cs);
    TotalOfSort(cs);
    var tx := ClaimTransaction(cs, satPerKw, currentHeight, destination, dustLimit).value;
    forall c | c in cs ensures TxIn(c.utxo.outpoint, WitnessFor(c)) in tx.input {
      var i :| 0 <= i < |sorted| && sorted[i] == c;
      assert tx.input[i] == TxIn(c.utxo.outpoint, WitnessFor(c));
    }
    forall i | 0 <= i < |tx.input|
      ensures exists c :: c in cs && tx.input[i] == TxIn(c.utxo.outpoint, WitnessFor(c))
    {
      assert sorted[i] in cs;
    }
  }

  /** When a claim can be made, and what is wrong when it cannot. */
  lemma {:induction false} ClaimPossibleWhen(cs: seq<Claimable>, satPerKw: u32, currentHeight: u64,
      destination: Destination, dustLimit: u64)
    ensures var r := ClaimTransaction(cs, satPerKw, currentHeight, destination, dustLimit);
            && (r.Ok? <==> currentHeight % 0x1_0000_0000 < 500_000_000
                           && (dustLimit > 0 ==>
                               TotalValue(cs) >= FeeSat(|cs|, destination.scriptLength, satPerKw) + dustLimit))
            && (r == Err(InvalidBlockHeight) <==> currentHeight % 0x1_0000_0000 >= 500_000_000)
            && (r.Ok? ==> r.value.lockTime == currentHeight % 0x1_0000_0000)
  {
    hide FeeSat, SignedInputs, TotalValue, SortByOutPoint;
    SameMembers(SortByOutPoint(cs), cs);
    TotalOfSort(cs);
  }

  lemma {:induction false} WeightMonotone(inputs: nat, short: nat, long: nat)
    requires short <= long
    ensures EstimatedWeight(inputs, short) <= EstimatedWeight(inputs, long)
  {
  }

  lemma {:induction false} DivCeilMonotone(x: nat, y: nat)
    requires x <= y
    ensures DivCeil(x, 1000) <= DivCeil(y, 1000)
  {
  }

  lemma {:induction false} ProductMonotone(x: nat, x': nat, y: nat, y': nat)
    requires x <= x' && y <= y'
    ensures x * y <= x' * y'
  {
  }

  lemma {:induction false} FeeMonotone(inputs: nat, short: nat, long: nat, low: u32, high: u32)
    requires short <= long && low <= high
    ensures FeeSat(inputs, short, low) <= FeeSat(inputs, long, high)
  {
    WeightMonotone(inputs, short, long);
    var w, w' := EstimatedWeight(inputs, short), EstimatedWeight(inputs, long);
    ProductMonotone(w, w', low, high);
    DivCeilMonotone(w * low, w' * high);
  }

  /**
   A claim that can be made stays possible at any lower rate and at any usable
   height, for the same outputs in any order and with any preimages, towards an
   address whose script is no longer; and it then pays out no less.
   */
  lemma {:induction false} ClaimCarriesOver(a: seq<Claimable>, b: seq<Claimable>, high: u32, low: u32, height: u64,
      later: u64,
                         trial: Destination, payout: Destination, dustLimit: u64)
    requires TotalValue(a) == TotalValue(b) && |a| == |b|
    requires low <= high && payout.scriptLength <= trial.scriptLength
    requires later % (U32_MAX + 1) <= MAX_LOCK_HEIGHT
    requires ClaimTransaction(a, high, height, trial, dustLimit).Ok?
    ensures var r := ClaimTransaction(b, low, later, payout, dustLimit);
            r.Ok? && r.value.value >= ClaimTransaction(a, high, height, trial, dustLimit).value.value
  {
    SameMembers(SortByOutPoint(a), a);
    SameMembers(SortByOutPoint(b), b);
    TotalOfSort(a);
    TotalOfSort(b);
    FeeMonotone(|a|, payout.scriptLength, trial.scriptLength, low, high);
  }
}
