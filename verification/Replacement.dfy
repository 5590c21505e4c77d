/**
 When the claim monitor replaces a stored claim, and what chains of replacements
 cost and how long they get.
 */
module Replacement {
  import opened Types
  import opened Timelock
  import opened ClaimTx
  import opened ClaimService
  import opened Serialization

  // ------------------------------------------------------- blocks left

  function BlocksLeft(c: Claimable, height: u64): i32 { ClaimableBlocksLeft(c.lockTime, c.utxo.blockHeight, height) }

  /** The least of the blocks left, which the fee is estimated for. */
  function MinBlocksLeft(cs: seq<Claimable>, height: u64): Option<i32> {
    if cs == [] then None else
    var rest := MinBlocksLeft(cs[1..], height);
    if rest.None? then Some(BlocksLeft(cs[0], height)) else Some(Min(BlocksLeft(cs[0], height), rest.value))
  }

  lemma {:induction false} MinIsLeast(cs: seq<Claimable>, height: u64)
    ensures MinBlocksLeft(cs, height).None? <==> cs == []
    ensures var m := MinBlocksLeft(cs, height);
            m.Some? ==>
              && (forall c :: c in cs ==> m.value <= BlocksLeft(c, height))
              && (exists c :: c in cs && m.value == BlocksLeft(c, height))
  {
    if cs != [] {
      MinIsLeast(cs[1..], height);
      var m, rest := MinBlocksLeft(cs, height).value, MinBlocksLeft(cs[1..], height);
      if rest.Some? && rest.value < BlocksLeft(cs[0], height) {
        var c :| c in cs[1..] && rest.value == BlocksLeft(c, height);
        assert c in cs && m == BlocksLeft(c, height);
      } else {
        assert cs[0] in cs && m == BlocksLeft(cs[0], height);
      }
    }
  }

  predicate Mature(c: Claimable, height: u64) {
    RealHeight(c.utxo.blockHeight) && RealHeight(height) && c.utxo.blockHeight <= height + 1
  }

  /**
   The target handed to the fee estimator is the deadline of the whole claim: the first
   refund of any of its inputs.
   */
  lemma {:induction false} MinBlocksLeftIsDeadline(cs: seq<Claimable>, height: u64, mined: nat)
    requires cs != [] && forall c :: c in cs ==> Mature(c, height)
    ensures (exists c :: c in cs && RefundMinable(c.lockTime, c.utxo.blockHeight, height + mined + 1))
       <==> mined >= MinBlocksLeft(cs, height).value
  {
    MinIsLeast(cs, height);
    forall c | c in cs
      ensures RefundMinable(c.lockTime, c.utxo.blockHeight, height + mined + 1) <==> mined >= BlocksLeft(c, height)
    {
      ClaimableBlocksLeftIsDeadline(c.lockTime, c.utxo.blockHeight, height, mined);
    }
  }

  // -------------------------------------------------- the replacement rule

  const MIN_REPLACEMENT_DIFF: u32 := 250

  /** The rate of a stored claim is still good; the addition wraps around. */
  predicate Sufficient(feePerKw: u32, estimate: u32) {
    (feePerKw + MIN_REPLACEMENT_DIFF) % (U32_MAX + 1) > estimate
  }

  /** Replacing always raises the rate by the minimum exactly when the addition cannot wrap. */
  lemma {:induction false} ReplacementRaisesRate(feePerKw: u32)
    ensures (forall estimate: u32 {:trigger Sufficient(feePerKw, estimate)} ::
               !Sufficient(feePerKw, estimate) ==> estimate >= feePerKw + MIN_REPLACEMENT_DIFF)
       <==> feePerKw <= U32_MAX - MIN_REPLACEMENT_DIFF
  {
    if feePerKw > U32_MAX - MIN_REPLACEMENT_DIFF {
      // The sum wraps to at most 249, so this estimate far below the old rate replaces it.
      assert !Sufficient(feePerKw, MIN_REPLACEMENT_DIFF);
    }
  }

  predicate SpendsInOrder(tx: Transaction, cs: seq<Claimable>) {
    |cs| == |tx.input| && forall i :: 0 <= i < |cs| ==> cs[i].utxo.outpoint == tx.input[i].previousOutput
  }

  /** The values of the outputs are those the chain gave them. */
  predicate Worth(worth: OutPoint -> nat, cs: seq<Claimable>) {
    forall c :: c in cs ==> c.utxo.value == worth(c.utxo.outpoint)
  }

  /** A row of the claims table is a claim crafted at the rate and for the address it names. */
  ghost predicate CraftedFrom(dustLimit: u64, worth: OutPoint -> nat, row: Claim, cs: seq<Claimable>, height: u64) {
    && Worth(worth, cs) && DistinctOutPoints(cs)
    && ClaimTransaction(cs, row.feePerKw, height, row.destination, dustLimit) == Ok(row.tx)
  }

  ghost predicate Crafted(dustLimit: u64, worth: OutPoint -> nat, row: Claim) {
    exists cs, height :: CraftedFrom(dustLimit, worth, row, cs, height)
  }

  /** What the inputs of a transaction are worth. */
  function InputValue(worth: OutPoint -> nat, input: seq<TxIn>): nat {
    if input == [] then 0 else worth(input[0].previousOutput) + InputValue(worth, input[1..])
  }

  function FeePaid(worth: OutPoint -> nat, tx: Transaction): int { InputValue(worth, tx.input) - tx.value }

  lemma {:induction false} InputValueOfClaim(worth: OutPoint -> nat, cs: seq<Claimable>, input: seq<TxIn>)
    requires Worth(worth, cs) && |input| == |cs|
    requires forall i :: 0 <= i < |cs| ==> input[i].previousOutput == cs[i].utxo.outpoint
    ensures InputValue(worth, input) == TotalValue(cs)
  {
    if cs != [] {
      assert cs[0] in cs;
      InputValueOfClaim(worth, cs[1..], input[1..]);
    }
  }

  /** A crafted claim pays the fee of its rate, has inputs, and lists them in order. */
  lemma {:induction false} CraftedPays(dustLimit: u64, worth: OutPoint -> nat, row: Claim)
    requires dustLimit > 0 && Crafted(dustLimit, worth, row)
    ensures FeePaid(worth, row.tx) == FeeSat(|row.tx.input|, row.destination.scriptLength, row.feePerKw)
    ensures row.tx.input != [] && row.tx.value >= dustLimit && row.tx.destination == row.destination
    ensures forall i, j ::
        0 <= i < j < |row.tx.input| ==> Before(row.tx.input[i].previousOutput, row.tx.input[j].previousOutput)
    ensures forall i, j ::
        0 <= i < j < |row.tx.input| ==> row.tx.input[i].previousOutput != row.tx.input[j].previousOutput
  {
    var cs, height :| CraftedFrom(dustLimit, worth, row, cs, height);
    CraftedFromPays(dustLimit, worth, row, cs, height);
  }

  lemma {:induction false} CraftedFromPays(dustLimit: u64, worth: OutPoint -> nat, row: Claim, cs: seq<Claimable>,
      height: u64)
    requires dustLimit > 0 && CraftedFrom(dustLimit, worth, row, cs, height)
    ensures FeePaid(worth, row.tx) == FeeSat(|row.tx.input|, row.destination.scriptLength, row.feePerKw)
    ensures row.tx.input != [] && row.tx.value >= dustLimit && row.tx.destination == row.destination
    ensures forall i, j ::
        0 <= i < j < |row.tx.input| ==> Before(row.tx.input[i].previousOutput, row.tx.input[j].previousOutput)
    ensures forall i, j ::
        0 <= i < j < |row.tx.input| ==> row.tx.input[i].previousOutput != row.tx.input[j].previousOutput
  {
    var sorted := SortByOutPoint(cs);
    SortSorts(cs);
    SameMembers(sorted, cs);
    TotalOfSort(cs);
    DistinctPermutation(cs, sorted);
    InputValueOfClaim(worth, sorted, row.tx.input);
  }

  /** Sorting a sorted list changes nothing. */
  lemma {:induction false} SortOfSorted(cs: seq<Claimable>)
    requires Sorted(cs)
    ensures SortByOutPoint(cs) == cs
  {
    if cs != [] {
      SortOfSorted(cs[1..]);
      if |cs| > 1 { assert Before(cs[0].utxo.outpoint, cs[1].utxo.outpoint); }
      assert [cs[0]] + cs[1..] == cs;
    }
  }

  /** The row a successful replacement of `old` leaves. */
  ghost predicate ReplacedBy(dustLimit: u64, worth: OutPoint -> nat, prev: Claim, next: Claim, cs: seq<Claimable>,
      height: u64) {
    && !Sufficient(prev.feePerKw, next.feePerKw)
    && SpendsInOrder(prev.tx, cs) && Worth(worth, cs)
    && next.destination == prev.destination && next.autoBump == prev.autoBump
    && ClaimTransaction(cs, next.feePerKw, height, prev.destination, dustLimit) == Ok(next.tx)
  }

  ghost predicate Replaces(dustLimit: u64, worth: OutPoint -> nat, prev: Claim, next: Claim) {
    exists cs, height :: ReplacedBy(dustLimit, worth, prev, next, cs, height)
  }

  lemma {:induction false} SpentInOrder(tx: Transaction, cs: seq<Claimable>)
    requires SpendsInOrder(tx, cs)
    requires forall i, j :: 0 <= i < j < |tx.input| ==> Before(tx.input[i].previousOutput, tx.input[j].previousOutput)
    requires forall i, j :: 0 <= i < j < |tx.input| ==> tx.input[i].previousOutput != tx.input[j].previousOutput
    ensures Sorted(cs) && DistinctOutPoints(cs)
  {
  }

  lemma {:induction false} CraftedAgain(dustLimit: u64, worth: OutPoint -> nat, prev: Claim, next: Claim,
      cs: seq<Claimable>, height: u64)
    requires ReplacedBy(dustLimit, worth, prev, next, cs, height) && DistinctOutPoints(cs) && SortByOutPoint(cs) == cs
    ensures Crafted(dustLimit, worth, next)
    ensures Spent(next.tx) == Spent(prev.tx) && next.tx.destination == prev.destination
  {
    hide DistinctOutPoints, FeeSat, TotalValue;
    assert CraftedFrom(dustLimit, worth, next, cs, height);
  }

  /**
   A replacement of a crafted claim spends the same outpoints in the same order to the
   same address, and is itself crafted.
   */
  lemma {:induction false} ReplacementSpendsTheSame(dustLimit: u64, worth: OutPoint -> nat, prev: Claim, next: Claim)
    requires dustLimit > 0 && Crafted(dustLimit, worth, prev) && Replaces(dustLimit, worth, prev, next)
    ensures Spent(next.tx) == Spent(prev.tx) && next.tx.destination == prev.tx.destination
    ensures Crafted(dustLimit, worth, next)
  {
    hide Crafted, FeePaid, FeeSat;
    CraftedPays(dustLimit, worth, prev);
    var cs, height :| ReplacedBy(dustLimit, worth, prev, next, cs, height);
    SpentInOrder(prev.tx, cs);
    SortOfSorted(cs);
    CraftedAgain(dustLimit, worth, prev, next, cs, height);
  }

  lemma {:induction false} ReplacementRate(dustLimit: u64, worth: OutPoint -> nat, prev: Claim, next: Claim)
    requires Replaces(dustLimit, worth, prev, next)
    ensures !Sufficient(prev.feePerKw, next.feePerKw) && next.destination == prev.destination
        && next.autoBump == prev.autoBump
  {
  }

  lemma {:induction false} RateStepRaisesFee(weight: nat, low: u32, high: u32)
    requires high >= low + MIN_REPLACEMENT_DIFF
    ensures DivCeil(weight * high, 1000) >= DivCeil(weight * low, 1000) + weight / 4
  {
  }

  /** Rule 3 of BIP 125 and more: the replacement's fee is higher by a quarter of the estimated weight. */
  lemma {:induction false} ReplacementPaysMore(dustLimit: u64, worth: OutPoint -> nat, prev: Claim, next: Claim)
    requires dustLimit > 0 && Crafted(dustLimit, worth, prev) && Replaces(dustLimit, worth, prev, next)
    requires prev.feePerKw <= U32_MAX - MIN_REPLACEMENT_DIFF
    ensures next.feePerKw >= prev.feePerKw + MIN_REPLACEMENT_DIFF
    ensures FeePaid(worth, next.tx) >= FeePaid(worth, prev.tx) + EstimatedWeight(|prev.tx.input|,
        prev.destination.scriptLength) / 4
  {
    hide Crafted, Replaces, EstimatedWeight, InputValue;
    ReplacementSpendsTheSame(dustLimit, worth, prev, next);
    ReplacementRate(dustLimit, worth, prev, next);
    assert |Spent(next.tx)| == |Spent(prev.tx)|;
    CraftedPays(dustLimit, worth, prev);
    CraftedPays(dustLimit, worth, next);
    RateStepRaisesFee(EstimatedWeight(|prev.tx.input|, prev.destination.scriptLength), prev.feePerKw, next.feePerKw);
  }

  /** Section "Transaction size calculations" of BIP 141, of a signed claim with that many inputs. */
  function VirtualSize(inputs: nat, scriptLength: nat): nat {
    DivCeil(EstimatedWeight(inputs, scriptLength) + inputs + 2, 4)
  }

  lemma {:induction false} VirtualSizeIsSigned(cs: seq<Claimable>, satPerKw: u32, height: u64, destination: Destination,
      dustLimit: u64, script: seq<byte>)
    requires cs != [] && |script| == destination.scriptLength
    requires ClaimTransaction(cs, satPerKw, height, destination, dustLimit).Ok?
    ensures var tx := ClaimTransaction(cs, satPerKw, height, destination, dustLimit).value;
            VirtualSize(|cs|, destination.scriptLength) == DivCeil(SignedWeight(tx, script), 4)
  {
    hide ClaimTransaction, SignedWeight, EstimatedWeight;
    WeightGap(cs, satPerKw, height, destination, dustLimit, script);
  }

  /** Rule 4 of BIP 125 at one satoshi per virtual byte: the added fee pays for the replacement's own size. */
  predicate PaysOwnRelay(inputs: nat, scriptLength: nat, rate: u32, step: u32) {
    rate + step <= U32_MAX ==>
      FeeSat(inputs, scriptLength, rate + step) >= FeeSat(inputs, scriptLength, rate) + VirtualSize(inputs,
          scriptLength)
  }

  lemma {:induction false} RelayPaid(inputs: nat, scriptLength: nat, rate: u32, step: u32)
    requires inputs > 0 && scriptLength >= P2WPKH_SCRIPT_LENGTH && step >= 253
    ensures PaysOwnRelay(inputs, scriptLength, rate, step)
  {
    var w := EstimatedWeight(inputs, scriptLength);
    ProductMonotone(w, w, 253, step);
    assert w * (rate + step) == w * rate + w * step;
    if inputs == 1 && scriptLength < 252 {
      assert CompactSize(inputs) == 1 && CompactSize(scriptLength) == 1;
      assert w == 462 + 4 * scriptLength;
      assert w * step >= 1000 * DivCeil(w + 3, 4);
    } else {
      assert w * step >= 250 * (w + inputs + 5);
      assert 1000 * DivCeil(w + inputs + 2, 4) <= 250 * (w + inputs + 5);
    }
  }

  /**
   How far a rate must rise so that every claim pays for relaying its
   replacement, to addresses no shorter than the shortest the wallets hand out:
   253 per 1000 weight units, three more than the monitor asks for, because the
   estimate leaves out part of the signed weight.
   */
  lemma {:induction false} StepThatPaysRelay(step: u32)
    ensures (forall inputs: nat, scriptLength: nat, rate: u32 ::
               inputs > 0 && scriptLength >= P2WPKH_SCRIPT_LENGTH ==> PaysOwnRelay(inputs, scriptLength, rate, step))
       <==> step >= 253
  {
    if step >= 253 {
      forall inputs: nat, scriptLength: nat, rate: u32 | inputs > 0 && scriptLength >= P2WPKH_SCRIPT_LENGTH
        ensures PaysOwnRelay(inputs, scriptLength, rate, step)
      {
        RelayPaid(inputs, scriptLength, rate, step);
      }
    } else {
      DivCeilMonotone(550 * (8 + step), 550 * (8 + 252));
      assert !PaysOwnRelay(1, P2WPKH_SCRIPT_LENGTH, 8, step);
    }
  }

  /** A replacement by just the minimum, of one input to a P2WPKH address, that does not pay for its own relay. */
  lemma {:induction false} MinimumStepFallsShort()
    ensures !Sufficient(250, 250 + MIN_REPLACEMENT_DIFF)
    ensures FeeSat(1, P2WPKH_SCRIPT_LENGTH, 250) == 138
        && FeeSat(1, P2WPKH_SCRIPT_LENGTH, 250 + MIN_REPLACEMENT_DIFF) == 275
    ensures VirtualSize(1, P2WPKH_SCRIPT_LENGTH) == 139
    ensures !PaysOwnRelay(1, P2WPKH_SCRIPT_LENGTH, 250, MIN_REPLACEMENT_DIFF)
  {
  }

  // ------------------------------------------------------------- lineages

  /** A claim followed by replacements, each of the one before, all of them rows of the claims table. */
  ghost predicate IsLineage(dustLimit: u64, worth: OutPoint -> nat, line: seq<Claim>) {
    && line != [] && Crafted(dustLimit, worth, line[0]) && DistinctIds(line)
    && forall i :: 0 <= i < |line| - 1 ==> Replaces(dustLimit, worth, line[i], line[i + 1])
  }

  /** The addition in the replacement rule does not wrap for this claim. */
  predicate WrapFree(row: Claim) { row.feePerKw <= U32_MAX - MIN_REPLACEMENT_DIFF }

  lemma {:induction false} SameOutPointsSameValue(worth: OutPoint -> nat, a: seq<TxIn>, b: seq<TxIn>)
    requires |a| == |b| && forall i :: 0 <= i < |a| ==> a[i].previousOutput == b[i].previousOutput
    ensures InputValue(worth, a) == InputValue(worth, b)
  {
    if a != [] { SameOutPointsSameValue(worth, a[1..], b[1..]); }
  }

  lemma {:induction false} SameSpentSameValue(worth: OutPoint -> nat, a: Transaction, b: Transaction)
    requires Spent(a) == Spent(b)
    ensures InputValue(worth, a.input) == InputValue(worth, b.input)
  {
    assert |a.input| == |Spent(a)| && |b.input| == |Spent(b)|;
    forall i | 0 <= i < |a.input| ensures a.input[i].previousOutput == b.input[i].previousOutput {
      assert Spent(a)[i] == Spent(b)[i];
    }
    SameOutPointsSameValue(worth, a.input, b.input);
  }

  /** Along any lineage outpoints and address stay. */
  lemma {:induction false} LineageSpendsTheSame(dustLimit: u64, worth: OutPoint -> nat, line: seq<Claim>, i: nat)
    requires dustLimit > 0 && IsLineage(dustLimit, worth, line) && i < |line|
    ensures Crafted(dustLimit, worth, line[i]) && Spent(line[i].tx) == Spent(line[0].tx)
        && line[i].destination == line[0].destination
    ensures InputValue(worth, line[i].tx.input) == InputValue(worth, line[0].tx.input)
  {
    hide Crafted, Replaces, EstimatedWeight, InputValue, FeePaid;
    if i > 0 {
      LineageSpendsTheSame(dustLimit, worth, line, i - 1);
      var before, after := line[i - 1], line[i - 1 + 1];
      assert Replaces(dustLimit, worth, before, after);
      ReplacementSpendsTheSame(dustLimit, worth, before, after);
      ReplacementRate(dustLimit, worth, before, after);
      SameSpentSameValue(worth, after.tx, before.tx);
    }
  }

  /** As long as no addition wraps, rate and fee grow with every replacement. */
  lemma {:induction false} LineageAt(dustLimit: u64, worth: OutPoint -> nat, line: seq<Claim>, i: nat)
    requires dustLimit > 0 && IsLineage(dustLimit, worth, line) && i < |line|
    requires forall k :: 0 <= k < i ==> WrapFree(line[k])
    ensures line[i].feePerKw >= line[0].feePerKw + MIN_REPLACEMENT_DIFF * i
    ensures FeePaid(worth, line[i].tx) >= FeePaid(worth, line[0].tx) + i * (EstimatedWeight(|line[0].tx.input|,
        line[0].destination.scriptLength) / 4)
  {
    hide Crafted, Replaces, EstimatedWeight, InputValue, FeePaid;
    if i > 0 {
      LineageAt(dustLimit, worth, line, i - 1);
      LineageSpendsTheSame(dustLimit, worth, line, i - 1);
      var before, after := line[i - 1], line[i - 1 + 1];
      assert Replaces(dustLimit, worth, before, after);
      assert |Spent(before.tx)| == |Spent(line[0].tx)|;
      assert WrapFree(line[i - 1]);
      ReplacementPaysMore(dustLimit, worth, before, after);
    }
  }

  /**
   Lineages in which nothing wraps end: every replacement gives another quarter
   of the weight to the miners, and what is given never exceeds what the inputs
   are worth.
   */
  lemma {:induction false} LineageIsFinite(dustLimit: u64, worth: OutPoint -> nat, line: seq<Claim>)
    requires dustLimit > 0 && IsLineage(dustLimit, worth, line)
    requires forall k :: 0 <= k < |line| - 1 ==> WrapFree(line[k])
    ensures (|line| - 1) * (EstimatedWeight(|line[0].tx.input|, line[0].destination.scriptLength) / 4) + dustLimit
            <= InputValue(worth, line[0].tx.input)
    ensures (|line| - 1) * MIN_REPLACEMENT_DIFF <= U32_MAX
  {
    hide Crafted, Replaces, EstimatedWeight, InputValue;
    LineageAt(dustLimit, worth, line, |line| - 1);
    LineageSpendsTheSame(dustLimit, worth, line, |line| - 1);
    CraftedPays(dustLimit, worth, line[0]);
    CraftedPays(dustLimit, worth, line[|line| - 1]);
  }

  /** As many different numbers below `n` as there are. */
  lemma {:induction false} PigeonHole(numbers: seq<nat>, n: nat)
    requires forall i :: 0 <= i < |numbers| ==> numbers[i] < n
    requires forall i, j :: 0 <= i < j < |numbers| ==> numbers[i] != numbers[j]
    ensures |numbers| <= n
    decreases n
  {
    if numbers != [] {
      assert 0 <= numbers[0] < n;
      if i :| 0 <= i < |numbers| && numbers[i] == n - 1 {
        PigeonHole(numbers[..i] + numbers[i + 1..], n - 1);
      } else {
        PigeonHole(numbers, n - 1);
      }
    }
  }

  lemma {:induction false} CraftedLockTime(dustLimit: u64, worth: OutPoint -> nat, row: Claim)
    requires Crafted(dustLimit, worth, row)
    ensures row.tx.lockTime <= MAX_LOCK_HEIGHT
  {
    hide FeeSat, SignedInputs, TotalValue, SortByOutPoint;
  }

  /** A row of a lineage as one number: only its lock time and its value can tell it from the others. */
  function RowNumber(row: Claim, most: nat): nat { row.tx.lockTime * (most + 1) + row.tx.value }

  lemma {:induction false} DifferentPairs(a: nat, x: nat, b: nat, y: nat, most: nat)
    requires x <= most && y <= most && (a != b || x != y)
    ensures a * (most + 1) + x != b * (most + 1) + y
  {
    if a < b {
      ProductMonotone(a + 1, b, most + 1, most + 1);
      assert (a + 1) * (most + 1) == a * (most + 1) + most + 1;
    } else if b < a {
      ProductMonotone(b + 1, a, most + 1, most + 1);
      assert (b + 1) * (most + 1) == b * (most + 1) + most + 1;
    }
  }

  /** What any row of a lineage may be. */
  lemma {:induction false} RowsDiffer(dustLimit: u64, worth: OutPoint -> nat, line: seq<Claim>, i: nat, j: nat)
    requires dustLimit > 0 && IsLineage(dustLimit, worth, line) && i < j < |line|
    ensures var most := InputValue(worth, line[0].tx.input); RowNumber(line[i], most) != RowNumber(line[j], most)
  {
    hide Crafted, Replaces, InputValue;
    var most := InputValue(worth, line[0].tx.input);
    RowInRange(dustLimit, worth, line, i);
    RowInRange(dustLimit, worth, line, j);
    LineageSpendsTheSame(dustLimit, worth, line, i);
    LineageSpendsTheSame(dustLimit, worth, line, j);
    CraftedPays(dustLimit, worth, line[i]);
    CraftedPays(dustLimit, worth, line[j]);
    assert IdentityOf(line[i].tx) != IdentityOf(line[j].tx);
    DifferentPairs(line[i].tx.lockTime, line[i].tx.value, line[j].tx.lockTime, line[j].tx.value, most);
  }

  lemma {:induction false} RowInRange(dustLimit: u64, worth: OutPoint -> nat, line: seq<Claim>, i: nat)
    requires dustLimit > 0 && IsLineage(dustLimit, worth, line) && i < |line|
    ensures var most := InputValue(worth, line[0].tx.input);
            line[i].tx.value <= most && RowNumber(line[i], most) < (MAX_LOCK_HEIGHT + 1) * (most + 1)
  {
    hide Crafted, Replaces, InputValue, IsLineage;
    var most := InputValue(worth, line[0].tx.input);
    LineageSpendsTheSame(dustLimit, worth, line, i);
    CraftedPays(dustLimit, worth, line[i]);
    CraftedLockTime(dustLimit, worth, line[i]);
    ProductMonotone(line[i].tx.lockTime, MAX_LOCK_HEIGHT, most + 1, most + 1);
  }

  /**
   Every lineage ends, whatever wraps: outpoints and address stay, so rows can
   only differ in lock time and value, and no transaction is stored twice.
   */
  lemma {:induction false} LineageIsBounded(dustLimit: u64, worth: OutPoint -> nat, line: seq<Claim>)
    requires dustLimit > 0 && IsLineage(dustLimit, worth, line)
    ensures |line| <= (MAX_LOCK_HEIGHT + 1) * (InputValue(worth, line[0].tx.input) + 1)
  {
    hide IsLineage, RowNumber, InputValue;
    LineageIsNotEmpty(dustLimit, worth, line);
    var most := InputValue(worth, line[0].tx.input);
    var numbers := seq(|line|, i requires 0 <= i < |line| => RowNumber(line[i], most));
    forall i | 0 <= i < |numbers| ensures numbers[i] < (MAX_LOCK_HEIGHT + 1) * (most + 1) {
      RowInRange(dustLimit, worth, line, i);
    }
    forall i, j | 0 <= i < j < |numbers| ensures numbers[i] != numbers[j] {
      RowsDiffer(dustLimit, worth, line, i, j);
    }
    PigeonHole(numbers, (MAX_LOCK_HEIGHT + 1) * (most + 1));
  }

  lemma {:induction false} LineageIsNotEmpty(dustLimit: u64, worth: OutPoint -> nat, line: seq<Claim>)
    requires IsLineage(dustLimit, worth, line)
    ensures line != []
  {
  }

  // --------------------------------------- when every replacement pays more

  /** The first rate at which the addition wraps. */
  const WRAPPING_RATE: u32 := U32_MAX - MIN_REPLACEMENT_DIFF + 1

  /** Claims on inputs too small to pay the first wrapping rate never reach one. */
  lemma {:induction false} PoorClaimsAreWrapFree(dustLimit: u64, worth: OutPoint -> nat, row: Claim)
    requires dustLimit > 0 && Crafted(dustLimit, worth, row)
    requires InputValue(worth, row.tx.input) < FeeSat(|row.tx.input|, row.destination.scriptLength,
        WRAPPING_RATE) + dustLimit
    ensures WrapFree(row)
  {
    hide FeeSat, Crafted;
    CraftedPays(dustLimit, worth, row);
    if !WrapFree(row) {
      FeeMonotone(|row.tx.input|, row.destination.scriptLength, row.destination.scriptLength, WRAPPING_RATE,
          row.feePerKw);
    }
  }

  /** A lineage of claims for these outputs towards this address. */
  ghost predicate LineageOver(dustLimit: u64, worth: OutPoint -> nat, cs: seq<Claimable>, destination: Destination,
      line: seq<Claim>) {
    IsLineage(dustLimit, worth, line) && SpendsInOrder(line[0].tx, SortByOutPoint(cs))
        && line[0].destination == destination
  }

  predicate PaysMoreAt(worth: OutPoint -> nat, line: seq<Claim>, i: nat) {
    i + 1 < |line| ==> FeePaid(worth, line[i + 1].tx) > FeePaid(worth, line[i].tx)
  }

  ghost predicate AlwaysPaysMore(dustLimit: u64, worth: OutPoint -> nat, cs: seq<Claimable>, destination: Destination) {
    forall line, i: nat :: LineageOver(dustLimit, worth, cs, destination, line) ==> PaysMoreAt(worth, line, i)
  }

  lemma {:induction false} ValueOfOrdered(worth: OutPoint -> nat, cs: seq<Claimable>, tx: Transaction)
    requires Worth(worth, cs) && SpendsInOrder(tx, SortByOutPoint(cs))
    ensures InputValue(worth, tx.input) == TotalValue(cs) && |tx.input| == |cs|
  {
    SameMembers(SortByOutPoint(cs), cs);
    TotalOfSort(cs);
    InputValueOfClaim(worth, SortByOutPoint(cs), tx.input);
  }

  lemma {:induction false} PoorLineagePaysMore(dustLimit: u64, worth: OutPoint -> nat, cs: seq<Claimable>,
      destination: Destination, line: seq<Claim>, i: nat)
    requires dustLimit > 0 && cs != [] && Worth(worth, cs)
    requires TotalValue(cs) < FeeSat(|cs|, destination.scriptLength, WRAPPING_RATE) + dustLimit
    requires LineageOver(dustLimit, worth, cs, destination, line)
    ensures PaysMoreAt(worth, line, i)
  {
    hide Crafted, Replaces, FeeSat, FeePaid, InputValue, TotalValue, SortByOutPoint;
    if i + 1 < |line| {
      ValueOfOrdered(worth, cs, line[0].tx);
      LineageSpendsTheSame(dustLimit, worth, line, i);
      assert |Spent(line[i].tx)| == |Spent(line[0].tx)|;
      PoorClaimsAreWrapFree(dustLimit, worth, line[i]);
      assert Replaces(dustLimit, worth, line[i], line[i + 1]);
      ReplacementPaysMore(dustLimit, worth, line[i], line[i + 1]);
    }
  }

  /** The claim at the first wrapping rate, made at some height. */
  function ClaimAtWrap(dustLimit: u64, cs: seq<Claimable>, destination: Destination, height: u64): Claim
    requires ClaimTransaction(cs, WRAPPING_RATE, height, destination, dustLimit).Ok?
  {
    ClaimRow(ClaimTransaction(cs, WRAPPING_RATE, height, destination, dustLimit).value, destination, WRAPPING_RATE,
        true)
  }

  /** The transaction of a claim does not depend on whether the listing was sorted before. */
  lemma {:induction false} ClaimOfSorted(cs: seq<Claimable>, rate: u32, height: u64, destination: Destination,
      dustLimit: u64)
    ensures ClaimTransaction(SortByOutPoint(cs), rate, height, destination, dustLimit)
         == ClaimTransaction(cs, rate, height, destination, dustLimit)
  {
    hide FeeSat, Sorted, TotalValue;
    SortSorts(cs);
    SortOfSorted(SortByOutPoint(cs));
  }

  lemma {:induction false} ClaimSpendsInOrder(cs: seq<Claimable>, rate: u32, height: u64, destination: Destination,
      dustLimit: u64)
    requires ClaimTransaction(cs, rate, height, destination, dustLimit).Ok?
    ensures SpendsInOrder(ClaimTransaction(cs, rate, height, destination, dustLimit).value, SortByOutPoint(cs))
  {
    hide FeeSat, TotalValue;
  }

  lemma {:induction false} WorthOfSorted(worth: OutPoint -> nat, cs: seq<Claimable>)
    requires Worth(worth, cs)
    ensures Worth(worth, SortByOutPoint(cs))
  {
    SameMembers(SortByOutPoint(cs), cs);
  }

  /** At the first wrapping rate every estimate replaces, the same rate again included. */
  lemma {:induction false} ReplacedAtSameRate(dustLimit: u64, worth: OutPoint -> nat, cs: seq<Claimable>,
      destination: Destination)
    requires Worth(worth, cs)
    requires ClaimTransaction(cs, WRAPPING_RATE, 0, destination, dustLimit).Ok?
    requires ClaimTransaction(cs, WRAPPING_RATE, 1, destination, dustLimit).Ok?
    ensures var (row, next) := (ClaimAtWrap(dustLimit, cs, destination, 0), ClaimAtWrap(dustLimit, cs, destination, 1));
            Replaces(dustLimit, worth, row, next) && SpendsInOrder(row.tx, SortByOutPoint(cs))
  {
    hide ClaimTransaction, SpendsInOrder, Worth;
    var (row, next) := (ClaimAtWrap(dustLimit, cs, destination, 0), ClaimAtWrap(dustLimit, cs, destination, 1));
    ClaimOfSorted(cs, WRAPPING_RATE, 1, destination, dustLimit);
    ClaimSpendsInOrder(cs, WRAPPING_RATE, 0, destination, dustLimit);
    WorthOfSorted(worth, cs);
    assert ReplacedBy(dustLimit, worth, row, next, SortByOutPoint(cs), 1);
  }

  lemma {:induction false} ClaimableAtWrap(dustLimit: u64, cs: seq<Claimable>, destination: Destination, height: u64)
    requires dustLimit > 0 && height < 500_000_000
    requires TotalValue(cs) >= FeeSat(|cs|, destination.scriptLength, WRAPPING_RATE) + dustLimit
    ensures var tx := ClaimTransaction(cs, WRAPPING_RATE, height, destination, dustLimit);
            tx.Ok? && tx.value.lockTime == height
  {
    hide ClaimTransaction, FeeSat, TotalValue;
    ClaimPossibleWhen(cs, WRAPPING_RATE, height, destination, dustLimit);
  }

  /** Two rows made one block apart at the first wrapping rate: the second replaces the first and pays no more. */
  lemma {:induction false} ReplacedForNothing(dustLimit: u64, worth: OutPoint -> nat, cs: seq<Claimable>,
      destination: Destination)
    requires dustLimit > 0 && cs != [] && Worth(worth, cs) && DistinctOutPoints(cs)
    requires TotalValue(cs) >= FeeSat(|cs|, destination.scriptLength, WRAPPING_RATE) + dustLimit
    ensures ClaimTransaction(cs, WRAPPING_RATE, 0, destination, dustLimit).Ok?
         && ClaimTransaction(cs, WRAPPING_RATE, 1, destination, dustLimit).Ok?
    ensures var line := [ClaimAtWrap(dustLimit, cs, destination, 0), ClaimAtWrap(dustLimit, cs, destination, 1)];
            && LineageOver(dustLimit, worth, cs, destination, line)
            && FeePaid(worth, line[1].tx) == FeePaid(worth, line[0].tx) && line[1].feePerKw == line[0].feePerKw
  {
    hide ClaimTransaction, FeeSat, Replaces, DistinctOutPoints, TotalValue, Worth;
    ClaimableAtWrap(dustLimit, cs, destination, 0);
    ClaimableAtWrap(dustLimit, cs, destination, 1);
    var line := [ClaimAtWrap(dustLimit, cs, destination, 0), ClaimAtWrap(dustLimit, cs, destination, 1)];
    assert CraftedFrom(dustLimit, worth, line[0], cs, 0) && CraftedFrom(dustLimit, worth, line[1], cs, 1);
    ReplacedAtSameRate(dustLimit, worth, cs, destination);
    ReplacementSpendsTheSame(dustLimit, worth, line[0], line[1]);
    assert |Spent(line[0].tx)| == |Spent(line[1].tx)|;
    CraftedPays(dustLimit, worth, line[0]);
    CraftedPays(dustLimit, worth, line[1]);
  }

  lemma {:induction false} RichClaimsPayNoMore(dustLimit: u64, worth: OutPoint -> nat, cs: seq<Claimable>,
      destination: Destination)
    requires dustLimit > 0 && cs != [] && Worth(worth, cs) && DistinctOutPoints(cs)
    requires TotalValue(cs) >= FeeSat(|cs|, destination.scriptLength, WRAPPING_RATE) + dustLimit
    ensures !AlwaysPaysMore(dustLimit, worth, cs, destination)
  {
    hide FeeSat, LineageOver, ClaimTransaction, FeePaid, TotalValue;
    ReplacedForNothing(dustLimit, worth, cs, destination);
    var line := [ClaimAtWrap(dustLimit, cs, destination, 0), ClaimAtWrap(dustLimit, cs, destination, 1)];
    assert !PaysMoreAt(worth, line, 0);
  }

  /**
   What the wrapping addition breaks, exactly: over given outputs every
   replacement pays more if and only if the outputs cannot pay the first rate at
   which it wraps.
   */
  lemma {:induction false} ReplacementsPayMoreWhen(dustLimit: u64, worth: OutPoint -> nat, cs: seq<Claimable>,
      destination: Destination)
    requires dustLimit > 0 && cs != [] && Worth(worth, cs) && DistinctOutPoints(cs)
    ensures AlwaysPaysMore(dustLimit, worth, cs, destination)
       <==> TotalValue(cs) < FeeSat(|cs|, destination.scriptLength, WRAPPING_RATE) + dustLimit
  {
    hide FeeSat, LineageOver, ClaimTransaction, FeePaid, TotalValue;
    if TotalValue(cs) < FeeSat(|cs|, destination.scriptLength, WRAPPING_RATE) + dustLimit {
      forall line, i: nat | LineageOver(dustLimit, worth, cs, destination, line) ensures PaysMoreAt(worth, line, i) {
        PoorLineagePaysMore(dustLimit, worth, cs, destination, line, i);
      }
    } else {
      RichClaimsPayNoMore(dustLimit, worth, cs, destination);
    }
  }

  /** Less than the least fee at the first wrapping rate: about 19.8 bitcoin. */
  const WRAP_FREE_VALUE := 1_984_274_775

  /** Claims on inputs worth no more than that never reach a rate at which the rule wraps. */
  lemma {:induction false} SmallClaimsDoNotWrap(dustLimit: u64, worth: OutPoint -> nat, row: Claim)
    requires dustLimit > 0 && Crafted(dustLimit, worth, row) && InputValue(worth, row.tx.input) <= WRAP_FREE_VALUE
    ensures WrapFree(row)
  {
    CraftedPays(dustLimit, worth, row);
    WrappingFee(|row.tx.input|, row.destination.scriptLength);
    PoorClaimsAreWrapFree(dustLimit, worth, row);
  }

  lemma {:induction false} WrappingFee(inputs: nat, scriptLength: nat)
    requires inputs > 0
    ensures FeeSat(inputs, scriptLength, WRAPPING_RATE) > WRAP_FREE_VALUE
  {
    ProductMonotone(462, EstimatedWeight(inputs, scriptLength), WRAPPING_RATE, WRAPPING_RATE);
    DivCeilMonotone(462 * WRAPPING_RATE, EstimatedWeight(inputs, scriptLength) * WRAPPING_RATE);
  }

  const RICH := Claimable(Txo(1, 1, OutPoint(1, 0), 2_400_000_000), 1, 144, 1, Some(1))

  /** One output of 24 bitcoin, towards a P2WPKH address: a claim of it replaced without paying a satoshi more. */
  lemma {:induction false} RichOutputReplacedForNothing()
    ensures var destination := Destination(1, P2WPKH_SCRIPT_LENGTH);
            && ClaimTransaction([RICH], WRAPPING_RATE, 0, destination, 546).Ok?
            && ClaimTransaction([RICH], WRAPPING_RATE, 1, destination, 546).Ok?
            && var line := [ClaimAtWrap(546, [RICH], destination, 0), ClaimAtWrap(546, [RICH], destination, 1)];
               && LineageOver(546, _ => 2_400_000_000, [RICH], destination, line)
               && FeePaid(_ => 2_400_000_000, line[1].tx) == FeePaid(_ => 2_400_000_000, line[0].tx)
  {
    var destination := Destination(1, P2WPKH_SCRIPT_LENGTH);
    assert FeeSat(1, P2WPKH_SCRIPT_LENGTH, WRAPPING_RATE) == 2_362_231_876;
    ReplacedForNothing(546, _ => 2_400_000_000, [RICH], destination);
  }
}
