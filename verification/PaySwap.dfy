/**
 The checks `pay_swap` makes before it locks a swap for payment, as one
 expression over the request, the stored swap and what was observed on chain.
 */
module PaySwap {
  import opened Types
  import opened Timelock
  import opened ClaimTx

  datatype Config = Config(
    maxSwapAmountSat: u64,
    minConfirmations: u64,
    minClaimBlocks: u32,
    minUtxoAmountSat: u64,
    minViableCltv: u32,
    dustLimit: u64)

  datatype PayRequest = PayRequest(invoice: Invoice, amountMsat: Option<u64>, hash: Hash, finalDelta: u64)

  /** Answers of the chain, the fee estimators and the address filter (None when the filter failed). */
  datatype Observed = Observed(
    parameterRate: u32,
    txos: seq<Txo>,
    currentHeight: u64,
    filtered: Option<seq<Txo>>,
    claimRate: u32)

  datatype PayError =
    | NoAmount | NotRoundSat | AboveMaximum | BelowMinimum | AlreadyPaid | DeltaTooHigh
    | NoUtxos | SwapExpired | ValueMismatch | ValueTooLow

  /** What is recorded and sent once all checks passed. */
  datatype PayPlan = PayPlan(
    hash: Hash,
    invoice: Invoice,
    amountMsat: u64,
    outputs: seq<Txo>,
    cltvLimit: u32,
    finalDelta: u32,
    currentHeight: u64)

  /** `get_swap_parameters`: one and a half times the fee of 1000 weight units, or the configured minimum. */
  function MinAmountSat(cfg: Config, rate: u32): nat {
    Max(rate * 3 / 2, cfg.minUtxoAmountSat)
  }

  function MinHeight(txos: seq<Txo>): (m: u64)
    requires txos != []
    ensures exists t :: t in txos && t.blockHeight == m
    ensures forall t :: t in txos ==> m <= t.blockHeight
  {
    if |txos| == 1 then txos[0].blockHeight
    else Min(txos[0].blockHeight, MinHeight(txos[1..]))
  }

  predicate IsEligible(cfg: Config, obs: Observed, txo: Txo) {
    && Confirmations(txo.blockHeight, obs.currentHeight) >= cfg.minConfirmations
    && txo.value >= MinAmountSat(cfg, obs.parameterRate)
  }

  /** The eligible outputs. */
  function Eligible(cfg: Config, obs: Observed, txos: seq<Txo>): (r: seq<Txo>)
    ensures forall t :: t in r <==> t in txos && IsEligible(cfg, obs, t)
  {
    if txos == [] then []
    else if IsEligible(cfg, obs, txos[0]) then [txos[0]] + Eligible(cfg, obs, txos[1..])
    else Eligible(cfg, obs, txos[1..])
  }

  /** Each eligible output is kept as often as it is listed. */
  lemma {:induction false} EligibleCounts(cfg: Config, obs: Observed, txos: seq<Txo>, t: Txo)
    ensures multiset(Eligible(cfg, obs, txos))[t] == if IsEligible(cfg, obs, t) then multiset(txos)[t] else 0
  {
    hide IsEligible;
    if txos != [] {
      assert txos == [txos[0]] + txos[1..];
      EligibleCounts(cfg, obs, txos[1..], t);
    }
  }

  lemma {:induction false} EligibleFirst(cfg: Config, obs: Observed, txos: seq<Txo>)
    requires txos != []
    ensures Eligible(cfg, obs, txos)
         == (if IsEligible(cfg, obs, txos[0]) then [txos[0]] else []) + Eligible(cfg, obs, txos[1..])
  {
  }

  lemma {:induction false} EligibleOfNone(cfg: Config, obs: Observed)
    ensures Eligible(cfg, obs, []) == []
  {
  }

  /** Filtering keeps the order: it works output by output. */
  lemma {:induction false} EligibleOfConcat(cfg: Config, obs: Observed, a: seq<Txo>, b: seq<Txo>)
    ensures Eligible(cfg, obs, a + b) == Eligible(cfg, obs, a) + Eligible(cfg, obs, b)
  {
    hide IsEligible, Eligible;
    if a == [] {
      assert a + b == b;
      EligibleOfNone(cfg, obs);
    } else {
      var c := a + b;
      assert c[0] == a[0] && c[1..] == a[1..] + b;
      EligibleOfConcat(cfg, obs, a[1..], b);
      EligibleFirst(cfg, obs, c);
      EligibleFirst(cfg, obs, a);
    }
  }

  /**
   What configuration, fee rate and tip ask of an output: it is worth the configured
   minimum, pays for half as much again as a transaction of 1000 weight units, and has
   its confirmations. (A tip of the highest height there is has no next block.)
   */
  predicate Acceptable(cfg: Config, rate: u32, currentHeight: u64, txo: Txo) {
    && txo.value >= cfg.minUtxoAmountSat
    && 2 * txo.value + 1 >= 3 * rate
    && (cfg.minConfirmations > 0 ==> txo.blockHeight + cfg.minConfirmations <= Min(currentHeight + 1, U64_MAX))
  }

  lemma {:induction false} EligibleMeans(cfg: Config, obs: Observed, txo: Txo)
    ensures IsEligible(cfg, obs, txo) <==> Acceptable(cfg, obs.parameterRate, obs.currentHeight, txo)
  {
  }

  /** The outputs a payment is for: the eligible ones, or what the address filter makes of them. */
  function Counted(cfg: Config, obs: Observed): seq<Txo> {
    if obs.filtered.Some? then obs.filtered.value else Eligible(cfg, obs, obs.txos)
  }

  /**
   Every output counted is listed and acceptable; and without an answer of the filter
   every acceptable output is counted, as often as it is listed.
   */
  lemma {:induction false} CountedMeans(cfg: Config, obs: Observed, txo: Txo)
    requires FilterAnswers(cfg, obs)
    ensures txo in Counted(cfg, obs) ==> txo in obs.txos && Acceptable(cfg, obs.parameterRate, obs.currentHeight, txo)
    ensures obs.filtered.None? ==>
        multiset(Counted(cfg, obs))[txo]
          == if Acceptable(cfg, obs.parameterRate, obs.currentHeight, txo) then multiset(obs.txos)[txo] else 0
  {
    hide IsEligible, Acceptable;
    EligibleMeans(cfg, obs, txo);
    EligibleCounts(cfg, obs, obs.txos, txo);
    if obs.filtered.Some? && txo in Counted(cfg, obs) {
      assert txo in multiset(obs.filtered.value);
      assert txo in multiset(Eligible(cfg, obs, obs.txos));
    }
  }

  /** The address filter drops outputs and may reorder the rest. */
  ghost predicate FilterAnswers(cfg: Config, obs: Observed) {
    obs.filtered.Some? ==> multiset(obs.filtered.value) <= multiset(Eligible(cfg, obs, obs.txos))
  }

  function FakeClaimables(hash: Hash, lockTime: u16, txos: seq<Txo>): seq<Claimable> {
    seq(|txos|, i requires 0 <= i < |txos| => Claimable(txos[i], hash, lockTime, 0, None))
  }

  const FAKE_DESTINATION := Destination(0, P2WPKH_SCRIPT_LENGTH)

  /** What is wrong with the amount; the swap is looked up only after this. */
  function AmountRefusal(cfg: Config, req: PayRequest, rate: u32): Option<PayError> {
    if req.amountMsat.None? then Some(NoAmount) else
    var amountSat := req.amountMsat.value / 1000;
    if amountSat * 1000 != req.amountMsat.value then Some(NotRoundSat) else
    if amountSat > cfg.maxSwapAmountSat then Some(AboveMaximum) else
    if amountSat < MinAmountSat(cfg, rate) then Some(BelowMinimum) else None
  }

  function PayChecks(cfg: Config, req: PayRequest, lockTime: u16, preimage: Option<Preimage>, obs: Observed)
    : Result<PayPlan, PayError>
  {
    var refusal := AmountRefusal(cfg, req, obs.parameterRate);
    if refusal.Some? then Err(refusal.value) else
    var amountSat := req.amountMsat.value / 1000;
    if preimage.Some? then Err(AlreadyPaid) else
    if req.finalDelta > U32_MAX then Err(DeltaTooHigh) else
    if obs.txos == [] then Err(NoUtxos) else
    var blocksLeft := SwapBlocksLeft(lockTime, MinHeight(obs.txos), obs.currentHeight);
    var window := PayoutWindow(blocksLeft, cfg.minClaimBlocks, req.finalDelta, cfg.minViableCltv);
    if window.None? then Err(SwapExpired) else
    var txos := Counted(cfg, obs);
    if SumValues(txos) != amountSat then Err(ValueMismatch) else
    var trial := ClaimTransaction(FakeClaimables(req.hash, lockTime, txos), obs.claimRate, obs.currentHeight,
                                  FAKE_DESTINATION, cfg.dustLimit);
    if trial.Err? then Err(ValueTooLow) else
    Ok(PayPlan(req.hash, req.invoice, req.amountMsat.value, txos, window.value, req.finalDelta, obs.currentHeight))
  }

  /** The terms under which every payment goes out. */
  ghost predicate PlanSound(cfg: Config, lockTime: u16, plan: PayPlan) {
    && plan.amountMsat == 1000 * SumValues(plan.outputs)
    && plan.amountMsat <= 1000 * cfg.maxSwapAmountSat
    && plan.cltvLimit > 0
    && (cfg.minViableCltv > 0 ==> plan.cltvLimit >= plan.finalDelta + cfg.minViableCltv)
    && forall t :: t in plan.outputs ==>
         && t.blockHeight + lockTime >= plan.currentHeight + plan.cltvLimit + cfg.minClaimBlocks
         && Confirmations(t.blockHeight, plan.currentHeight) >= cfg.minConfirmations
  }

  lemma {:induction false} ChecksGiveSoundPlan(cfg: Config, req: PayRequest, lockTime: u16, preimage: Option<Preimage>,
      obs: Observed)
    requires FilterAnswers(cfg, obs)
    ensures var r := PayChecks(cfg, req, lockTime, preimage, obs);
            r.Ok? ==>
              && PlanSound(cfg, lockTime, r.value)
              && r.value.hash == req.hash
              && (forall t :: t in r.value.outputs ==>
                  t in obs.txos && Acceptable(cfg, obs.parameterRate, obs.currentHeight, t))
              && r.value.finalDelta == req.finalDelta
  {
    var r := PayChecks(cfg, req, lockTime, preimage, obs);
    if r.Ok? {
      var minHeight := MinHeight(obs.txos);
      forall t | t in r.value.outputs
        ensures t in obs.txos && Acceptable(cfg, obs.parameterRate, obs.currentHeight, t)
        ensures t.blockHeight + lockTime >= obs.currentHeight + r.value.cltvLimit + cfg.minClaimBlocks
      {
        CountedMeans(cfg, obs, t);
        WindowFitsLock(lockTime, minHeight, obs.currentHeight, cfg.minClaimBlocks, req.finalDelta, cfg.minViableCltv,
            t.blockHeight);
      }
    }
  }

  /** The amount of an invoice that may be paid: a whole number of satoshis within the limits. */
  predicate AmountFits(cfg: Config, rate: u32, amountMsat: Option<u64>, amountSat: nat) {
    && amountMsat == Some(1000 * amountSat)
    && cfg.minUtxoAmountSat <= amountSat <= cfg.maxSwapAmountSat
    && 2 * amountSat + 1 >= 3 * rate
  }

  /** All a request has to meet. */
  ghost predicate Payable(cfg: Config, req: PayRequest, lockTime: u16, preimage: Option<Preimage>, obs: Observed) {
    var total := SumValues(Counted(cfg, obs));
    && AmountFits(cfg, obs.parameterRate, req.amountMsat, total)
    && preimage.None? && req.finalDelta <= U32_MAX
    && obs.txos != [] && WindowFor(cfg, req, lockTime, obs).Some?
    && obs.currentHeight % (U32_MAX + 1) <= MAX_LOCK_HEIGHT
    && (cfg.dustLimit > 0 ==>
          total >= FeeSat(|Counted(cfg, obs)|, P2WPKH_SCRIPT_LENGTH, obs.claimRate) + cfg.dustLimit)
  }

  /** The window granted from the lowest listed output. */
  function WindowFor(cfg: Config, req: PayRequest, lockTime: u16, obs: Observed): Option<u32>
    requires obs.txos != [] && req.finalDelta <= U32_MAX
  {
    WindowAt(lockTime, MinHeight(obs.txos), obs.currentHeight, cfg.minClaimBlocks, req.finalDelta, cfg.minViableCltv)
  }

  /** A request passes exactly when it meets all of that, and its plan is this one. */
  lemma {:induction false} PassesExactlyWhen(cfg: Config, req: PayRequest, lockTime: u16, preimage: Option<Preimage>,
      obs: Observed)
    ensures var r := PayChecks(cfg, req, lockTime, preimage, obs);
            && (r.Ok? <==> Payable(cfg, req, lockTime, preimage, obs))
            && (r.Ok? ==> r.value == PayPlan(req.hash, req.invoice, req.amountMsat.value, Counted(cfg, obs),
                WindowFor(cfg, req, lockTime, obs).value, req.finalDelta, obs.currentHeight))
  {
    hide ClaimTransaction, SwapBlocksLeft, PayoutWindow, Counted, FeeSat, MinHeight;
    var txos := Counted(cfg, obs);
    var fakes := FakeClaimables(req.hash, lockTime, txos);
    TotalOfTxos(fakes, txos);
    ClaimPossibleWhen(fakes, obs.claimRate, obs.currentHeight, FAKE_DESTINATION, cfg.dustLimit);
  }

  /** What each refusal tells. */
  lemma {:induction false} RefusalMeans(cfg: Config, req: PayRequest, lockTime: u16, preimage: Option<Preimage>,
      obs: Observed)
    requires PayChecks(cfg, req, lockTime, preimage, obs).Err?
    ensures match PayChecks(cfg, req, lockTime, preimage, obs).error
            case NoAmount => req.amountMsat.None?
            case NotRoundSat => forall sat: nat :: req.amountMsat != Some(1000 * sat)
            case AboveMaximum => req.amountMsat.value > 1000 * cfg.maxSwapAmountSat
            case BelowMinimum =>
              || req.amountMsat.value < 1000 * cfg.minUtxoAmountSat
              || 2 * (req.amountMsat.value / 1000) + 1 < 3 * obs.parameterRate
            case AlreadyPaid => preimage.Some?
            case DeltaTooHigh => req.finalDelta > U32_MAX
            case NoUtxos => obs.txos == []
            case SwapExpired => WindowFor(cfg, req, lockTime, obs).None?
            case ValueMismatch => req.amountMsat != Some(1000 * SumValues(Counted(cfg, obs)))
            case ValueTooLow =>
              || obs.currentHeight % (U32_MAX + 1) > MAX_LOCK_HEIGHT
              || SumValues(Counted(cfg, obs))
                   < FeeSat(|Counted(cfg, obs)|, P2WPKH_SCRIPT_LENGTH, obs.claimRate) + cfg.dustLimit
  {
    hide ClaimTransaction, SwapBlocksLeft, PayoutWindow, Counted, FeeSat, MinHeight;
    var txos := Counted(cfg, obs);
    var fakes := FakeClaimables(req.hash, lockTime, txos);
    TotalOfTxos(fakes, txos);
    ClaimPossibleWhen(fakes, obs.claimRate, obs.currentHeight, FAKE_DESTINATION, cfg.dustLimit);
  }

  /** Only the invoice of an unpaid swap passes, for an amount within the limits. */
  lemma {:induction false} ChecksLimitAmount(cfg: Config, req: PayRequest, lockTime: u16, preimage: Option<Preimage>,
      obs: Observed)
    ensures var r := PayChecks(cfg, req, lockTime, preimage, obs);
            r.Ok? ==>
              && preimage.None?
              && r.value.invoice == req.invoice && Some(r.value.amountMsat) == req.amountMsat
              && 1000 * cfg.minUtxoAmountSat <= r.value.amountMsat <= 1000 * cfg.maxSwapAmountSat
              && r.value.amountMsat + 500 >= 1500 * obs.parameterRate
              && (cfg.dustLimit > 0 ==> r.value.outputs != [])
  {
    hide ClaimTransaction, SwapBlocksLeft, PayoutWindow, Eligible;
    var r := PayChecks(cfg, req, lockTime, preimage, obs);
    if cfg.dustLimit > 0 && r.Ok? && r.value.outputs == [] {
      ClaimPossibleWhen(FakeClaimables(req.hash, lockTime, []), obs.claimRate, obs.currentHeight, FAKE_DESTINATION,
          cfg.dustLimit);
    }
  }

  lemma {:induction false} TotalOfTxos(cs: seq<Claimable>, txos: seq<Txo>)
    requires |cs| == |txos| && forall i :: 0 <= i < |cs| ==> cs[i].utxo == txos[i]
    ensures TotalValue(cs) == SumValues(txos)
  {
    if cs != [] { TotalOfTxos(cs[1..], txos[1..]); }
  }

  /**
   The trial claim is a promise: whoever passed the checks leaves outputs that
   can be claimed together at any usable height and any rate up to the estimate,
   to any address whose script is at most as long as the trial's.
   */
  lemma {:induction false} TrialClaimCarriesOver(
      cfg: Config, req: PayRequest, lockTime: u16, obs: Observed,
      claimables: seq<Claimable>, rate: u32, height: u64, destination: Destination)
    requires PayChecks(cfg, req, lockTime, None, obs).Ok?
    requires var txos := PayChecks(cfg, req, lockTime, None, obs).value.outputs;
             |claimables| == |txos| && forall i :: 0 <= i < |txos| ==> claimables[i].utxo == txos[i]
    requires rate <= obs.claimRate && height % (U32_MAX + 1) <= MAX_LOCK_HEIGHT
    requires destination.scriptLength <= P2WPKH_SCRIPT_LENGTH
    ensures ClaimTransaction(claimables, rate, height, destination, cfg.dustLimit).Ok?
  {
    var txos := PayChecks(cfg, req, lockTime, None, obs).value.outputs;
    var trial := FakeClaimables(req.hash, lockTime, txos);
    TotalOfTxos(claimables, txos);
    TotalOfTxos(trial, txos);
    ClaimCarriesOver(trial, claimables, obs.claimRate, rate, obs.currentHeight, height,
                     FAKE_DESTINATION, destination, cfg.dustLimit);
  }
}
