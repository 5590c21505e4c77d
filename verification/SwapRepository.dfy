/**
 The swap tables and the repository methods that change them. Every method runs
 in one database transaction that first locks the swap's row, so each is one
 atomic step; the functions give that step, the class performs it in place.
 */
module SwapTables {
  import opened Types

  /** A row of `swap_locks`. */
  datatype Lock =
    | PaymentLock(hash: Hash, tag: Label)
    | RefundLock(hash: Hash, refundId: RefundId)

  datatype SwapRow = SwapRow(address: Address, lockTime: u16, preimage: Option<Preimage>)

  /** A row of `payment_attempts` with its rows of `payment_attempt_tx_outputs`. */
  datatype Attempt = Attempt(
    hash: Hash,
    amountMsat: u64,
    paymentRequest: Invoice,
    outputs: seq<OutPoint>,
    success: Option<bool>)

  datatype Tables = Tables(swaps: map<Hash, SwapRow>, attempts: map<Label, Attempt>, locks: set<Lock>)

  datatype PaymentResult = Success(preimage: Preimage) | Failure
  datatype LockError = AlreadyLocked | SwapNotFound

  predicate HasLock(t: Tables, h: Hash) { exists l :: l in t.locks && l.hash == h }
  predicate HasPaymentLock(t: Tables, h: Hash) { exists l :: l in t.locks && l.hash == h && l.PaymentLock? }

  function LockAddPaymentAttempt(t: Tables, tag: Label, a: Attempt): Result<Tables, LockError> {
    if a.hash !in t.swaps then Err(SwapNotFound)
    else if HasLock(t, a.hash) then Err(AlreadyLocked)
    else Ok(t.(locks := t.locks + {PaymentLock(a.hash, tag)},
               attempts := t.attempts[tag := a.(success := None)]))
  }

  function LockSwapRefund(t: Tables, h: Hash, id: RefundId): Result<Tables, LockError> {
    if h !in t.swaps then Err(SwapNotFound)
    else if HasPaymentLock(t, h) then Err(AlreadyLocked)
    else Ok(t.(locks := t.locks + {RefundLock(h, id)}))
  }

  function UnlockAddPaymentResult(t: Tables, h: Hash, tag: Label, result: PaymentResult): Result<Tables, LockError> {
    if h !in t.swaps then Err(SwapNotFound) else
    Ok(Tables(
         if result.Success? then t.swaps[h := t.swaps[h].(preimage := Some(result.preimage))] else t.swaps,
         if tag in t.attempts then t.attempts[tag := t.attempts[tag].(success := Some(result.Success?))]
             else t.attempts,
         t.locks - {PaymentLock(h, tag)}))
  }

  function UnlockSwapRefund(t: Tables, h: Hash, id: RefundId): Result<Tables, LockError> {
    if h !in t.swaps then Err(SwapNotFound)
    else Ok(t.(locks := t.locks - {RefundLock(h, id)}))
  }

  /** Labels of the attempts without a result. */
  function Unhandled(t: Tables): set<Label> {
    set l | l in t.attempts && t.attempts[l].success.None?
  }

  // ------------------------------------------------------------- invariant

  /** A payment lock excludes every other lock of its swap. */
  predicate LocksExclusive(t: Tables) {
    forall a, b :: a in t.locks && b in t.locks && a.hash == b.hash && a.PaymentLock? ==> a == b
  }

  /** A payment lock is there exactly while its attempt has no result. */
  ghost predicate LocksMatchAttempts(t: Tables) {
    forall h, l :: PaymentLock(h, l) in t.locks
              <==> l in t.attempts && t.attempts[l].hash == h && t.attempts[l].success.None?
  }

  predicate AttemptsOfSwaps(t: Tables) {
    && (forall l :: l in t.attempts ==> t.attempts[l].hash in t.swaps)
    && (forall k :: k in t.locks ==> k.hash in t.swaps)
  }

  ghost predicate TablesInv(t: Tables) {
    LocksExclusive(t) && LocksMatchAttempts(t) && AttemptsOfSwaps(t)
  }

  lemma {:induction false} LockPaymentKeepsInv(t: Tables, tag: Label, a: Attempt)
    requires TablesInv(t) && tag !in t.attempts
    ensures var r := LockAddPaymentAttempt(t, tag, a); r.Ok? ==> TablesInv(r.value)
  {
  }

  lemma {:induction false} LockRefundKeepsInv(t: Tables, h: Hash, id: RefundId)
    requires TablesInv(t)
    ensures var r := LockSwapRefund(t, h, id); r.Ok? ==> TablesInv(r.value)
  {
  }

  /** An answer must name the swap its attempt belongs to. */
  lemma {:induction false} UnlockPaymentKeepsInv(t: Tables, h: Hash, tag: Label, result: PaymentResult)
    requires TablesInv(t) && (tag in t.attempts ==> t.attempts[tag].hash == h)
    ensures var r := UnlockAddPaymentResult(t, h, tag, result); r.Ok? ==> TablesInv(r.value)
  {
  }

  lemma {:induction false} UnlockRefundKeepsInv(t: Tables, h: Hash, id: RefundId)
    requires TablesInv(t)
    ensures var r := UnlockSwapRefund(t, h, id); r.Ok? ==> TablesInv(r.value)
  {
  }

  /** While a refund holds its lock, every attempt of the swap has its result. */
  lemma {:induction false} RefundLockSettlesAttempts(t: Tables, h: Hash, id: RefundId)
    requires TablesInv(t) && RefundLock(h, id) in t.locks
    ensures forall l :: l in t.attempts && t.attempts[l].hash == h ==> t.attempts[l].success.Some?
    ensures !HasPaymentLock(t, h)
  {
    forall l | l in t.attempts && t.attempts[l].hash == h
      ensures t.attempts[l].success.Some?
    {
      assert PaymentLock(h, l) in t.locks ==> PaymentLock(h, l) == RefundLock(h, id);
    }
  }
}

module SwapRepository {
  import opened Types
  import opened SwapTables

  class Repository {
    var swaps: map<Hash, SwapRow>
    var attempts: map<Label, Attempt>
    var locks: set<Lock>

    function State(): Tables
      reads this
    {
      Tables(swaps, attempts, locks)
    }

    constructor ()
      ensures State() == Tables(map[], map[], {})
    {
      swaps, attempts, locks := map[], map[], {};
    }

    method AddSwap(h: Hash, row: SwapRow) returns (added: bool)
      modifies this
      ensures added <==> h !in old(swaps)
      ensures State() == if added then old(State()).(swaps := old(swaps)[h := row]) else old(State())
      ensures TablesInv(old(State())) ==> TablesInv(State())
    {
      added := h !in swaps;
      if added { swaps := swaps[h := row]; }
    }

    /**
     Succeeds for a known swap without any lock. The swap then has this lock and
     no other, and the attempt is the one more without a result.
     */
    method LockAddPaymentAttempt(tag: Label, a: Attempt) returns (r: Result<(), LockError>)
      modifies this
      ensures r.Ok? <==> a.hash in old(swaps) && forall l :: l in old(locks) ==> l.hash != a.hash
      ensures r.Ok? ==> forall l :: l in locks && l.hash == a.hash <==> l == PaymentLock(a.hash, tag)
      ensures r.Ok? ==> Unhandled(State()) == Unhandled(old(State())) + {tag}
      ensures forall l: Lock :: l.hash != a.hash ==> (l in locks <==> l in old(locks))
      ensures TablesInv(old(State())) && tag !in old(attempts) ==> TablesInv(State())
      ensures match SwapTables.LockAddPaymentAttempt(old(State()), tag, a)
              case Ok(t) => r == Ok(()) && State() == t
              case Err(e) => r == Err(e) && State() == old(State())
    {
      if a.hash !in swaps { return Err(SwapNotFound); }
      if exists l :: l in locks && l.hash == a.hash { return Err(AlreadyLocked); }
      locks := locks + {PaymentLock(a.hash, tag)};
      attempts := attempts[tag := a.(success := None)];
      r := Ok(());
    }

    /**
     Succeeds for a known swap without a payment lock. The swap then cannot be
     locked for payment, and none of its attempts is without a result.
     */
    method LockSwapRefund(h: Hash, id: RefundId) returns (r: Result<(), LockError>)
      modifies this
      ensures r.Ok? <==> h in old(swaps) && forall l :: l in old(locks) && l.hash == h ==> l.RefundLock?
      ensures r.Ok? ==> forall tag, a: Attempt :: a.hash == h ==> SwapTables.LockAddPaymentAttempt(State(), tag, a).Err?
      ensures r.Ok? && TablesInv(old(State())) ==> forall l :: l in Unhandled(State()) ==> attempts[l].hash != h
      ensures forall l: Lock :: l.hash != h ==> (l in locks <==> l in old(locks))
      ensures TablesInv(old(State())) ==> TablesInv(State())
      ensures match SwapTables.LockSwapRefund(old(State()), h, id)
              case Ok(t) => r == Ok(()) && State() == t
              case Err(e) => r == Err(e) && State() == old(State())
    {
      if h !in swaps { return Err(SwapNotFound); }
      if exists l :: l in locks && l.hash == h && l.PaymentLock? { return Err(AlreadyLocked); }
      locks := locks + {RefundLock(h, id)};
      r := Ok(());
      if TablesInv(old(State())) {
        LockRefundKeepsInv(old(State()), h, id);
        RefundLockSettlesAttempts(State(), h, id);
      }
    }

    /** The attempt has a result afterwards, its lock is gone, and a success has left the preimage. */
    method UnlockAddPaymentResult(h: Hash, tag: Label, result: PaymentResult) returns (r: Result<(), LockError>)
      modifies this
      ensures r.Ok? <==> h in old(swaps)
      ensures r.Ok? ==> tag !in Unhandled(State()) && PaymentLock(h, tag) !in locks
      ensures r.Ok? && result.Success? ==> h in swaps && swaps[h].preimage == Some(result.preimage)
      ensures TablesInv(old(State())) && (tag in old(attempts) ==> old(attempts)[tag].hash == h) ==> TablesInv(State())
      ensures match SwapTables.UnlockAddPaymentResult(old(State()), h, tag, result)
              case Ok(t) => r == Ok(()) && State() == t
              case Err(e) => r == Err(e) && State() == old(State())
    {
      if h !in swaps { return Err(SwapNotFound); }
      locks := locks - {PaymentLock(h, tag)};
      match result {
        case Success(preimage) =>
          swaps := swaps[h := swaps[h].(preimage := Some(preimage))];
          if tag in attempts { attempts := attempts[tag := attempts[tag].(success := Some(true))]; }
        case Failure =>
          if tag in attempts { attempts := attempts[tag := attempts[tag].(success := Some(false))]; }
      }
      r := Ok(());
    }

    /** Gives back one refund lock; the swap can be locked for payment again exactly when it was the last. */
    method UnlockSwapRefund(h: Hash, id: RefundId) returns (r: Result<(), LockError>)
      modifies this
      ensures r.Ok? <==> h in old(swaps)
      ensures r.Ok? ==> (HasLock(State(), h) <==> exists l :: l in old(locks) && l.hash == h && l != RefundLock(h, id))
      ensures forall l: Lock :: l.hash != h ==> (l in locks <==> l in old(locks))
      ensures TablesInv(old(State())) ==> TablesInv(State())
      ensures match SwapTables.UnlockSwapRefund(old(State()), h, id)
              case Ok(t) => r == Ok(()) && State() == t
              case Err(e) => r == Err(e) && State() == old(State())
    {
      if h !in swaps { return Err(SwapNotFound); }
      locks := locks - {RefundLock(h, id)};
      r := Ok(());
    }

    /** The attempts without a result, each once, in no particular order. */
    method GetUnhandledPaymentAttempts() returns (unhandled: seq<Label>)
      ensures forall l :: l in unhandled <==> l in Unhandled(State())
      ensures forall i, j :: 0 <= i < j < |unhandled| ==> unhandled[i] != unhandled[j]
    {
      unhandled := [];
      var remaining := Unhandled(State());
      while remaining != {}
        invariant remaining <= Unhandled(State())
        invariant forall l :: l in unhandled <==> l in Unhandled(State()) - remaining
        invariant forall i, j :: 0 <= i < j < |unhandled| ==> unhandled[i] != unhandled[j]
        decreases remaining
      {
        var l :| l in remaining;
        assert l !in unhandled;
        unhandled := unhandled + [l];
        remaining := remaining - {l};
      }
    }
  }
}
