/**
 Whose payment a recorded success is. `pay` looks payments up by hash when its
 own call ends badly, so a success on record need not be the attempt's own.
 */
module Attribution {
  import opened Types
  import opened PaySwap
  import opened SwapTables
  import opened Protocol

  predicate Succeeded(s: State, l: Label) { l in s.tables.attempts && s.tables.attempts[l].success == Some(true) }

  predicate CompletedItself(s: State, l: Label) { l in s.node && s.node[l].status.Complete? }

  // ------------------------------------------------------------- invariant

  /** Successes nobody has to doubt are the attempt's own. */
  ghost predicate OwnSuccesses(s: State) {
    forall l :: Succeeded(s, l) && l !in s.late && l !in s.revised ==> CompletedItself(s, l)
  }

  /** A success leaves its swap with a preimage. */
  ghost predicate SuccessLeavesPreimage(s: State) {
    forall l :: Succeeded(s, l) ==>
      s.tables.attempts[l].hash in s.tables.swaps && s.tables.swaps[s.tables.attempts[l].hash].preimage.Some?
  }

  /** `l` was locked in time and has no result yet; `k` is another attempt of its swap. */
  predicate Rivals(s: State, l: Label, k: Label) {
    && l in s.tables.attempts && s.tables.attempts[l].success.None? && l !in s.late
    && k in s.tables.attempts && k != l && s.tables.attempts[k].hash == s.tables.attempts[l].hash
  }

  /** While an attempt that was locked in time is undecided, all others of its swap are dead. */
  ghost predicate OthersDead(s: State) {
    forall l, k :: Rivals(s, l, k) ==> Dead(s.tables.attempts, s.open, s.node, k)
  }

  ghost predicate OwnInv(s: State) { OwnSuccesses(s) && SuccessLeavesPreimage(s) && OthersDead(s) }

  lemma {:induction false} DeadStays(s: State, s': State, l: Label)
    requires Grows(s, s') && Dead(s.tables.attempts, s.open, s.node, l)
    ensures Dead(s'.tables.attempts, s'.open, s'.node, l)
  {
  }

  /** Steps that leave attempts and preimages alone. */
  lemma {:induction false} OwnStays(s: State, s': State)
    requires OwnInv(s) && Grows(s, s')
    requires s'.tables.attempts == s.tables.attempts && s'.late == s.late && s'.revised == s.revised
    requires forall h :: h in s.tables.swaps ==> h in s'.tables.swaps && s'.tables.swaps[h] == s.tables.swaps[h]
    ensures OwnInv(s')
  {
    forall l, k | Rivals(s', l, k) ensures Dead(s'.tables.attempts, s'.open, s'.node, k) {
      assert Rivals(s, l, k);
      DeadStays(s, s', k);
    }
  }

  lemma {:induction false} LockKeepsOwn(s: State, s': State, tag: Label, plan: PayPlan)
    requires OwnInv(s) && TablesInv(s.tables) && ResultsSound(s.tables.attempts, s.open, s.node) && Grows(s, s')
    requires tag !in s.tables.attempts && LockAddPaymentAttempt(s.tables, tag, NewAttempt(plan)).Ok?
    requires s'.tables == LockAddPaymentAttempt(s.tables, tag, NewAttempt(plan)).value
    requires s'.late == s.late + Late(s.tables, plan.hash, tag) && s'.revised == s.revised
    ensures OwnInv(s')
  {
    forall l, k | Rivals(s', l, k) ensures Dead(s'.tables.attempts, s'.open, s'.node, k) {
      if k == tag {
        assert PaymentLock(s.tables.attempts[l].hash, l) in s.tables.locks;
        assert HasLock(s.tables, plan.hash);
      } else {
        if l == tag { SettledBefore(s, plan.hash, k); } else { assert Rivals(s, l, k); }
        DeadStays(s, s', k);
      }
    }
  }

  /** Before a lock in time, every attempt of the swap has failed for good. */
  lemma {:induction false} SettledBefore(s: State, h: Hash, k: Label)
    requires SuccessLeavesPreimage(s) && TablesInv(s.tables) && ResultsSound(s.tables.attempts, s.open, s.node)
    requires !HasLock(s.tables, h) && h in s.tables.swaps && s.tables.swaps[h].preimage.None?
    requires k in s.tables.attempts && s.tables.attempts[k].hash == h
    ensures Dead(s.tables.attempts, s.open, s.node, k)
  {
    assert PaymentLock(h, k) !in s.tables.locks;
    assert !Succeeded(s, k);
  }

  /** The payment behind a first success is the attempt's own. */
  lemma {:induction false} PayerIsItself(s: State, h: Hash, tag: Label, p: Preimage)
    requires OthersDead(s) && NodeInv(s.tables.attempts, s.node, s.open, s.requests) && PaidWith(s.node, h, p)
    requires tag in s.tables.attempts && s.tables.attempts[tag].hash == h
    requires s.tables.attempts[tag].success.None? && tag !in s.late
    ensures CompletedItself(s, tag)
  {
    var l :| l in s.node && s.node[l].hash == h && s.node[l].status == Complete(p);
    assert l != tag ==> Rivals(s, tag, l);
  }

  lemma {:induction false} RecordKeepsOwn(s: State, s': State, h: Hash, tag: Label, result: PaymentResult)
    requires OwnInv(s) && NodeInv(s.tables.attempts, s.node, s.open, s.requests) && h in s.tables.swaps
    requires OutcomeSound(s.tables.attempts, s.open, s.node, h, tag, result) && NO_LABEL !in s.tables.attempts
    requires s'.tables == Recorded(s.tables, h, tag, result) && s'.node == s.node && s'.open == s.open
    requires s'.late == s.late && s'.revised == s.revised + Revised(s.tables, tag, result)
    ensures OwnInv(s')
  {
    if result.Success? && tag in s.tables.attempts && s.tables.attempts[tag].success.None? && tag !in s.late {
      PayerIsItself(s, h, tag, result.preimage);
    }
    RecordKeepsOwnSuccesses(s, s', h, tag, result);
  }

  lemma {:induction false} RecordKeepsOwnSuccesses(s: State, s': State, h: Hash, tag: Label, result: PaymentResult)
    requires OwnInv(s) && h in s.tables.swaps
    requires OutcomeSound(s.tables.attempts, s.open, s.node, h, tag, result) && NO_LABEL !in s.tables.attempts
    requires s'.tables == Recorded(s.tables, h, tag, result) && s'.node == s.node && s'.open == s.open
    requires s'.late == s.late && s'.revised == s.revised + Revised(s.tables, tag, result)
    requires result.Success? && tag in s.tables.attempts && s.tables.attempts[tag].success.None? && tag !in s.late ==>
        CompletedItself(s, tag)
    ensures OwnInv(s')
  {
    forall l | Succeeded(s', l) && l !in s'.late && l !in s'.revised ensures CompletedItself(s', l) {
      assert Succeeded(s, l) ==> CompletedItself(s, l);
      var before := s.tables.attempts[l].success;
      assert before.Some? ==> before == if before.value then Some(true) else Some(false);
    }
    forall l, k | Rivals(s', l, k) ensures Dead(s'.tables.attempts, s'.open, s'.node, k) {
      assert Rivals(s, l, k);
    }
  }

  // ------------------------------------------------------------------ runs

  lemma {:induction false} LockPayStepKeepsOwn(cfg: Config, s: State, id: HandlerId)
    requires Inv(cfg, s) && OwnInv(s) && Enabled(cfg, s, LockPay(id))
    ensures OwnInv(Apply(cfg, s, LockPay(id)))
  {
    hide OwnInv, MonitorsInv, PreimagesSound, PlansSound, ReleasedInv;
    var s' := Apply(cfg, s, LockPay(id));
    var h := s.handlers[id];
    assert HandlerInv(cfg, s, h);
    LockPayGrows(s, s', h.tag, NewAttempt(h.plan));
    LockKeepsOwn(s, s', h.tag, h.plan);
  }

  lemma {:induction false} OutcomeKeepsOwn(cfg: Config, s: State, s': State, h: Hash, tag: Label, result: PaymentResult)
    requires Inv(cfg, s) && OwnInv(s) && OutcomeSound(s.tables.attempts, s.open, s.node, h, tag, result)
    requires s'.tables == Recorded(s.tables, h, tag, result) && s'.node == s.node && s'.open == s.open
    requires s'.late == s.late && s'.revised == s.revised + Revised(s.tables, tag, result)
    ensures OwnInv(s')
  {
    hide OwnInv, HandlersInv, MonitorsInv, OutcomeSound;
    if h in s.tables.swaps {
      RecordKeepsOwn(s, s', h, tag, result);
    } else {
      UnknownSwapKeepsOwn(s, s', tag, result);
    }
  }

  lemma {:induction false} UnknownSwapKeepsOwn(s: State, s': State, tag: Label, result: PaymentResult)
    requires OwnInv(s) && s'.tables == s.tables && s'.node == s.node && s'.open == s.open
    requires s'.late == s.late && s'.revised == s.revised + Revised(s.tables, tag, result)
    ensures OwnInv(s')
  {
    forall l, k | Rivals(s', l, k) ensures Dead(s'.tables.attempts, s'.open, s'.node, k) {
      assert Rivals(s, l, k);
    }
  }

  lemma {:induction false} RecordPayStepKeepsOwn(cfg: Config, s: State, id: HandlerId)
    requires Inv(cfg, s) && OwnInv(s) && Enabled(cfg, s, RecordPay(id))
    ensures OwnInv(Apply(cfg, s, RecordPay(id)))
  {
    hide OwnInv, DataInv, MonitorsInv, OutcomeSound;
    var h := s.handlers[id];
    assert HandlerInv(cfg, s, h);
    OutcomeKeepsOwn(cfg, s, Apply(cfg, s, RecordPay(id)), h.plan.hash, h.tag, h.result);
  }

  lemma {:induction false} ApplyVerdictStepKeepsOwn(cfg: Config, s: State, v: Verdict)
    requires Inv(cfg, s) && OwnInv(s) && Enabled(cfg, s, ApplyVerdict(v))
    ensures OwnInv(Apply(cfg, s, ApplyVerdict(v)))
  {
    hide OwnInv, DataInv, HandlersInv, OutcomeSound;
    OutcomeKeepsOwn(cfg, s, Apply(cfg, s, ApplyVerdict(v)), v.hash, v.tag, v.result);
  }

  predicate WritesTables(a: Action) { a.LockPay? || a.RecordPay? || a.ApplyVerdict? }

  lemma {:induction false} OtherStepSparesTables(cfg: Config, s: State, a: Action, s': State)
    requires Step(cfg, s, a, s') && !WritesTables(a)
    ensures s'.tables.attempts == s.tables.attempts && s'.late == s.late && s'.revised == s.revised
    ensures forall h :: h in s.tables.swaps ==> h in s'.tables.swaps && s'.tables.swaps[h] == s.tables.swaps[h]
  {
    hide HasLock, HasPaymentLock, PayChecks, FilterAnswers, PaidWith, NodeSays, FreshLabel, FreshRefundId, Recorded,
        NoneComplete, NonePending;
  }

  lemma {:induction false} NodeStepGrows(cfg: Config, s: State, a: Action, s': State)
    requires s.requests <= s.open && s.open !! s.node.Keys && Step(cfg, s, a, s') && IsNodeStep(a)
    ensures Grows(s, s')
  {
    match a
    case NodeAccepts(tag) => NodeChangeGrows(s, s', tag);
    case NodeRejects(tag) => NodeChangeGrows(s, s', tag);
    case NodeFails(tag) => NodeChangeGrows(s, s', tag);
    case NodeCompletes(tag, _) => NodeChangeGrows(s, s', tag);
  }

  /** The node changes what it knows of one label, which was on its way or pending. */
  lemma {:induction false} NodeChangeGrows(s: State, s': State, tag: Label)
    requires s.open !! s.node.Keys && s'.tables == s.tables && s'.open <= s.open
    requires (s'.node == s.node)
          || (tag in s'.node && s'.node == s.node[tag := s'.node[tag]]
              && if tag in s.node then s.node[tag].status.Pending? && s'.node[tag].hash == s.node[tag].hash
                 else tag in s.open)
    ensures Grows(s, s')
  {
  }

  lemma {:induction false} OtherStepKeepsOpen(cfg: Config, s: State, a: Action, s': State)
    requires Step(cfg, s, a, s') && !WritesTables(a) && !IsNodeStep(a)
    ensures s'.open <= s.open
  {
    hide Enabled;
  }

  lemma {:induction false} OtherStepGrows(cfg: Config, s: State, a: Action, s': State)
    requires s.requests <= s.open && s.open !! s.node.Keys && Step(cfg, s, a, s') && !WritesTables(a)
    ensures Grows(s, s') && s'.tables.attempts == s.tables.attempts && s'.late == s.late && s'.revised == s.revised
    ensures forall h :: h in s.tables.swaps ==> h in s'.tables.swaps && s'.tables.swaps[h] == s.tables.swaps[h]
  {
    hide Step;
    OtherStepSparesTables(cfg, s, a, s');
    if IsNodeStep(a) {
      NodeStepGrows(cfg, s, a, s');
    } else {
      OthersKeepNode(cfg, s, a, s');
      OtherStepKeepsOpen(cfg, s, a, s');
    }
  }

  lemma {:induction false} NodeOfInv(cfg: Config, s: State)
    requires Inv(cfg, s)
    ensures s.requests <= s.open && s.open !! s.node.Keys
  {
    hide HandlersInv, MonitorsInv, TablesInv, PlansSound;
  }

  lemma {:induction false} StepKeepsOwn(cfg: Config, s: State, a: Action, s': State)
    requires Inv(cfg, s) && OwnInv(s) && Step(cfg, s, a, s')
    ensures OwnInv(s')
  {
    hide OwnInv, Inv, Enabled, Apply;
    NodeOfInv(cfg, s);
    match a
    case LockPay(id) => LockPayStepKeepsOwn(cfg, s, id);
    case RecordPay(id) => RecordPayStepKeepsOwn(cfg, s, id);
    case ApplyVerdict(v) => ApplyVerdictStepKeepsOwn(cfg, s, v);
    case _ =>
      OtherStepGrows(cfg, s, a, s');
      OwnStays(s, s');
  }

  lemma {:induction false} RunKeepsOwn(cfg: Config, states: seq<State>, actions: seq<Action>, i: nat)
    requires IsRun(cfg, states, actions) && i < |states|
    ensures OwnInv(states[i])
  {
    hide Inv, Enabled, OwnInv;
    if i == 0 {
      InitHasOwn(states[0]);
    } else {
      RunKeepsOwn(cfg, states, actions, i - 1);
      RunKeepsInv(cfg, states, actions, i - 1);
      assert Step(cfg, states[i - 1], actions[i - 1], states[i - 1 + 1]);
      StepKeepsOwn(cfg, states[i - 1], actions[i - 1], states[i]);
    }
  }

  lemma {:induction false} InitHasOwn(s: State)
    requires Init(s)
    ensures OwnInv(s)
  {
  }

  /**
   In every run a recorded success is the attempt's own payment, unless the
   attempt was locked when its swap already had a preimage or the success was
   written over a failure.
   */
  lemma {:induction false} SuccessIsOwn(cfg: Config, states: seq<State>, actions: seq<Action>, i: nat, l: Label)
    requires IsRun(cfg, states, actions) && i < |states|
    requires Succeeded(states[i], l) && l !in states[i].late && l !in states[i].revised
    ensures CompletedItself(states[i], l)
  {
    hide IsRun;
    RunKeepsOwn(cfg, states, actions, i);
  }

  // ------------------------------------------- where successes are not own

  datatype PassedRequest = PassedRequest(req: PayRequest, obs: Observed, plan: PayPlan)

  ghost predicate Passes(cfg: Config, row: SwapRow, r: PassedRequest) {
    && row.preimage.None? && FilterAnswers(cfg, r.obs)
    && PayChecks(cfg, r.req, row.lockTime, None, r.obs) == Ok(r.plan) && r.plan.hash == r.req.hash
  }

  /** A swap whose first payment, under label `a`, is complete and recorded while a second request waits to lock. */
  function FirstPaid(plan: PayPlan, other: PayPlan, row: SwapRow, a: Label, b: Label, p: Preimage): State {
    INITIAL.(tables := Tables(map[plan.hash := row.(preimage := Some(p))],
        map[a := NewAttempt(plan).(success := Some(true))], {}),
             handlers := map[1 := PayChecked(other, b)],
             node := map[a := NodePayment(plan.hash, Complete(p), plan.cltvLimit)],
             plans := map[a := plan])
  }

  /** Two requests have passed the checks, the first one holds the lock and its `pay` call is on its way. */
  function FirstSent(plan: PayPlan, other: PayPlan, row: SwapRow, a: Label, b: Label): State {
    INITIAL.(tables := Tables(map[plan.hash := row], map[a := NewAttempt(plan)], {PaymentLock(plan.hash, a)}),
             handlers := map[0 := PayWaiting(plan, a), 1 := PayChecked(other, b)],
             requests := {a}, open := {a}, plans := map[a := plan])
  }

  lemma {:induction false} FirstSentIsReachable(cfg: Config, row: SwapRow, first: PassedRequest, second: PassedRequest,
      a: Label, b: Label)
    requires Passes(cfg, row, first) && Passes(cfg, row, second) && first.plan.hash == second.plan.hash
    requires a != NO_LABEL && b != NO_LABEL && a != b
    ensures Reachable(cfg, FirstSent(first.plan, second.plan, row, a, b))
  {
    hide Reachable, FilterAnswers, PayChecks;
    var (plan, other) := (first.plan, second.plan);
    var s0 := INITIAL.(tables := Tables(map[plan.hash := row], map[], {}));
    SwapIsReachable(cfg, plan.hash, row);
    CanStartPay(cfg, s0, 0, a, first.req, first.obs, plan);
    var s1 := Moved(s0, 0, PayChecked(plan, a));
    CanStartPay(cfg, s1, 1, b, second.req, second.obs, other);
    var s2 := Moved(s1, 1, PayChecked(other, b));
    CanLockPay(cfg, s2, 0, plan, a);
    var s3 := Moved(s2, 0, PayLocked(plan, a)).(
                tables := Tables(s2.tables.swaps, s2.tables.attempts[a := NewAttempt(plan)],
                    s2.tables.locks + {PaymentLock(plan.hash, a)}),
                plans := s2.plans[a := plan], open := s2.open + {a}, late := s2.late + Late(s2.tables, plan.hash, a));
    CanSendPay(cfg, s3, 0, plan, a);
    assert FirstSent(plan, other, row, a, b) == Moved(s3, 0, PayWaiting(plan, a)).(requests := s3.requests + {a});
  }

  lemma {:induction false} FirstPaidIsReachable(cfg: Config, row: SwapRow, first: PassedRequest, second: PassedRequest,
      a: Label, b: Label, p: Preimage)
    requires Passes(cfg, row, first) && Passes(cfg, row, second) && first.plan.hash == second.plan.hash
    requires a != NO_LABEL && b != NO_LABEL && a != b
    ensures Reachable(cfg, FirstPaid(first.plan, second.plan, row, a, b, p))
  {
    hide Reachable, Passes;
    var (plan, other) := (first.plan, second.plan);
    FirstSentIsReachable(cfg, row, first, second, a, b);
    var s4 := FirstSent(plan, other, row, a, b);
    CanBePaid(cfg, s4, a, p);
    var s5 := s4.(requests := s4.requests - {a}, open := s4.open - {a},
                  node := s4.node[a := NodePayment(plan.hash, Complete(p), plan.cltvLimit)]);
    assert s5.node[a].hash == plan.hash && s5.node[a].status == Complete(p);
    CanRecordPay(cfg, s5, 0, plan, a, Success(p));
    assert FirstPaid(plan, other, row, a, b, p)
        == Gone(s5, 0).(tables := Recorded(s5.tables, plan.hash, a, Success(p)),
                        revised := s5.revised + Revised(s5.tables, a, Success(p)));
  }

  /** The second request locks although the swap has its preimage by now. */
  function SecondLocked(plan: PayPlan, other: PayPlan, row: SwapRow, a: Label, b: Label, p: Preimage): State {
    var s := FirstPaid(plan, other, row, a, b, p);
    s.(tables := Tables(s.tables.swaps, s.tables.attempts[b := NewAttempt(other)], {PaymentLock(plan.hash, b)}),
       handlers := map[1 := PayLocked(other, b)], plans := s.plans[b := other], open := {b}, late := {b})
  }

  lemma {:induction false} SecondLockedIsReachable(cfg: Config, row: SwapRow, first: PassedRequest,
      second: PassedRequest, a: Label,
      b: Label, p: Preimage)
    requires Passes(cfg, row, first) && Passes(cfg, row, second) && first.plan.hash == second.plan.hash
    requires a != NO_LABEL && b != NO_LABEL && a != b
    ensures Reachable(cfg, SecondLocked(first.plan, second.plan, row, a, b, p))
  {
    hide Reachable, FilterAnswers, PayChecks;
    var (plan, other) := (first.plan, second.plan);
    FirstPaidIsReachable(cfg, row, first, second, a, b, p);
    var s := FirstPaid(plan, other, row, a, b, p);
    CanLockPay(cfg, s, 1, other, b);
    assert SecondLocked(plan, other, row, a, b, p) == Moved(s, 1, PayLocked(other, b)).(
                tables := Tables(s.tables.swaps, s.tables.attempts[b := NewAttempt(other)],
                    s.tables.locks + {PaymentLock(plan.hash, b)}),
                plans := s.plans[b := other], open := s.open + {b}, late := s.late + Late(s.tables, plan.hash, b));
  }

  ghost predicate NotOwn(cfg: Config, s: State, l: Label, late: bool, revised: bool) {
    Reachable(cfg, s) && Succeeded(s, l) && (l in s.late) == late && (l in s.revised) == revised
        && !CompletedItself(s, l)
  }

  /** Locked late, refused by the node, and yet recorded as a success: the lookup by hash finds the first payment. */
  lemma {:induction false} LateNotOwn(cfg: Config, row: SwapRow, first: PassedRequest, second: PassedRequest, a: Label,
      b: Label,
      p: Preimage)
    returns (s: State)
    requires Passes(cfg, row, first) && Passes(cfg, row, second) && first.plan.hash == second.plan.hash
    requires a != NO_LABEL && b != NO_LABEL && a != b
    ensures NotOwn(cfg, s, b, true, false) && s.node.Keys == {a}
    ensures s.tables.swaps == map[first.plan.hash := row.(preimage := Some(p))]
    ensures s.tables.attempts == map[a := NewAttempt(first.plan).(success := Some(true)),
        b := NewAttempt(second.plan).(success := Some(true))]
  {
    hide Reachable, FilterAnswers, PayChecks;
    var (plan, other) := (first.plan, second.plan);
    SecondLockedIsReachable(cfg, row, first, second, a, b, p);
    var s1 := SecondLocked(plan, other, row, a, b, p);
    CanSendPay(cfg, s1, 1, other, b);
    var s2 := Moved(s1, 1, PayWaiting(other, b)).(requests := s1.requests + {b});
    CanBeRefused(cfg, s2, b);
    var s3 := s2.(requests := s2.requests - {b}, open := s2.open - {b});
    assert s3.node[a].hash == plan.hash && s3.node[a].status == Complete(p);
    CanRecordPay(cfg, s3, 1, other, b, Success(p));
    s := Gone(s3, 1).(tables := Recorded(s3.tables, plan.hash, b, Success(p)),
        revised := s3.revised + Revised(s3.tables, b, Success(p)));
  }

  /** Another swap's payment joins in and is pending at the node. */
  function WithBystander(s: State, row: SwapRow, plan: PayPlan, m: Label): State {
    s.(tables := Tables(s.tables.swaps[plan.hash := row], s.tables.attempts[m := NewAttempt(plan)],
                        s.tables.locks + {PaymentLock(plan.hash, m)}),
       handlers := s.handlers[2 := PayWaiting(plan, m)],
       node := s.node[m := NodePayment(plan.hash, Pending, plan.cltvLimit)],
       plans := s.plans[m := plan])
  }

  ghost predicate MayJoin(s: State, row: SwapRow, plan: PayPlan, m: Label) {
    && plan.hash !in s.tables.swaps && !HasLock(s.tables, plan.hash) && 2 !in s.handlers
    && (forall k :: k in s.tables.swaps ==> s.tables.swaps[k].address != row.address)
    && FreshLabel(s, m) && m !in s.open && m !in s.requests && m !in s.late
  }

  /** The other swap's request holds its lock. */
  function BystanderLocked(s: State, row: SwapRow, plan: PayPlan, m: Label): State {
    s.(tables := Tables(s.tables.swaps[plan.hash := row], s.tables.attempts[m := NewAttempt(plan)],
                        s.tables.locks + {PaymentLock(plan.hash, m)}),
       handlers := s.handlers[2 := PayLocked(plan, m)], open := s.open + {m}, plans := s.plans[m := plan])
  }

  lemma {:induction false} BystanderLocks(cfg: Config, s: State, row: SwapRow, r: PassedRequest, m: Label)
    requires Reachable(cfg, s) && Passes(cfg, row, r) && MayJoin(s, row, r.plan, m)
    ensures Reachable(cfg, BystanderLocked(s, row, r.plan, m))
  {
    hide Reachable, FilterAnswers, PayChecks;
    var plan := r.plan;
    CanAddSwap(cfg, s, plan.hash, row);
    var s1 := s.(tables := s.tables.(swaps := s.tables.swaps[plan.hash := row]));
    CanStartPay(cfg, s1, 2, m, r.req, r.obs, plan);
    var s2 := Moved(s1, 2, PayChecked(plan, m));
    assert !HasLock(s2.tables, plan.hash) && Late(s2.tables, plan.hash, m) == {};
    CanLockPay(cfg, s2, 2, plan, m);
    hide HasLock, FreshLabel;
    assert s2.late + {} == s.late;
    assert BystanderLocked(s, row, plan, m) == Moved(s2, 2, PayLocked(plan, m)).(
             tables := Tables(s2.tables.swaps, s2.tables.attempts[m := NewAttempt(plan)],
                 s2.tables.locks + {PaymentLock(plan.hash, m)}),
             plans := s2.plans[m := plan], open := s2.open + {m}, late := s2.late + {});
  }

  lemma {:induction false} BystanderJoins(cfg: Config, s: State, row: SwapRow, r: PassedRequest, m: Label)
    requires Reachable(cfg, s) && Passes(cfg, row, r) && MayJoin(s, row, r.plan, m)
    ensures Reachable(cfg, WithBystander(s, row, r.plan, m))
  {
    hide Reachable, Passes, HasLock, FreshLabel;
    var plan := r.plan;
    BystanderLocks(cfg, s, row, r, m);
    var s3 := BystanderLocked(s, row, plan, m);
    CanSendPay(cfg, s3, 2, plan, m);
    var s4 := Moved(s3, 2, PayWaiting(plan, m)).(requests := s3.requests + {m});
    CanBeAccepted(cfg, s4, m);
    assert s4.requests - {m} == s.requests && s4.open - {m} == s.open;
    assert WithBystander(s, row, plan, m)
        == s4.(requests := s4.requests - {m}, open := s4.open - {m},
               node := s4.node[m := NodePayment(s4.plans[m].hash, Pending, s4.plans[m].cltvLimit)]);
  }

  /**
   After a restart with two payments pending: `initialize` keeps both; the first
   fails, the next round records that and then errs at the second, so that both
   stay listed.
   */
  function AfterRounds(s: State, l: Label, m: Label): State
    requires l in s.node && l in s.tables.attempts
  {
    s.(handlers := map[], requests := {}, open := {}, verdicts := {},
       node := s.node[l := s.node[l].(status := Failed)],
       tables := Recorded(s.tables, s.tables.attempts[l].hash, l, PaymentResult.Failure),
       monitor := Rounds({l, m}, {l, m}, {}, true))
  }

  ghost predicate TwoPending(s: State, l: Label, m: Label) {
    && l != m && Unhandled(s.tables) == {l, m}
    && (forall k ::
        k in {l, m} ==> k in s.node && s.node[k].status.Pending? && s.node[k].hash == s.tables.attempts[k].hash)
  }

  lemma {:induction false} RoundsAreReachable(cfg: Config, s: State, l: Label, m: Label)
    requires Reachable(cfg, s) && TwoPending(s, l, m)
    ensures Reachable(cfg, AfterRounds(s, l, m))
  {
    hide Reachable;
    assert l in Unhandled(s.tables) && m in Unhandled(s.tables);
    CanRestart(cfg, s);
    var s1 := s.(handlers := map[], requests := {}, open := {}, verdicts := {},
        monitor := Rounds({l, m}, {l, m}, {}, false));
    CanHearPending(cfg, s1, l);
    var s2 := s1.(monitor := Rounds({l, m}, {m}, {l}, false));
    assert s1.monitor.todo - {l} == {m} && s1.monitor.pending + {l} == {l};
    CanHearPending(cfg, s2, m);
    var s3 := s1.(monitor := Rounds({l, m}, {}, {l, m}, false));
    assert s2.monitor.todo - {m} == {} && s2.monitor.pending + {m} == {l, m};
    CanEndRound(cfg, s3);
    var s4 := s1.(monitor := Rounds({l, m}, {l, m}, {}, true));
    CanFail(cfg, s4, l);
    var s5 := s4.(node := s.node[l := s.node[l].(status := Failed)]);
    CanSettle(cfg, s5, l, PaymentResult.Failure);
    var s6 := s5.(monitor := Rounds({l, m}, {m}, {}, true),
                  tables := Recorded(s.tables, s.tables.attempts[l].hash, l, PaymentResult.Failure));
    assert s5.monitor.todo - {l} == {m} && s5.revised + Revised(s5.tables, l, PaymentResult.Failure) == s.revised;
    CanFailRound(cfg, s6);
  }

  /** The next round asks again, and hears of another payment of the hash. */
  lemma {:induction false} FailureRevised(cfg: Config, s: State, l: Label, p: Preimage) returns (s': State)
    requires Reachable(cfg, s) && l in s.monitor.todo && s.verdicts == {} && (l in s.node ==> s.node[l].status.Failed?)
    requires l in s.tables.attempts && s.tables.attempts[l].hash in s.tables.swaps
        && s.tables.attempts[l].success == Some(false)
    requires PaidWith(s.node, s.tables.attempts[l].hash, p)
    ensures NotOwn(cfg, s', l, l in s.late, true)
  {
    hide Reachable;
    CanSettle(cfg, s, l, Success(p));
    s' := s.(monitor := s.monitor.(todo := s.monitor.todo - {l}),
        tables := Recorded(s.tables, s.tables.attempts[l].hash, l, Success(p)),
        revised := s.revised + Revised(s.tables, l, Success(p)));
  }

  /** Another swap, whose requests pass too. */
  ghost predicate OtherSwap(cfg: Config, row: SwapRow, h: Hash, row2: SwapRow, r2: PassedRequest) {
    Passes(cfg, row2, r2) && r2.plan.hash != h && row2.address != row.address
  }

  /** The late second payment is pending at the node. */
  function SecondPending(plan: PayPlan, other: PayPlan, row: SwapRow, a: Label, b: Label, p: Preimage): State {
    var s := SecondLocked(plan, other, row, a, b, p);
    s.(handlers := map[1 := PayWaiting(other, b)], open := {},
       node := s.node[b := NodePayment(other.hash, Pending, other.cltvLimit)])
  }

  lemma {:induction false} SecondPendingIsReachable(cfg: Config, row: SwapRow, first: PassedRequest,
      second: PassedRequest, a: Label, b: Label, p: Preimage)
    requires Passes(cfg, row, first) && Passes(cfg, row, second) && first.plan.hash == second.plan.hash
    requires a != NO_LABEL && b != NO_LABEL && a != b
    ensures Reachable(cfg, SecondPending(first.plan, second.plan, row, a, b, p))
  {
    hide Reachable, FilterAnswers, PayChecks, Passes;
    var (plan, other) := (first.plan, second.plan);
    SecondLockedIsReachable(cfg, row, first, second, a, b, p);
    var s1 := SecondLocked(plan, other, row, a, b, p);
    CanSendPay(cfg, s1, 1, other, b);
    var s2 := Moved(s1, 1, PayWaiting(other, b)).(requests := s1.requests + {b});
    CanBeAccepted(cfg, s2, b);
    assert SecondPending(plan, other, row, a, b, p)
        == s2.(requests := s2.requests - {b}, open := s2.open - {b},
               node := s2.node[b := NodePayment(other.hash, Pending, other.cltvLimit)]);
  }

  /** With another swap's payment pending beside it, the late payment fails and is on record as failed. */
  lemma {:induction false} SecondFailedIsReachable(cfg: Config, row: SwapRow, first: PassedRequest,
      second: PassedRequest, row2: SwapRow, third: PassedRequest, a: Label, b: Label, m: Label, p: Preimage)
    returns (s: State)
    requires Passes(cfg, row, first) && Passes(cfg, row, second) && first.plan.hash == second.plan.hash
    requires OtherSwap(cfg, row, first.plan.hash, row2, third)
    requires NO_LABEL != a && a != b && b != NO_LABEL && m != NO_LABEL && m != a && m != b
    ensures Reachable(cfg, s)
    ensures s == AfterRounds(WithBystander(SecondPending(first.plan, second.plan, row, a, b, p), row2, third.plan, m),
        b, m)
  {
    hide Reachable, Passes, Recorded, MayJoin, TwoPending, WithBystander, SecondPending;
    SecondPendingIsReachable(cfg, row, first, second, a, b, p);
    var s1 := SecondPending(first.plan, second.plan, row, a, b, p);
    BesideSecondPending(first.plan, second.plan, row, row2, third.plan, a, b, m, p);
    BystanderJoins(cfg, s1, row2, third, m);
    RoundsAreReachable(cfg, WithBystander(s1, row2, third.plan, m), b, m);
    s := AfterRounds(WithBystander(s1, row2, third.plan, m), b, m);
  }

  lemma {:induction false} BesideSecondPending(plan: PayPlan, other: PayPlan, row: SwapRow, row2: SwapRow,
      plan2: PayPlan, a: Label, b: Label, m: Label, p: Preimage)
    requires plan.hash == other.hash && plan2.hash != plan.hash && row2.address != row.address
    requires a != b && m != NO_LABEL && m != a && m != b
    ensures MayJoin(SecondPending(plan, other, row, a, b, p), row2, plan2, m)
    ensures var s := WithBystander(SecondPending(plan, other, row, a, b, p), row2, plan2, m);
            b in s.node && b in s.tables.attempts && TwoPending(s, b, m)
  {
    assert Unhandled(WithBystander(SecondPending(plan, other, row, a, b, p), row2, plan2, m).tables) == {b, m};
  }

  /** The late payment fails, is recorded as failed, and is then found to be complete by its hash. */
  lemma {:induction false} LateAndRevisedNotOwn(cfg: Config, row: SwapRow, first: PassedRequest, second: PassedRequest,
      row2: SwapRow, third: PassedRequest, a: Label, b: Label, m: Label, p: Preimage)
    returns (s: State)
    requires Passes(cfg, row, first) && Passes(cfg, row, second) && first.plan.hash == second.plan.hash
    requires OtherSwap(cfg, row, first.plan.hash, row2, third)
    requires NO_LABEL != a && a != b && b != NO_LABEL && m != NO_LABEL && m != a && m != b
    ensures NotOwn(cfg, s, b, true, true)
  {
    hide Reachable, Passes, Recorded, NotOwn;
    var (plan, other) := (first.plan, second.plan);
    var s1 := SecondFailedIsReachable(cfg, row, first, second, row2, third, a, b, m, p);
    RecordedFailure(WithBystander(SecondPending(plan, other, row, a, b, p), row2, third.plan, m).tables, plan.hash, b);
    assert s1.node[a].hash == plan.hash && s1.node[a].status == Complete(p);
    s := FailureRevised(cfg, s1, b, p);
  }

  lemma {:induction false} RecordedFailure(t: Tables, h: Hash, l: Label)
    requires h in t.swaps && l in t.attempts && t.attempts[l].hash == h
    ensures var t' := Recorded(t, h, l, PaymentResult.Failure);
            && t'.swaps == t.swaps && l in t'.attempts
            && t'.attempts[l].hash == h && t'.attempts[l].success == Some(false)
  {
  }

  /** A first request is locked in time and its payment pending at the node. */
  function FirstPending(plan: PayPlan, row: SwapRow, a: Label): State {
    INITIAL.(tables := Tables(map[plan.hash := row], map[a := NewAttempt(plan)], {PaymentLock(plan.hash, a)}),
             handlers := map[0 := PayWaiting(plan, a)],
             node := map[a := NodePayment(plan.hash, Pending, plan.cltvLimit)], plans := map[a := plan])
  }

  lemma {:induction false} FirstPendingIsReachable(cfg: Config, row: SwapRow, first: PassedRequest, a: Label)
    requires Passes(cfg, row, first) && a != NO_LABEL
    ensures Reachable(cfg, FirstPending(first.plan, row, a))
  {
    hide Reachable, FilterAnswers, PayChecks;
    var plan := first.plan;
    var s0 := INITIAL.(tables := Tables(map[plan.hash := row], map[], {}));
    SwapIsReachable(cfg, plan.hash, row);
    CanStartPay(cfg, s0, 0, a, first.req, first.obs, plan);
    var s1 := Moved(s0, 0, PayChecked(plan, a));
    CanLockPay(cfg, s1, 0, plan, a);
    var s2 := Moved(s1, 0, PayLocked(plan, a)).(
                tables := Tables(s1.tables.swaps, s1.tables.attempts[a := NewAttempt(plan)],
                    s1.tables.locks + {PaymentLock(plan.hash, a)}),
                plans := s1.plans[a := plan], open := s1.open + {a}, late := s1.late + Late(s1.tables, plan.hash, a));
    CanSendPay(cfg, s2, 0, plan, a);
    var s3 := Moved(s2, 0, PayWaiting(plan, a)).(requests := s2.requests + {a});
    CanBeAccepted(cfg, s3, a);
    assert FirstPending(plan, row, a)
        == s3.(requests := s3.requests - {a}, open := s3.open - {a},
               node := s3.node[a := NodePayment(plan.hash, Pending, plan.cltvLimit)]);
  }

  /**
   A payment answered as successful whose result could not be stored: the request
   is over, the swap is paid, and the tables know neither the preimage nor a
   result of the attempt.
   */
  lemma {:induction false} SuccessUnstored(cfg: Config, row: SwapRow, first: PassedRequest, a: Label, p: Preimage)
    returns (s: State)
    requires Passes(cfg, row, first) && a != NO_LABEL
    ensures Reachable(cfg, s) && s.handlers == map[] && PaidWith(s.node, first.plan.hash, p)
    ensures s.tables.swaps == map[first.plan.hash := row] && row.preimage.None?
    ensures s.tables.attempts == map[a := NewAttempt(first.plan)]
  {
    hide Reachable, FilterAnswers, PayChecks;
    FirstPendingIsReachable(cfg, row, first, a);
    var s1 := FirstPending(first.plan, row, a);
    CanComplete(cfg, s1, a, p);
    var s2 := s1.(node := s1.node[a := s1.node[a].(status := Complete(p))]);
    assert s2.node[a].hash == first.plan.hash && s2.node[a].status == Complete(p);
    CanLoseAnswer(cfg, s2, 0, first.plan, a, Success(p));
    s := Gone(s2, 0);
  }

  /**
   What the preimage monitor does about it, in any state of any run: asking for a payment
   the node has completed and writing down the answer stores the preimage, marks the
   attempt and takes its lock away, and leaves the rest of the tables alone.
   */
  lemma {:induction false} MonitorMakesUp(cfg: Config, s: State, tag: Label, p: Preimage) returns (s': State)
    requires Reachable(cfg, s) && tag != NO_LABEL && tag in s.node && s.node[tag].status == Complete(p)
    requires tag in s.tables.attempts && s.node[tag].hash in s.tables.swaps
    ensures var (h, t, t') := (s.node[tag].hash, s.tables, s'.tables);
            && Reachable(cfg, s')
            && t'.swaps == t.swaps[h := t.swaps[h].(preimage := Some(p))]
            && t'.attempts == t.attempts[tag := t.attempts[tag].(success := Some(true))]
            && t'.locks == t.locks - {PaymentLock(h, tag)}
  {
    hide Reachable;
    var verdict := Verdict(s.node[tag].hash, tag, Success(p));
    var asked := s.(verdicts := s.verdicts + {verdict});
    ReachableThen(cfg, s, AskPreimage(verdict.hash, tag, p), asked);
    s' := Apply(cfg, asked, ApplyVerdict(verdict));
    ReachableThen(cfg, asked, ApplyVerdict(verdict), s');
  }

  /** The first payment has failed and is on record as failed, and the monitor is about to ask again. */
  function FirstFailed(plan: PayPlan, row: SwapRow, a: Label, row2: SwapRow, plan2: PayPlan, m: Label): State {
    AfterRounds(WithBystander(FirstPending(plan, row, a), row2, plan2, m), a, m)
  }

  lemma {:induction false} FirstFailedIsReachable(cfg: Config, row: SwapRow, first: PassedRequest, row2: SwapRow,
      third: PassedRequest, a: Label, m: Label)
    requires Passes(cfg, row, first) && OtherSwap(cfg, row, first.plan.hash, row2, third)
    requires a != NO_LABEL && m != NO_LABEL && m != a
    ensures Reachable(cfg, FirstFailed(first.plan, row, a, row2, third.plan, m))
  {
    hide Reachable, FilterAnswers, PayChecks;
    FirstPendingIsReachable(cfg, row, first, a);
    var s1 := FirstPending(first.plan, row, a);
    BystanderJoins(cfg, s1, row2, third, m);
    var s2 := WithBystander(s1, row2, third.plan, m);
    assert Unhandled(s2.tables) == {a, m};
    RoundsAreReachable(cfg, s2, a, m);
  }

  /**
   Locked in time, failed at the node and on record as failed, and yet a success in
   the end: the lookup by hash finds a later payment.
   */
  lemma {:induction false} RevisedNotOwn(cfg: Config, row: SwapRow, first: PassedRequest, second: PassedRequest,
      row2: SwapRow, third: PassedRequest, a: Label, b: Label, m: Label, p: Preimage)
    returns (s: State)
    requires Passes(cfg, row, first) && Passes(cfg, row, second) && first.plan.hash == second.plan.hash
    requires OtherSwap(cfg, row, first.plan.hash, row2, third)
    requires NO_LABEL != a && a != b && b != NO_LABEL && m != NO_LABEL && m != a && m != b
    ensures NotOwn(cfg, s, a, false, true)
  {
    hide Reachable, FilterAnswers, PayChecks;
    var (plan, other) := (first.plan, second.plan);
    FirstFailedIsReachable(cfg, row, first, row2, third, a, m);
    var s0 := FirstFailed(plan, row, a, row2, third.plan, m);
    CanStartPay(cfg, s0, 0, b, second.req, second.obs, other);
    var s1 := Moved(s0, 0, PayChecked(other, b));
    CanLockPay(cfg, s1, 0, other, b);
    var s2 := Moved(s1, 0, PayLocked(other, b)).(
                tables := Tables(s1.tables.swaps, s1.tables.attempts[b := NewAttempt(other)],
                    s1.tables.locks + {PaymentLock(plan.hash, b)}),
                plans := s1.plans[b := other], open := s1.open + {b}, late := s1.late + Late(s1.tables, plan.hash, b));
    CanSendPay(cfg, s2, 0, other, b);
    var s3 := Moved(s2, 0, PayWaiting(other, b)).(requests := s2.requests + {b});
    CanBePaid(cfg, s3, b, p);
    var s4 := s3.(requests := s3.requests - {b}, open := s3.open - {b},
                  node := s3.node[b := NodePayment(other.hash, Complete(p), other.cltvLimit)]);
    assert s4.node[b].hash == plan.hash && s4.node[b].status == Complete(p);
    s := FailureRevised(cfg, s4, a, p);
  }

  /** In every run, successes of this kind are the attempts' own. */
  ghost predicate AlwaysOwn(cfg: Config, late: bool, revised: bool) {
    forall s, l :: !NotOwn(cfg, s, l, late, revised)
  }

  /**
   When a recorded success is the attempt's own payment, exactly: in all runs if
   the attempt was locked before its swap had a preimage and its failure was not
   on record before. Either alone breaks it, for every request that passes, as
   long as some request for another swap passes.
   */
  lemma {:induction false} SuccessIsOwnExactly(cfg: Config, row: SwapRow, r: PassedRequest, row2: SwapRow,
      r2: PassedRequest, late: bool, revised: bool)
    requires Passes(cfg, row, r) && OtherSwap(cfg, row, r.plan.hash, row2, r2)
    ensures AlwaysOwn(cfg, late, revised) <==> !late && !revised
  {
    hide Reachable, Passes, OtherSwap;
    if late && revised {
      var s := LateAndRevisedNotOwn(cfg, row, r, r, row2, r2, 1, 2, 3, 0);
    } else if late {
      var s := LateNotOwn(cfg, row, r, r, 1, 2, 0);
    } else if revised {
      var s := RevisedNotOwn(cfg, row, r, r, row2, r2, 1, 2, 3, 0);
    } else {
      forall s, l ensures !NotOwn(cfg, s, l, false, false) {
        if Reachable(cfg, s) && Succeeded(s, l) && l !in s.late && l !in s.revised { ReachableSuccessIsOwn(cfg, s, l); }
      }
    }
  }

  lemma {:induction false} ReachableSuccessIsOwn(cfg: Config, s: State, l: Label)
    requires Reachable(cfg, s) && Succeeded(s, l) && l !in s.late && l !in s.revised
    ensures CompletedItself(s, l)
  {
    hide IsRun;
    var states, actions :| EndsRun(cfg, states, actions, s);
    assert IsRun(cfg, states, actions);
    RunLength(cfg, states, actions);
    SuccessIsOwn(cfg, states, actions, |states| - 1, l);
  }

  lemma {:induction false} RunLength(cfg: Config, states: seq<State>, actions: seq<Action>)
    requires IsRun(cfg, states, actions)
    ensures |states| == |actions| + 1
  {
  }
}
