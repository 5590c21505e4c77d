/**
 The handlers of the public server as they are written: checks, then one
 repository or node call after the other. At every await other requests, the
 monitors and the node may take any steps of the protocol.
 */
module PublicServer {
  import opened Types
  import opened PaySwap
  import opened SwapTables
  import SwapRepository
  import opened Protocol

  /** The handler whose step this is, if it is one. */
  function ActorOf(a: Action): Option<HandlerId> {
    match a
    case StartPay(id, _, _, _) => Some(id)
    case LockPay(id) => Some(id)
    case SendPay(id) => Some(id)
    case PayReturns(id, _) => Some(id)
    case RecordPay(id) => Some(id)
    case StartRefund(id, _, _) => Some(id)
    case LockRefund(id) => Some(id)
    case SeeNoneComplete(id) => Some(id)
    case SeeNonePending(id) => Some(id)
    case DenyRefund(id) => Some(id)
    case UnlockRefund(id) => Some(id)
    case ReleaseRefund(id) => Some(id)
    case Drop(id) => Some(id)
    case _ => None
  }

  /** Steps of everyone else, while the process lives. */
  ghost predicate OthersRun(cfg: Config, id: HandlerId, states: seq<State>, actions: seq<Action>) {
    && |states| == |actions| + 1
    && forall i :: 0 <= i < |actions| ==>
         Step(cfg, states[i], actions[i], states[i + 1]) && ActorOf(actions[i]) != Some(id) && !actions[i].Restart?
  }

  ghost predicate Joins(cfg: Config, id: HandlerId, s: State, s': State, states: seq<State>, actions: seq<Action>) {
    OthersRun(cfg, id, states, actions) && states[0] == s && states[|states| - 1] == s'
  }

  ghost predicate Meanwhile(cfg: Config, id: HandlerId, s: State, s': State) {
    exists states, actions :: Joins(cfg, id, s, s', states, actions)
  }

  predicate SameHandler(s: State, s': State, id: HandlerId) {
    && (id in s.handlers <==> id in s'.handlers)
    && (id in s.handlers ==> s'.handlers[id] == s.handlers[id])
    && s.released <= s'.released
  }

  lemma {:induction false} OtherStepSparesHandler(cfg: Config, s: State, a: Action, s': State, id: HandlerId)
    requires Step(cfg, s, a, s') && ActorOf(a) != Some(id) && !a.Restart?
    ensures SameHandler(s, s', id)
  {
    hide HasLock, PayChecks, FilterAnswers, PaidWith, FreshLabel, FreshRefundId, NodeSays, Recorded, Revised, Late,
        LockAddPaymentAttempt, LockSwapRefund, UnlockSwapRefund, NoneComplete, NonePending, FirstRound,
            AfterFailedRound;
  }

  lemma {:induction false} OthersSpareHandler(cfg: Config, id: HandlerId, states: seq<State>, actions: seq<Action>,
      i: nat)
    requires OthersRun(cfg, id, states, actions) && i < |states| && Reachable(cfg, states[0])
    ensures SameHandler(states[0], states[i], id) && Reachable(cfg, states[i])
  {
    hide Step, Reachable;
    if i > 0 {
      OthersSpareHandler(cfg, id, states, actions, i - 1);
      assert Step(cfg, states[i - 1], actions[i - 1], states[i - 1 + 1]);
      OtherStepSparesHandler(cfg, states[i - 1], actions[i - 1], states[i], id);
      ReachableThen(cfg, states[i - 1], actions[i - 1], states[i]);
    }
  }

  /** Whatever happens at an await, the handler finds itself where it was, in a state of some run. */
  lemma {:induction false} MeanwhileSparesHandler(cfg: Config, id: HandlerId, s: State, s': State)
    requires Reachable(cfg, s) && Meanwhile(cfg, id, s, s')
    ensures SameHandler(s, s', id) && Reachable(cfg, s')
  {
    hide Reachable, OthersRun;
    var states, actions :| Joins(cfg, id, s, s', states, actions);
    OthersLength(cfg, id, states, actions);
    OthersSpareHandler(cfg, id, states, actions, |states| - 1);
  }

  lemma {:induction false} OthersLength(cfg: Config, id: HandlerId, states: seq<State>, actions: seq<Action>)
    requires OthersRun(cfg, id, states, actions)
    ensures |states| == |actions| + 1
  {
  }

  lemma {:induction false} NothingHappens(cfg: Config, id: HandlerId, s: State)
    ensures Meanwhile(cfg, id, s, s)
  {
    assert Joins(cfg, id, s, s, [s], []);
  }

  /** From one state to a later one, by anyone's steps. */
  ghost predicate IsStretch(cfg: Config, states: seq<State>, actions: seq<Action>, s: State, s': State) {
    && |states| == |actions| + 1 && states[0] == s && states[|actions|] == s'
    && forall i :: 0 <= i < |actions| ==> Step(cfg, states[i], actions[i], states[i + 1]) && !actions[i].Restart?
  }

  ghost predicate Leads(cfg: Config, s: State, s': State) {
    exists states, actions :: IsStretch(cfg, states, actions, s, s')
  }

  lemma {:induction false} LeadsNowhere(cfg: Config, s: State)
    ensures Leads(cfg, s, s)
  {
    assert IsStretch(cfg, [s], [], s, s);
  }

  lemma {:induction false} StepLeads(cfg: Config, s: State, a: Action, s': State)
    requires Step(cfg, s, a, s') && !a.Restart?
    ensures Leads(cfg, s, s')
  {
    hide Step;
    assert IsStretch(cfg, [s, s'], [a], s, s');
  }

  lemma {:induction false} LeadsOn(cfg: Config, a: State, b: State, c: State)
    requires Leads(cfg, a, b) && Leads(cfg, b, c)
    ensures Leads(cfg, a, c)
  {
    hide Step;
    var states, actions :| IsStretch(cfg, states, actions, a, b);
    var states', actions' :| IsStretch(cfg, states', actions', b, c);
    var all: seq<State> := states + states'[1..];
    var steps: seq<Action> := actions + actions';
    forall i | 0 <= i < |steps| ensures Step(cfg, all[i], steps[i], all[i + 1]) && !steps[i].Restart? {
      if i >= |actions| {
        assert all[i] == states'[i - |actions|] && all[i + 1] == states'[i - |actions| + 1];
      }
    }
    assert IsStretch(cfg, all, steps, a, c);
  }

  lemma {:induction false} MeanwhileLeads(cfg: Config, id: HandlerId, s: State, s': State)
    requires Meanwhile(cfg, id, s, s')
    ensures Leads(cfg, s, s')
  {
    hide Step;
    var states, actions :| Joins(cfg, id, s, s', states, actions);
    assert IsStretch(cfg, states, actions, s, s');
  }

  lemma {:induction false} ReachableHasInv(cfg: Config, s: State)
    requires Reachable(cfg, s)
    ensures Inv(cfg, s)
  {
    hide Inv, IsRun;
    var states, actions :| EndsRun(cfg, states, actions, s);
    RunHasLength(cfg, states, actions);
    RunKeepsInv(cfg, states, actions, |states| - 1);
  }

  lemma {:induction false} RunHasLength(cfg: Config, states: seq<State>, actions: seq<Action>)
    requires IsRun(cfg, states, actions)
    ensures |states| == |actions| + 1
  {
  }

  lemma {:induction false} OnlyLockingPlans(cfg: Config, s: State, a: Action, s': State)
    requires Step(cfg, s, a, s') && !a.LockPay?
    ensures s'.plans == s.plans
  {
    hide HasLock, PayChecks, FilterAnswers, PaidWith, FreshLabel, FreshRefundId, NodeSays, Recorded, Revised, Late,
        LockSwapRefund, UnlockSwapRefund, NoneComplete, NonePending, FirstRound, AfterFailedRound;
  }

  lemma {:induction false} LockingPlansOne(cfg: Config, s: State, id: HandlerId, s': State)
    requires Step(cfg, s, LockPay(id), s')
    ensures id in s.handlers && s.handlers[id].PayChecked?
        && s'.plans == s.plans[s.handlers[id].tag := s.handlers[id].plan]
  {
    hide HasLock, LockAddPaymentAttempt, Late;
  }

  lemma {:induction false} StepKeepsPlan(cfg: Config, s: State, a: Action, s': State, tag: Label)
    requires Inv(cfg, s) && Step(cfg, s, a, s') && tag in s.plans
    ensures tag in s'.plans && s'.plans[tag] == s.plans[tag]
  {
    hide Inv, Step;
    if a.LockPay? {
      LockingPlansOne(cfg, s, a.id, s');
      CheckedLeftNothing(cfg, s, a.id);
      PlansOfAttempts(cfg, s);
    } else {
      OnlyLockingPlans(cfg, s, a, s');
    }
  }

  lemma {:induction false} PlansOfAttempts(cfg: Config, s: State)
    requires Inv(cfg, s)
    ensures s.plans.Keys == s.tables.attempts.Keys
    ensures forall l :: l in s.plans ==>
        s.tables.attempts[l] == NewAttempt(s.plans[l]).(success := s.tables.attempts[l].success)
  {
    hide HandlersInv, MonitorsInv, TablesInv, NodeInv, ResultsSound, PreimagesSound, PlansSound, ReleasedInv;
  }

  /** What an attempt was made for does not change. */
  lemma {:induction false} PlanIsKept(cfg: Config, states: seq<State>, actions: seq<Action>, s: State, s': State,
      i: nat, tag: Label)
    requires IsStretch(cfg, states, actions, s, s') && i < |states| && Reachable(cfg, s) && tag in s.plans
    ensures Reachable(cfg, states[i]) && tag in states[i].plans && states[i].plans[tag] == s.plans[tag]
  {
    hide Step, Reachable, Inv;
    if i > 0 {
      PlanIsKept(cfg, states, actions, s, s', i - 1, tag);
      assert Step(cfg, states[i - 1], actions[i - 1], states[i - 1 + 1]);
      ReachableThen(cfg, states[i - 1], actions[i - 1], states[i]);
      ReachableHasInv(cfg, states[i - 1]);
      StepKeepsPlan(cfg, states[i - 1], actions[i - 1], states[i], tag);
    }
  }

  lemma {:induction false} AttemptIsKept(cfg: Config, s: State, s': State, tag: Label)
    requires Reachable(cfg, s) && Leads(cfg, s, s') && tag in s.plans
    ensures tag in s'.tables.attempts
        && s'.tables.attempts[tag] == NewAttempt(s.plans[tag]).(success := s'.tables.attempts[tag].success)
  {
    hide Step, Reachable, Inv;
    var states, actions :| IsStretch(cfg, states, actions, s, s');
    PlanIsKept(cfg, states, actions, s, s', |actions|, tag);
    ReachableHasInv(cfg, s');
    PlansOfAttempts(cfg, s');
  }

  // ---------------------------------------------- what the handlers rely on

  /** A handler that has only passed the checks has left nothing behind. */
  lemma {:induction false} CheckedLeftNothing(cfg: Config, s: State, id: HandlerId)
    requires Inv(cfg, s) && id in s.handlers && s.handlers[id].PayChecked?
    ensures s.handlers[id].tag !in s.tables.attempts && s.handlers[id].plan.hash in s.tables.swaps
  {
    hide DataInv, MonitorsInv;
    assert HandlerInv(cfg, s, s.handlers[id]);
  }

  lemma {:induction false} WaitingIsRecorded(cfg: Config, s: State, id: HandlerId)
    requires Inv(cfg, s) && id in s.handlers && (s.handlers[id].PayLocked? || s.handlers[id].PayWaiting?)
    ensures s.handlers[id].tag in s.tables.attempts
  {
    hide DataInv, MonitorsInv;
    assert HandlerInv(cfg, s, s.handlers[id]);
  }

  /** Once recorded, a success shows. */
  lemma {:induction false} ReturnedIsSound(cfg: Config, s: State, id: HandlerId)
    requires Inv(cfg, s) && id in s.handlers && s.handlers[id].PayReturned?
    ensures s.handlers[id].tag in s.tables.attempts
        && s.tables.attempts[s.handlers[id].tag].hash == s.handlers[id].plan.hash
    ensures s.handlers[id].plan.hash in s.tables.swaps
    ensures s.handlers[id].result.Success? ==>
        PaidWith(s.node, s.handlers[id].plan.hash, s.handlers[id].result.preimage)
  {
    assert HandlerInv(cfg, s, s.handlers[id]);
  }

  lemma {:induction false} SignedIsKnown(cfg: Config, s: State, id: HandlerId)
    requires Inv(cfg, s) && id in s.handlers && s.handlers[id].RefundSigned?
    ensures s.handlers[id].hash in s.tables.swaps
  {
    hide DataInv, MonitorsInv;
    assert HandlerInv(cfg, s, s.handlers[id]);
  }

  /** A refund that is not released yet has an id nobody released. */
  lemma {:induction false} NotReleasedYet(cfg: Config, s: State, id: HandlerId, h: Hash)
    requires Inv(cfg, s) && id in s.handlers && !s.handlers[id].IsPay()
    ensures (h, s.handlers[id].refundId) !in s.released
  {
    hide TablesInv, MonitorsInv, AttemptsInv, NodeInv, ResultsSound, PreimagesSound, PlansSound;
    assert HandlerInv(cfg, s, s.handlers[id]);
  }

  lemma {:induction false} LockIsGone(cfg: Config, s: State, h: Hash, r: RefundId)
    requires Inv(cfg, s)
    ensures var unlocked := UnlockSwapRefund(s.tables, h, r);
            RefundLock(h, r) !in (if unlocked.Ok? then unlocked.value.locks else s.tables.locks)
  {
    hide HandlersInv, MonitorsInv, AttemptsInv, NodeInv, ResultsSound, PreimagesSound, PlansSound, ReleasedInv,
        LocksExclusive, LocksMatchAttempts;
  }

  lemma {:induction false} FreshIsNotReleased(cfg: Config, s: State, h: Hash, r: RefundId)
    requires Inv(cfg, s) && FreshRefundId(s, r)
    ensures (h, r) !in s.released
  {
    hide TablesInv, HandlersInv, MonitorsInv, AttemptsInv, NodeInv, ResultsSound, PreimagesSound, PlansSound;
  }

  // -------------------------------------------------------------- the server

  datatype PayFailure =
    | NotFound | Refused(error: PayError) | SwapLocked | LockFailed | PaymentUnknown | PaymentFailed

  datatype RefundFailure = NoSuchSwap | RefundLocked | LockFailed | LookupFailed | PaymentExists

  /** Which of the calls a request makes will fail. */
  datatype PayFaults = PayFaults(lock: bool, pay: bool, store: bool)
  datatype RefundFaults = RefundFaults(lock: bool, pending: bool, complete: bool, unlock: bool)

  /** What is wrong with a request to pay; the amount is looked at before the swap. */
  function RefusalOf(cfg: Config, t: Tables, req: PayRequest, obs: Observed): Option<PayError> {
    var amount := AmountRefusal(cfg, req, obs.parameterRate);
    if amount.Some? || req.hash !in t.swaps then amount else
    var checked := PayChecks(cfg, req, t.swaps[req.hash].lockTime, t.swaps[req.hash].preimage, obs);
    if checked.Err? then Some(checked.error) else None
  }

  /** The request passed everything that comes before the lock. */
  predicate Admitted(cfg: Config, t: Tables, req: PayRequest, obs: Observed) {
    req.hash in t.swaps && RefusalOf(cfg, t, req, obs).None?
  }

  /** The node knows no outcome of the payment yet. */
  ghost predicate NoOutcome(s: State, h: Hash, tag: Label) {
    && NoneComplete(s.node, h)
    && (tag in s.requests || (tag in s.node && !s.node[tag].status.Failed?))
  }

  class Server {
    const cfg: Config
    const repo: SwapRepository.Repository
    var s: State   // the repository's tables, and everything around them

    ghost predicate Valid()
      reads this, repo
    {
      Reachable(cfg, s) && s.tables == repo.State()
    }

    constructor (cfg: Config, repo: SwapRepository.Repository)
      requires repo.State() == Tables(map[], map[], {})
      ensures Valid() && this.cfg == cfg && this.repo == repo && s == INITIAL
    {
      this.cfg, this.repo, this.s := cfg, repo, INITIAL;
      new;
      StartIsReachable(cfg);
    }

    /**
     An await. The node's refusal of a request is one thing that may happen; the handlers
     only rely on the contract.
     */
    method Await(id: HandlerId)
      requires Valid()
      modifies this`s, repo
      ensures Valid() && Meanwhile(cfg, id, old(s), s) && SameHandler(old(s), s, id)
      ensures Leads(cfg, old(s), s)
    {
      hide Reachable, Meanwhile;
      ghost var before := s;
      NothingHappens(cfg, id, s);
      if tag :| tag in s.requests {
        s := s.(requests := s.requests - {tag}, open := s.open - {tag});
        OneStep(cfg, id, before, NodeRejects(tag), s);
        ReachableThen(cfg, before, NodeRejects(tag), s);
      }
      MeanwhileSparesHandler(cfg, id, before, s);
      MeanwhileLeads(cfg, id, before, s);
    }

    /** A step of the handler itself that leaves the tables alone. */
    method Move(id: HandlerId, ghost a: Action, next: State)
      requires Valid() && Step(cfg, s, a, next) && next.tables == s.tables && !a.Restart?
      modifies this`s
      ensures Valid() && s == next && Leads(cfg, old(s), s)
    {
      ReachableThen(cfg, s, a, next);
      StepLeads(cfg, s, a, next);
      s := next;
    }

    /** A new address is derived from fresh keys, so no other swap has it. */
    method CreateSwap(h: Hash, row: SwapRow) returns (added: bool)
      requires Valid() && row.preimage.None?
      requires forall k :: k in s.tables.swaps ==> s.tables.swaps[k].address != row.address
      modifies this`s, repo
      ensures Valid()
      ensures added <==> h !in old(s).tables.swaps
      ensures added ==> h in s.tables.swaps && s.tables.swaps[h] == row
      ensures !added ==> s == old(s)
    {
      hide Reachable;
      added := repo.AddSwap(h, row);
      if added {
        var next := s.(tables := repo.State());
        ReachableThen(cfg, s, AddSwap(h, row), next);
        s := next;
      }
    }

    /** The node's answer to `pay`: a lookup by hash for a success, and no failure that could still turn. */
    method Pay(id: HandlerId, plan: PayPlan, tag: Label, fault: bool) returns (r: Option<PaymentResult>)
      requires Valid() && id in s.handlers && s.handlers[id] == PayWaiting(plan, tag)
      modifies this`s, repo
      ensures Valid() && SameHandler(old(s), s, id) && Leads(cfg, old(s), s)
      ensures r.Some? ==> !fault && NodeSays(s, plan.hash, tag, r.value)
      ensures r.None? ==> fault || NoOutcome(s, plan.hash, tag)
    {
      hide Reachable;
      Await(id);
      if fault { return None; }
      if l :| l in s.node && s.node[l].hash == plan.hash && s.node[l].status.Complete? {
        return Some(Success(s.node[l].status.preimage));
      }
      if tag !in s.requests && (tag in s.node ==> s.node[tag].status.Failed?) { return Some(PaymentResult.Failure); }
      r := None;
    }

    /**
     `pay_swap`. Each answer has its reason, and nothing but that reason leads to it:
     the checks at the start, a lock of the swap or a failing store when it was to be
     locked (`atLock`), what the node said or failed to say when `pay` returned
     (`atAnswer`). So a request that passes is paid for unless the swap is locked then or
     a call fails. Success means that some payment for the swap has completed. Whether the
     result could be `stored` the answer does not depend on: if so, the preimage is there
     and the attempt recorded.
     */
    method PaySwap(id: HandlerId, tag: Label, req: PayRequest, obs: Observed, faults: PayFaults)
      returns (r: Result<(), PayFailure>, stored: bool, ghost atLock: State, ghost atAnswer: State)
      requires Valid() && id !in s.handlers && FreshLabel(s, tag) && FilterAnswers(cfg, obs)
      modifies this`s, repo
      ensures Valid() && id !in s.handlers
      ensures Leads(cfg, old(s), atLock) && Leads(cfg, atLock, atAnswer) && Leads(cfg, atAnswer, s)
      ensures r == Err(NotFound)
         <==> req.hash !in old(s).tables.swaps && RefusalOf(cfg, old(s).tables, req, obs).None?
      ensures r.Err? && r.error.Refused? <==> RefusalOf(cfg, old(s).tables, req, obs).Some?
      ensures r.Err? && r.error.Refused? ==> RefusalOf(cfg, old(s).tables, req, obs) == Some(r.error.error)
      ensures r == Err(PayFailure.LockFailed) <==> Admitted(cfg, old(s).tables, req, obs) && faults.lock
      ensures r == Err(SwapLocked)
         <==> Admitted(cfg, old(s).tables, req, obs) && !faults.lock && HasLock(atLock.tables, req.hash)
      ensures tag in s.tables.attempts
         <==> Admitted(cfg, old(s).tables, req, obs) && !faults.lock && !HasLock(atLock.tables, req.hash)
      ensures tag in s.tables.attempts ==>
          s.tables.attempts[tag] == Attempt(req.hash, req.amountMsat.value, req.invoice,
              OutPoints(Counted(cfg, obs)), s.tables.attempts[tag].success)
      ensures r == Err(PaymentUnknown)
         <==> tag in s.tables.attempts && (faults.pay || NoOutcome(atAnswer, req.hash, tag))
      ensures r == Err(PaymentFailed) ==> NodeSays(atAnswer, req.hash, tag, PaymentResult.Failure)
      ensures r.Ok? ==> exists p :: NodeSays(atAnswer, req.hash, tag, Success(p))
      ensures r.Ok? ==> !NoneComplete(s.node, req.hash) && req.hash in s.tables.swaps
      ensures stored <==> (r.Ok? || r == Err(PaymentFailed)) && !faults.store
      ensures stored ==> tag in s.tables.attempts && s.tables.attempts[tag].success == Some(r.Ok?)
      ensures stored && r.Ok? ==> && s.tables.swaps[req.hash].preimage.Some?
                                  && PaidWith(s.node, req.hash, s.tables.swaps[req.hash].preimage.value)
    {
      hide Reachable, PayChecks, FilterAnswers, Inv, Leads, AmountRefusal, HasLock;
      LeadsNowhere(cfg, s);
      var refusal := AmountRefusal(cfg, req, obs.parameterRate);
      if refusal.Some? { return Err(Refused(refusal.value)), false, s, s; }
      if req.hash !in repo.swaps { return Err(NotFound), false, s, s; }
      var row := repo.swaps[req.hash];
      var checked := PayChecks(cfg, req, row.lockTime, row.preimage, obs);
      if checked.Err? { return Err(Refused(checked.error)), false, s, s; }
      var plan := checked.value;
      PassesExactlyWhen(cfg, req, row.lockTime, row.preimage, obs);
      Move(id, StartPay(id, tag, req, obs), Moved(s, id, PayChecked(plan, tag)));
      ghost var started := s;
      Await(id);
      LeadsOn(cfg, old(s), started, s);
      atLock := s;
      var locked := LockForPayment(id, plan, tag, faults.lock);
      LeadsNowhere(cfg, s);
      if locked.Err? { return Err(locked.error), false, atLock, s; }
      ghost var afterLock := s;
      var answer;
      answer, atAnswer := SendAndWait(id, plan, tag, faults.pay);
      LeadsOn(cfg, atLock, afterLock, atAnswer);
      ghost var answered := s;
      LeadsOn(cfg, afterLock, atAnswer, answered);
      AttemptIsKept(cfg, afterLock, answered, tag);
      if answer.None? { return Err(PaymentUnknown), false, atLock, atAnswer; }
      stored := Record(id, plan, tag, answer.value, faults.store);
      LeadsOn(cfg, atAnswer, answered, s);
      LeadsOn(cfg, afterLock, answered, s);
      AttemptIsKept(cfg, afterLock, s, tag);
      r := if answer.value.Success? then Ok(()) else Err(PaymentFailed);
    }

    /** From the lock to the answer of `pay`. */
    method SendAndWait(id: HandlerId, plan: PayPlan, tag: Label, fault: bool)
        returns (answer: Option<PaymentResult>, ghost atAnswer: State)
      requires Valid() && id in s.handlers && s.handlers[id] == PayLocked(plan, tag)
      modifies this`s, repo
      ensures Valid() && Leads(cfg, old(s), atAnswer) && Leads(cfg, atAnswer, s)
      ensures answer.None? ==> id !in s.handlers && tag in s.tables.attempts
      ensures answer.None? ==> fault || NoOutcome(atAnswer, plan.hash, tag)
      ensures answer.Some? ==> id in s.handlers && s.handlers[id] == PayReturned(plan, tag, answer.value)
      ensures answer.Some? ==> !fault && NodeSays(atAnswer, plan.hash, tag, answer.value)
    {
      hide Reachable, Inv, Leads, NoneComplete;
      Await(id);
      ghost var ready := s;
      Move(id, SendPay(id), Moved(s, id, PayWaiting(plan, tag)).(requests := s.requests + {tag}));
      LeadsOn(cfg, old(s), ready, s);
      ghost var sent := s;
      answer := Pay(id, plan, tag, fault);
      atAnswer := s;
      LeadsOn(cfg, old(s), sent, atAnswer);
      if answer.None? {
        ReachableHasInv(cfg, s);
        WaitingIsRecorded(cfg, s, id);
        Move(id, Drop(id), Gone(s, id));
      } else {
        Move(id, PayReturns(id, answer.value), Moved(s, id, PayReturned(plan, tag, answer.value)));
      }
    }

    method LockForPayment(id: HandlerId, plan: PayPlan, tag: Label, fault: bool) returns (r: Result<(), PayFailure>)
      requires Valid() && id in s.handlers && s.handlers[id] == PayChecked(plan, tag)
      modifies this`s, repo
      ensures Valid() && Leads(cfg, old(s), s)
      ensures r.Ok? ==> id in s.handlers && s.handlers[id] == PayLocked(plan, tag)
      ensures r.Ok? ==> tag in s.plans && s.plans[tag] == plan
      ensures r.Err? ==> id !in s.handlers && tag !in s.tables.attempts
      ensures r == if fault then Err(PayFailure.LockFailed)
                   else if HasLock(old(s).tables, plan.hash) then Err(SwapLocked) else Ok(())
    {
      hide Reachable, PayChecks, Inv, TablesInv, Leads, HasLock;
      ReachableHasInv(cfg, s);
      CheckedLeftNothing(cfg, s, id);
      if fault {
        Move(id, Drop(id), Gone(s, id));
        return Err(PayFailure.LockFailed);
      }
      var done := repo.LockAddPaymentAttempt(tag, NewAttempt(plan));
      if done.Err? {
        Move(id, Drop(id), Gone(s, id));
        return Err(SwapLocked);
      }
      var next := Moved(s, id, PayLocked(plan, tag)).(
                    tables := repo.State(), plans := s.plans[tag := plan], open := s.open + {tag},
                        late := s.late + Late(s.tables, plan.hash, tag));
      ReachableThen(cfg, s, LockPay(id), next);
      StepLeads(cfg, s, LockPay(id), next);
      s := next;
      r := Ok(());
    }

    /** The result is stored, or the store fails and the handler goes on without it. */
    method Record(id: HandlerId, plan: PayPlan, tag: Label, result: PaymentResult, fault: bool)
        returns (stored: bool)
      requires Valid() && id in s.handlers && s.handlers[id] == PayReturned(plan, tag, result)
      modifies this`s, repo
      ensures Valid() && Leads(cfg, old(s), s) && stored == !fault
      ensures id !in s.handlers && tag in s.tables.attempts && plan.hash in s.tables.swaps
      ensures result.Success? ==> PaidWith(s.node, plan.hash, result.preimage)
      ensures stored ==> s.tables.attempts[tag].success == Some(result.Success?)
      ensures stored && result.Success? ==> s.tables.swaps[plan.hash].preimage == Some(result.preimage)
    {
      hide Reachable, PayChecks, Inv, TablesInv, Leads;
      Await(id);
      ghost var ready := s;
      ReachableHasInv(cfg, s);
      ReturnedIsSound(cfg, s, id);
      if fault {
        Move(id, Drop(id), Gone(s, id));
        LeadsOn(cfg, old(s), ready, s);
        return false;
      }
      var done := repo.UnlockAddPaymentResult(plan.hash, tag, result);
      var next := Gone(s, id).(tables := repo.State(), revised := s.revised + Revised(s.tables, tag, result));
      ReachableThen(cfg, s, RecordPay(id), next);
      StepLeads(cfg, s, RecordPay(id), next);
      s := next;
      LeadsOn(cfg, old(s), ready, s);
      stored := true;
    }

    /**
     `has_pending_or_complete_payment`: two queries, in either order, each answered at a
     moment of its own; the answer to the one for pending payments is looked at first.
     */
    method HasPayment(id: HandlerId, h: Hash, refundId: RefundId, faults: RefundFaults)
        returns (r: Option<bool>, ghost atPending: State, ghost atComplete: State)
      requires Valid() && id in s.handlers && s.handlers[id] == Handler.RefundLocked(h, refundId, false, false)
      modifies this`s, repo
      ensures Valid() && id in s.handlers && s.handlers[id].RefundLocked? && s.handlers[id].hash == h
          && s.handlers[id].refundId == refundId
      ensures Leads(cfg, old(s), atPending) && Leads(cfg, atPending, s)
      ensures Leads(cfg, old(s), atComplete) && Leads(cfg, atComplete, s)
      ensures r == if faults.pending then None
                   else if !NonePending(atPending.node, h) then Some(true)
                   else if faults.complete then None
                   else Some(!NoneComplete(atComplete.node, h))
      ensures r == Some(false) ==> s.handlers[id].noneComplete && s.handlers[id].nonePending
    {
      hide Reachable, Leads, NonePending, NoneComplete;
      var none, noneYet;
      if * {
        none, atComplete := SeesNoneComplete(id, faults.complete);
        ghost var between := s;
        noneYet, atPending := SeesNonePending(id, faults.pending);
        LeadsOn(cfg, old(s), between, atPending);
        LeadsOn(cfg, atComplete, between, s);
      } else {
        noneYet, atPending := SeesNonePending(id, faults.pending);
        ghost var between := s;
        none, atComplete := SeesNoneComplete(id, faults.complete);
        LeadsOn(cfg, old(s), between, atComplete);
        LeadsOn(cfg, atPending, between, s);
      }
      if faults.pending { return None, atPending, atComplete; }
      if !noneYet { return Some(true), atPending, atComplete; }
      if faults.complete { return None, atPending, atComplete; }
      r := Some(!none);
    }

    method SeesNoneComplete(id: HandlerId, fault: bool) returns (none: bool, ghost at: State)
      requires Valid() && id in s.handlers && s.handlers[id].RefundLocked?
      modifies this`s, repo
      ensures Valid() && id in s.handlers && Leads(cfg, old(s), at) && Leads(cfg, at, s)
      ensures Leads(cfg, old(s), s) && (none <==> !fault && NoneComplete(at.node, old(s).handlers[id].hash))
      ensures s.handlers[id] == if none then old(s).handlers[id].(noneComplete := true) else old(s).handlers[id]
    {
      hide Reachable, Leads;
      Await(id);
      at := s;
      LeadsNowhere(cfg, s);
      var h := s.handlers[id].hash;
      none := !fault && !exists l :: l in s.node && s.node[l].hash == h && s.node[l].status.Complete?;
      if none { Move(id, SeeNoneComplete(id), Moved(s, id, s.handlers[id].(noneComplete := true))); }
      LeadsOn(cfg, old(s), at, s);
    }

    method SeesNonePending(id: HandlerId, fault: bool) returns (none: bool, ghost at: State)
      requires Valid() && id in s.handlers && s.handlers[id].RefundLocked?
      modifies this`s, repo
      ensures Valid() && id in s.handlers && Leads(cfg, old(s), at) && Leads(cfg, at, s)
      ensures Leads(cfg, old(s), s) && (none <==> !fault && NonePending(at.node, old(s).handlers[id].hash))
      ensures s.handlers[id] == if none then old(s).handlers[id].(nonePending := true) else old(s).handlers[id]
    {
      hide Reachable, Leads;
      Await(id);
      at := s;
      LeadsNowhere(cfg, s);
      var h := s.handlers[id].hash;
      none := !fault && !exists l :: l in s.node && s.node[l].hash == h && s.node[l].status.Pending?;
      if none { Move(id, SeeNonePending(id), Moved(s, id, s.handlers[id].(nonePending := true))); }
      LeadsOn(cfg, old(s), at, s);
    }

    /**
     `refund_swap`, from the swap lookup on. A signature is handed out exactly when the
     swap is known, could be locked, and neither query saw a payment of its hash; then
     nothing has been, is being or can still be paid for it. Whoever gets an error has got
     no signature, and each error has its reason: `PaymentExists` that a payment was there
     when it was asked for. After a denial the lock is given back unless that call fails too.
     */
    method RefundSwap(id: HandlerId, h: Hash, refundId: RefundId, faults: RefundFaults)
        returns (r: Result<(), RefundFailure>, ghost atLock: State, ghost atPending: State, ghost atComplete: State)
      requires Valid() && id !in s.handlers && FreshRefundId(s, refundId)
      modifies this`s, repo
      ensures Valid() && id !in s.handlers
      ensures Leads(cfg, old(s), atLock) && Leads(cfg, atLock, atPending) && Leads(cfg, atLock, atComplete)
      ensures Leads(cfg, atPending, s) && Leads(cfg, atComplete, s)
      ensures r == Err(NoSuchSwap) <==> h !in old(s).tables.swaps
      ensures r == Err(RefundFailure.LockFailed) <==> h in old(s).tables.swaps && faults.lock
      ensures r == Err(RefundFailure.RefundLocked)
         <==> h in old(s).tables.swaps && !faults.lock && HasPaymentLock(atLock.tables, h)
      ensures r.Ok? <==> && h in old(s).tables.swaps && !faults.lock && !HasPaymentLock(atLock.tables, h)
                         && !faults.pending && NonePending(atPending.node, h)
                         && !faults.complete && NoneComplete(atComplete.node, h)
      ensures r == Err(PaymentExists) ==> !NonePending(atPending.node, h) || !NoneComplete(atComplete.node, h)
      ensures r == Err(LookupFailed) ==> faults.pending || faults.complete
      ensures r.Ok? ==> (h, refundId) in s.released && Unpaid(s, h)
      ensures r.Err? ==> (h, refundId) !in s.released
      ensures (r == Err(PaymentExists) || r == Err(LookupFailed)) && !faults.unlock
          ==> RefundLock(h, refundId) !in s.tables.locks
    {
      hide Reachable, Inv, Unpaid, Leads, HasPaymentLock, NonePending, NoneComplete, Step, FreshRefundId;
      LeadsNowhere(cfg, s);
      if h !in repo.swaps {
        ReachableHasInv(cfg, s);
        FreshIsNotReleased(cfg, s, h, refundId);
        return Err(NoSuchSwap), s, s, s;
      }
      Sign(id, h, refundId);
      atLock := s;
      var locked := LockForRefund(id, h, refundId, faults.lock);
      LeadsNowhere(cfg, s);
      if locked.Err? { return Err(locked.error), atLock, s, s; }
      ghost var afterLock := s;
      var payment;
      payment, atPending, atComplete := HasPayment(id, h, refundId, faults);
      LeadsOn(cfg, atLock, afterLock, atPending);
      LeadsOn(cfg, atLock, afterLock, atComplete);
      ghost var looked := s;
      if payment != Some(false) {
        Deny(id, h, refundId, faults.unlock);
        r := Err(if payment.None? then LookupFailed else PaymentExists);
      } else {
        Release(id, h, refundId);
        r := Ok(());
      }
      LeadsOn(cfg, atPending, looked, s);
      LeadsOn(cfg, atComplete, looked, s);
    }

    method Sign(id: HandlerId, h: Hash, refundId: RefundId)
      requires Valid() && id !in s.handlers && FreshRefundId(s, refundId) && h in s.tables.swaps
      modifies this`s, repo
      ensures Valid() && Leads(cfg, old(s), s)
      ensures id in s.handlers && s.handlers[id] == RefundSigned(h, refundId)
    {
      hide Reachable, Leads;
      Move(id, StartRefund(id, h, refundId), Moved(s, id, RefundSigned(h, refundId)));
      ghost var started := s;
      Await(id);
      LeadsOn(cfg, old(s), started, s);
    }

    method Release(id: HandlerId, h: Hash, refundId: RefundId)
      requires Valid() && id in s.handlers && s.handlers[id] == Handler.RefundLocked(h, refundId, true, true)
      modifies this`s
      ensures Valid() && id !in s.handlers && Leads(cfg, old(s), s)
      ensures (h, refundId) in s.released && Unpaid(s, h)
    {
      hide Reachable, Inv, Unpaid, Leads;
      Move(id, ReleaseRefund(id), Gone(s, id).(released := s.released + {(h, refundId)}));
      ReachableHasInv(cfg, s);
      ReleasedIsUnpaid(cfg, s, h, refundId);
    }

    method LockForRefund(id: HandlerId, h: Hash, refundId: RefundId, fault: bool)
        returns (r: Result<(), RefundFailure>)
      requires Valid() && id in s.handlers && s.handlers[id] == RefundSigned(h, refundId)
      modifies this`s, repo
      ensures Valid() && Leads(cfg, old(s), s)
      ensures r.Ok? ==> id in s.handlers && s.handlers[id] == Handler.RefundLocked(h, refundId, false, false)
      ensures r.Err? ==> id !in s.handlers && (h, refundId) !in s.released
      ensures r == if fault then Err(RefundFailure.LockFailed)
                   else if HasPaymentLock(old(s).tables, h) then Err(RefundFailure.RefundLocked) else Ok(())
    {
      hide Reachable, Inv, TablesInv, Leads, HasPaymentLock;
      ReachableHasInv(cfg, s);
      NotReleasedYet(cfg, s, id, h);
      SignedIsKnown(cfg, s, id);
      if fault {
        Move(id, Drop(id), Gone(s, id));
        return Err(RefundFailure.LockFailed);
      }
      var done := repo.LockSwapRefund(h, refundId);
      if done.Err? {
        Move(id, Drop(id), Gone(s, id));
        return Err(RefundFailure.RefundLocked);
      }
      var next := Moved(s, id, Handler.RefundLocked(h, refundId, false, false)).(tables := repo.State());
      ReachableThen(cfg, s, LockRefund(id), next);
      StepLeads(cfg, s, LockRefund(id), next);
      s := next;
      r := Ok(());
    }

    /** Whether giving the lock back worked is not looked at. */
    method Deny(id: HandlerId, h: Hash, refundId: RefundId, fault: bool)
      requires Valid() && id in s.handlers && s.handlers[id].RefundLocked?
      requires s.handlers[id].hash == h && s.handlers[id].refundId == refundId
      modifies this`s, repo
      ensures Valid() && Leads(cfg, old(s), s)
      ensures id !in s.handlers && (h, refundId) !in s.released
      ensures !fault ==> RefundLock(h, refundId) !in s.tables.locks
    {
      hide Reachable, Inv, TablesInv, Leads;
      Move(id, DenyRefund(id), Moved(s, id, RefundDenied(h, refundId)));
      ghost var denied := s;
      Await(id);
      LeadsOn(cfg, old(s), denied, s);
      ghost var ready := s;
      ReachableHasInv(cfg, s);
      NotReleasedYet(cfg, s, id, h);
      if fault {
        Move(id, Drop(id), Gone(s, id));   // the lock stays
      } else {
        LockIsGone(cfg, s, h, refundId);
        var done := repo.UnlockSwapRefund(h, refundId);
        var next := Gone(s, id).(tables := repo.State());
        ReachableThen(cfg, s, UnlockRefund(id), next);
        StepLeads(cfg, s, UnlockRefund(id), next);
        s := next;
      }
      LeadsOn(cfg, old(s), ready, s);
    }
  }

  lemma {:induction false} OneStep(cfg: Config, id: HandlerId, s: State, a: Action, s': State)
    requires Step(cfg, s, a, s') && ActorOf(a) != Some(id) && !a.Restart?
    ensures Meanwhile(cfg, id, s, s')
  {
    hide Step;
    assert Joins(cfg, id, s, s', [s, s'], [a]);
  }
}
