/**
 The pay/refund protocol as a state machine. Pay and refund handlers, the
 historical payment monitor, the preimage monitor, the lightning node and
 restarts of the one server process interleave freely; every repository call and
 every answer of the node is a step of its own.
 */
module Protocol {
  import opened Types
  import opened PaySwap
  import opened SwapTables

  type HandlerId = nat

  /** The label a node reports for a payment it cannot attribute; never generated for an attempt. */
  const NO_LABEL: Label := 0

  datatype NodeStatus = Pending | Failed | Complete(preimage: Preimage)
  datatype NodePayment = NodePayment(hash: Hash, status: NodeStatus, cltvLimit: u32)

  /** A request between awaits. */
  datatype Handler =
    | PayChecked(plan: PayPlan, tag: Label)
    | PayLocked(plan: PayPlan, tag: Label)
    | PayWaiting(plan: PayPlan, tag: Label)
    | PayReturned(plan: PayPlan, tag: Label, result: PaymentResult)
    | RefundSigned(hash: Hash, refundId: RefundId)
    | RefundLocked(hash: Hash, refundId: RefundId, noneComplete: bool, nonePending: bool)
    | RefundDenied(hash: Hash, refundId: RefundId)
  {
    predicate IsPay() { PayChecked? || PayLocked? || PayWaiting? || PayReturned? }
  }

  /** A payment outcome a monitor has read from the node and not yet written. */
  datatype Verdict = Verdict(hash: Hash, tag: Label, result: PaymentResult)

  /**
   The historical monitor's list and where it is in its current round. The first
   round is `initialize`; it keeps what the node reports as pending. A round cut
   short by an error starts over with the whole list, except the first, after
   which the monitor is not started.
   */
  datatype Rounds = Rounds(listed: set<Label>, todo: set<Label>, pending: set<Label>, started: bool)

  datatype State = State(
    tables: Tables,
    handlers: map<HandlerId, Handler>,
    requests: set<Label>,                 // pay calls on their way to the node
    open: set<Label>,                     // attempts whose pay call the node may still get
    node: map<Label, NodePayment>,
    monitor: Rounds,
    verdicts: set<Verdict>,
    plans: map<Label, PayPlan>,           // history: what each attempt was made for
    released: set<(Hash, RefundId)>,      // history: refund signatures handed out
    late: set<Label>,                     // history: attempts locked when the swap already had its preimage
    revised: set<Label>)                  // history: attempts whose recorded failure became a success

  datatype Action =
    | AddSwap(hash: Hash, row: SwapRow)
    | StartPay(id: HandlerId, tag: Label, req: PayRequest, obs: Observed)
    | LockPay(id: HandlerId)
    | SendPay(id: HandlerId)
    | PayReturns(id: HandlerId, result: PaymentResult)
    | RecordPay(id: HandlerId)
    | StartRefund(id: HandlerId, hash: Hash, refundId: RefundId)
    | LockRefund(id: HandlerId)
    | SeeNoneComplete(id: HandlerId)
    | SeeNonePending(id: HandlerId)
    | DenyRefund(id: HandlerId)
    | UnlockRefund(id: HandlerId)
    | ReleaseRefund(id: HandlerId)
    | Drop(id: HandlerId)
    | NodeAccepts(tag: Label)
    | NodeRejects(tag: Label)
    | NodeFails(tag: Label)
    | NodeCompletes(tag: Label, preimage: Preimage)
    | AskHistorical(tag: Label, result: PaymentResult)
    | HearPending(tag: Label)
    | RoundEnds
    | RoundFails
    | AskPreimage(hash: Hash, tag: Label, preimage: Preimage)
    | ApplyVerdict(verdict: Verdict)
    | Restart

  // ----------------------------------------------------------------- steps

  type Node = map<Label, NodePayment>

  predicate NoneComplete(node: Node, h: Hash) {
    forall l :: l in node && node[l].hash == h ==> !node[l].status.Complete?
  }

  predicate NonePending(node: Node, h: Hash) {
    forall l :: l in node && node[l].hash == h ==> !node[l].status.Pending?
  }

  /** Some payment of the hash has revealed this preimage. */
  ghost predicate PaidWith(node: Node, h: Hash, p: Preimage) {
    exists l :: l in node && node[l].hash == h && node[l].status == Complete(p)
  }

  /**
   What `pay` and `get_payment_state` may answer: a success for any completed
   payment of the hash, under whatever label; a failure only for good.
   */
  ghost predicate NodeSays(s: State, h: Hash, tag: Label, result: PaymentResult) {
    match result
    case Success(p) => PaidWith(s.node, h, p)
    case Failure => tag !in s.requests && (tag in s.node ==> s.node[tag].status.Failed?)
  }

  function NewAttempt(plan: PayPlan): Attempt {
    Attempt(plan.hash, plan.amountMsat, plan.invoice, OutPoints(plan.outputs), None)
  }

  ghost predicate Enabled(cfg: Config, s: State, a: Action) {
    match a
    case AddSwap(h, row) =>
      && h !in s.tables.swaps && row.preimage.None?
      && (forall k :: k in s.tables.swaps ==> s.tables.swaps[k].address != row.address)
    case StartPay(id, tag, req, obs) =>
      && id !in s.handlers && req.hash in s.tables.swaps && FilterAnswers(cfg, obs)
      && PayChecks(cfg, req, s.tables.swaps[req.hash].lockTime, s.tables.swaps[req.hash].preimage, obs).Ok?
      && FreshLabel(s, tag)
    case LockPay(id) =>
      && id in s.handlers && s.handlers[id].PayChecked?
      && LockAddPaymentAttempt(s.tables, s.handlers[id].tag, NewAttempt(s.handlers[id].plan)).Ok?
    case SendPay(id) => id in s.handlers && s.handlers[id].PayLocked?
    case PayReturns(id, result) =>
        id in s.handlers && s.handlers[id].PayWaiting?
        && NodeSays(s, s.handlers[id].plan.hash, s.handlers[id].tag, result)
    case RecordPay(id) => id in s.handlers && s.handlers[id].PayReturned?
    case StartRefund(id, h, r) => id !in s.handlers && h in s.tables.swaps && FreshRefundId(s, r)
    case LockRefund(id) =>
      && id in s.handlers && s.handlers[id].RefundSigned?
      && LockSwapRefund(s.tables, s.handlers[id].hash, s.handlers[id].refundId).Ok?
    case SeeNoneComplete(id) =>
        id in s.handlers && s.handlers[id].RefundLocked? && NoneComplete(s.node, s.handlers[id].hash)
    case SeeNonePending(id) =>
        id in s.handlers && s.handlers[id].RefundLocked? && NonePending(s.node, s.handlers[id].hash)
    case DenyRefund(id) => id in s.handlers && s.handlers[id].RefundLocked?
    case UnlockRefund(id) => id in s.handlers && s.handlers[id].RefundDenied?
    case ReleaseRefund(id) =>
        id in s.handlers && s.handlers[id].RefundLocked? && s.handlers[id].noneComplete && s.handlers[id].nonePending
    case Drop(id) => id in s.handlers
    case NodeAccepts(tag) => tag in s.requests && tag in s.plans
    case NodeRejects(tag) => tag in s.requests
    case NodeFails(tag) => tag in s.node && s.node[tag].status.Pending?
    case NodeCompletes(tag, _) => tag in s.node && s.node[tag].status.Pending?
    case AskHistorical(tag, result) =>
        tag in s.monitor.todo && tag in s.tables.attempts && NodeSays(s, s.tables.attempts[tag].hash, tag, result)
    case HearPending(tag) =>
        tag in s.monitor.todo && tag in s.tables.attempts && !NonePending(s.node, s.tables.attempts[tag].hash)
    case RoundEnds => s.monitor.todo == {}
    case RoundFails => s.monitor.todo != {}
    case AskPreimage(h, tag, p) =>
      && h in s.tables.swaps
      && if tag == NO_LABEL then PaidWith(s.node, h, p)
         else tag in s.node && s.node[tag].hash == h && s.node[tag].status == Complete(p)
    case ApplyVerdict(v) => v in s.verdicts
    case Restart => true
  }

  /** Labels carry the hash and the time in nanoseconds: no two requests share one. */
  predicate FreshLabel(s: State, tag: Label) {
    && tag != NO_LABEL && tag !in s.tables.attempts
    && forall k :: k in s.handlers && s.handlers[k].IsPay() ==> s.handlers[k].tag != tag
  }

  /** Refund ids are 32 random bytes: no two requests share one. */
  predicate FreshRefundId(s: State, r: RefundId) {
    && (forall k :: k in s.handlers && !s.handlers[k].IsPay() ==> s.handlers[k].refundId != r)
    && (forall k :: k in s.tables.locks && k.RefundLock? ==> k.refundId != r)
  }

  function Recorded(t: Tables, h: Hash, tag: Label, result: PaymentResult): Tables {
    var r := UnlockAddPaymentResult(t, h, tag, result);
    if r.Ok? then r.value else t
  }

  /** The label, if the result turns its recorded failure into a success. */
  function Revised(t: Tables, tag: Label, result: PaymentResult): set<Label> {
    if result.Success? && tag in t.attempts && t.attempts[tag].success == Some(false) then {tag} else {}
  }

  /** The label, if the swap it is locked for has its preimage already. */
  function Late(t: Tables, h: Hash, tag: Label): set<Label> {
    if h in t.swaps && t.swaps[h].preimage.Some? then {tag} else {}
  }

  function FirstRound(t: Tables): Rounds { Rounds(Unhandled(t), Unhandled(t), {}, false) }

  function AfterFailedRound(m: Rounds): Rounds {
    if m.started then Rounds(m.listed, m.listed, {}, true) else Rounds({}, {}, {}, false)
  }

  function Moved(s: State, id: HandlerId, h: Handler): State { s.(handlers := s.handlers[id := h]) }
  function Gone(s: State, id: HandlerId): State { s.(handlers := s.handlers - {id}) }

  /** The state after an enabled step. */
  ghost function Apply(cfg: Config, s: State, a: Action): State
    requires Enabled(cfg, s, a)
  {
    match a
    case AddSwap(h, row) => s.(tables := s.tables.(swaps := s.tables.swaps[h := row]))
    case StartPay(id, tag, req, obs) =>
      Moved(s, id, PayChecked(PayChecks(cfg, req, s.tables.swaps[req.hash].lockTime, s.tables.swaps[req.hash].preimage,
          obs).value, tag))
    case LockPay(id) =>
      var h := s.handlers[id];
      Moved(s, id, PayLocked(h.plan, h.tag)).(
        tables := LockAddPaymentAttempt(s.tables, h.tag, NewAttempt(h.plan)).value,
        plans := s.plans[h.tag := h.plan],
        open := s.open + {h.tag},
        late := s.late + Late(s.tables, h.plan.hash, h.tag))
    case SendPay(id) =>
      var h := s.handlers[id];
      Moved(s, id, PayWaiting(h.plan, h.tag)).(requests := s.requests + {h.tag})
    case PayReturns(id, result) =>
      var h := s.handlers[id];
      Moved(s, id, PayReturned(h.plan, h.tag, result))
    case RecordPay(id) =>
      var h := s.handlers[id];
      Gone(s, id).(tables := Recorded(s.tables, h.plan.hash, h.tag, h.result),
          revised := s.revised + Revised(s.tables, h.tag, h.result))
    case StartRefund(id, h, r) => Moved(s, id, RefundSigned(h, r))
    case LockRefund(id) =>
      var h := s.handlers[id];
      Moved(s, id, RefundLocked(h.hash, h.refundId, false, false)).(
        tables := LockSwapRefund(s.tables, h.hash, h.refundId).value)
    case SeeNoneComplete(id) => Moved(s, id, s.handlers[id].(noneComplete := true))
    case SeeNonePending(id) => Moved(s, id, s.handlers[id].(nonePending := true))
    case DenyRefund(id) => Moved(s, id, RefundDenied(s.handlers[id].hash, s.handlers[id].refundId))
    case UnlockRefund(id) =>
      var h := s.handlers[id];
      var r := UnlockSwapRefund(s.tables, h.hash, h.refundId);
      Gone(s, id).(tables := if r.Ok? then r.value else s.tables)
    case ReleaseRefund(id) =>
      var h := s.handlers[id];
      Gone(s, id).(released := s.released + {(h.hash, h.refundId)})
    case Drop(id) => Gone(s, id)
    case NodeAccepts(tag) =>
      s.(requests := s.requests - {tag}, open := s.open - {tag},
         node := s.node[tag := NodePayment(s.plans[tag].hash, Pending, s.plans[tag].cltvLimit)])
    case NodeRejects(tag) => s.(requests := s.requests - {tag}, open := s.open - {tag})
    case NodeFails(tag) => s.(node := s.node[tag := s.node[tag].(status := Failed)])
    case NodeCompletes(tag, p) => s.(node := s.node[tag := s.node[tag].(status := Complete(p))])
    case AskHistorical(tag, result) =>
      s.(monitor := s.monitor.(todo := s.monitor.todo - {tag}),
         verdicts := s.verdicts + {Verdict(s.tables.attempts[tag].hash, tag, result)})
    case HearPending(tag) =>
      s.(monitor := s.monitor.(todo := s.monitor.todo - {tag}, pending := s.monitor.pending + {tag}))
    case RoundEnds => s.(monitor := Rounds(s.monitor.pending, s.monitor.pending, {}, true))
    case RoundFails => s.(monitor := AfterFailedRound(s.monitor))
    case AskPreimage(h, tag, p) => s.(verdicts := s.verdicts + {Verdict(h, tag, Success(p))})
    case ApplyVerdict(v) =>
        s.(verdicts := s.verdicts - {v}, tables := Recorded(s.tables, v.hash, v.tag, v.result),
        revised := s.revised + Revised(s.tables, v.tag, v.result))
    case Restart =>
      s.(handlers := map[], requests := {}, open := {}, verdicts := {}, monitor := FirstRound(s.tables))
  }

  // ------------------------------------------------------------- invariant

  type Attempts = map<Label, Attempt>

  /** The attempt can no longer be paid. */
  predicate Dead(attempts: Attempts, open: set<Label>, node: Node, tag: Label) {
    tag in attempts && tag !in open && (tag in node ==> node[tag].status.Failed?)
  }

  /** What an outcome about to be written may claim. */
  ghost predicate OutcomeSound(attempts: Attempts, open: set<Label>, node: Node, h: Hash, tag: Label,
      result: PaymentResult) {
    match result
    case Success(p) => PaidWith(node, h, p) && (tag == NO_LABEL || (tag in attempts && attempts[tag].hash == h))
    case Failure => Dead(attempts, open, node, tag) && attempts[tag].hash == h
  }

  predicate AttemptsInv(attempts: Attempts, plans: map<Label, PayPlan>) {
    && NO_LABEL !in attempts
    && plans.Keys == attempts.Keys
    && forall l :: l in attempts ==> attempts[l] == NewAttempt(plans[l]).(success := attempts[l].success)
  }

  predicate NodeInv(attempts: Attempts, node: Node, open: set<Label>, requests: set<Label>) {
    && requests <= open
    && (forall l :: l in node ==> l in attempts && node[l].hash == attempts[l].hash)
    && (forall l :: l in open ==> l in attempts && l !in node)
  }

  /** A recorded success means that the swap was paid, a recorded failure that the attempt is dead. */
  predicate ResultsSound(attempts: Attempts, open: set<Label>, node: Node) {
    forall l :: l in attempts && attempts[l].success.Some? ==>
      if attempts[l].success.value then !NoneComplete(node, attempts[l].hash) else Dead(attempts, open, node, l)
  }

  ghost predicate PreimagesSound(swaps: map<Hash, SwapRow>, node: Node) {
    forall h :: h in swaps && swaps[h].preimage.Some? ==> PaidWith(node, h, swaps[h].preimage.value)
  }

  predicate AddressesDistinct(swaps: map<Hash, SwapRow>) {
    forall h, k :: h in swaps && k in swaps && swaps[h].address == swaps[k].address ==> h == k
  }

  /** Every payment goes out on a sound plan. */
  ghost predicate PlansSound(cfg: Config, swaps: map<Hash, SwapRow>, plans: map<Label, PayPlan>, node: Node) {
    && (forall l :: l in plans ==> plans[l].hash in swaps && PlanSound(cfg, swaps[plans[l].hash].lockTime, plans[l]))
    && (forall l :: l in node ==> l in plans && node[l].cltvLimit == plans[l].cltvLimit)
  }

  predicate HandlersDistinct(handlers: map<HandlerId, Handler>) {
    forall i, j :: i in handlers && j in handlers && i != j ==>
      && (handlers[i].IsPay() && handlers[j].IsPay() ==> handlers[i].tag != handlers[j].tag)
      && (!handlers[i].IsPay() && !handlers[j].IsPay() ==> handlers[i].refundId != handlers[j].refundId)
  }

  ghost predicate PayInv(cfg: Config, s: State, h: Handler)
    requires h.IsPay()
  {
    match h
    case PayChecked(plan, tag) =>
      && tag != NO_LABEL && tag !in s.tables.attempts
      && plan.hash in s.tables.swaps && PlanSound(cfg, s.tables.swaps[plan.hash].lockTime, plan)
    case PayLocked(plan, tag) =>
        tag in s.tables.attempts && s.tables.attempts[tag].hash == plan.hash && tag in s.open && tag !in s.requests
    case PayWaiting(plan, tag) =>
        tag in s.tables.attempts && s.tables.attempts[tag].hash == plan.hash && (tag in s.open ==> tag in s.requests)
    case PayReturned(plan, tag, result) =>
        tag != NO_LABEL && OutcomeSound(s.tables.attempts, s.open, s.node, plan.hash, tag, result)
  }

  predicate RefundInv(tables: Tables, node: Node, released: set<(Hash, RefundId)>, h: Handler)
    requires !h.IsPay()
  {
    match h
    case RefundSigned(h, r) => h in tables.swaps && forall k :: k in tables.locks && k.RefundLock? ==> k.refundId != r
    case RefundLocked(h, r, noneComplete, _) =>
      RefundLock(h, r) in tables.locks && (noneComplete ==> NoneComplete(node, h))
          && (forall x :: x in released ==> x.1 != r)
    case RefundDenied(h, r) => forall x :: x in released ==> x.1 != r
  }

  ghost predicate HandlerInv(cfg: Config, s: State, h: Handler) {
    if h.IsPay() then PayInv(cfg, s, h) else RefundInv(s.tables, s.node, s.released, h)
  }

  ghost predicate HandlersInv(cfg: Config, s: State) {
    HandlersDistinct(s.handlers) && forall k :: k in s.handlers ==> HandlerInv(cfg, s, s.handlers[k])
  }

  ghost predicate MonitorsInv(s: State) {
    && (forall l :: l in s.monitor.listed ==> l in s.tables.attempts && l !in s.open)
    && s.monitor.todo <= s.monitor.listed && s.monitor.pending <= s.monitor.listed
    && (forall v :: v in s.verdicts ==> OutcomeSound(s.tables.attempts, s.open, s.node, v.hash, v.tag, v.result))
  }

  predicate ReleasedInv(locks: set<Lock>, node: Node, released: set<(Hash, RefundId)>) {
    forall x :: x in released ==> RefundLock(x.0, x.1) in locks && NoneComplete(node, x.0)
  }

  ghost predicate DataInv(cfg: Config, s: State) {
    && TablesInv(s.tables) && AddressesDistinct(s.tables.swaps)
    && AttemptsInv(s.tables.attempts, s.plans)
    && NodeInv(s.tables.attempts, s.node, s.open, s.requests)
    && ResultsSound(s.tables.attempts, s.open, s.node)
    && PreimagesSound(s.tables.swaps, s.node)
    && PlansSound(cfg, s.tables.swaps, s.plans, s.node)
    && ReleasedInv(s.tables.locks, s.node, s.released)
  }

  ghost predicate Inv(cfg: Config, s: State) {
    DataInv(cfg, s) && HandlersInv(cfg, s) && MonitorsInv(s)
  }

  // ------------------------------------------------- what every step leaves

  /** No step takes back what an outcome rests on. */
  ghost predicate Grows(s: State, s': State) {
    && (forall l ::
        l in s.tables.attempts ==> l in s'.tables.attempts && s'.tables.attempts[l].hash == s.tables.attempts[l].hash)
    && (forall l :: l in s.tables.attempts && l !in s.open ==> l !in s'.open)
    && (forall l ::
        l in s.node ==>
          && l in s'.node && s'.node[l].hash == s.node[l].hash
          && (s.node[l].status.Pending? || s'.node[l] == s.node[l]))
    && (forall l :: l in s'.node ==> l in s.node || l in s.open)
  }

  ghost predicate SwapsGrow(swaps: map<Hash, SwapRow>, swaps': map<Hash, SwapRow>) {
    forall h :: h in swaps ==>
        h in swaps' && swaps'[h].lockTime == swaps[h].lockTime && swaps'[h].address == swaps[h].address
  }

  lemma {:induction false} OutcomeStays(s: State, s': State, h: Hash, tag: Label, result: PaymentResult)
    requires Grows(s, s') && OutcomeSound(s.tables.attempts, s.open, s.node, h, tag, result)
    ensures OutcomeSound(s'.tables.attempts, s'.open, s'.node, h, tag, result)
  {
  }

  lemma {:induction false} MonitorsStay(s: State, s': State)
    requires Grows(s, s') && MonitorsInv(s) && s'.monitor == s.monitor && s'.verdicts <= s.verdicts
    ensures MonitorsInv(s')
  {
  }

  /** A pay handler survives a step that does not touch its own label's stage. */
  lemma {:induction false} PayStays(cfg: Config, s: State, s': State, h: Handler)
    requires Grows(s, s') && SwapsGrow(s.tables.swaps, s'.tables.swaps)
    requires h.IsPay() && PayInv(cfg, s, h)
    requires h.PayChecked? ==> h.tag !in s'.tables.attempts
    requires h.PayLocked? ==> h.tag in s'.open && h.tag !in s'.requests
    requires h.PayWaiting? ==> (h.tag in s'.open ==> h.tag in s'.requests)
    ensures PayInv(cfg, s', h)
  {
    if h.PayReturned? { OutcomeStays(s, s', h.plan.hash, h.tag, h.result); }
  }

  lemma {:induction false} PlanStays(cfg: Config, swaps: map<Hash, SwapRow>, swaps': map<Hash, SwapRow>,
      plans: map<Label, PayPlan>,
      node: Node)
    requires SwapsGrow(swaps, swaps') && PlansSound(cfg, swaps, plans, node)
    ensures PlansSound(cfg, swaps', plans, node)
  {
  }

  // ------------------------------------------- steps that change the tables

  lemma {:induction false} AddSwapKeeps(cfg: Config, s: State, hash: Hash, row: SwapRow)
    requires Inv(cfg, s) && Enabled(cfg, s, AddSwap(hash, row))
    ensures Inv(cfg, Apply(cfg, s, AddSwap(hash, row)))
  {
    var s' := Apply(cfg, s, AddSwap(hash, row));
    assert Grows(s, s') && SwapsGrow(s.tables.swaps, s'.tables.swaps);
    assert DataInv(cfg, s') by { AddSwapKeepsData(cfg, s, s', hash, row); }
    MonitorsStay(s, s');
    forall k | k in s'.handlers ensures HandlerInv(cfg, s', s'.handlers[k]) {
      if s.handlers[k].IsPay() { PayStays(cfg, s, s', s.handlers[k]); }
    }
  }

  lemma {:induction false} AddSwapKeepsData(cfg: Config, s: State, s': State, hash: Hash, row: SwapRow)
    requires DataInv(cfg, s) && Enabled(cfg, s, AddSwap(hash, row)) && s' == Apply(cfg, s, AddSwap(hash, row))
    ensures DataInv(cfg, s')
  {
    PlanStays(cfg, s.tables.swaps, s'.tables.swaps, s.plans, s.node);
  }

  lemma {:induction false} LockRefundKeepsHandlers(cfg: Config, s: State, s': State, id: HandlerId, t': Tables)
    requires HandlersInv(cfg, s) && id in s.handlers && s.handlers[id].RefundSigned?
    requires forall x :: x in s.released ==> RefundLock(x.0, x.1) in s.tables.locks
    requires t' == s.tables.(locks := s.tables.locks + {RefundLock(s.handlers[id].hash, s.handlers[id].refundId)})
    requires s' == Moved(s, id, RefundLocked(s.handlers[id].hash, s.handlers[id].refundId, false, false)).(tables := t')
    ensures HandlersInv(cfg, s')
  {
    assert HandlerInv(cfg, s, s.handlers[id]);
    forall k | k in s'.handlers ensures HandlerInv(cfg, s', s'.handlers[k]) {
      assert HandlerInv(cfg, s, s.handlers[k]);
      if k != id && s.handlers[k].IsPay() { PayStays(cfg, s, s', s.handlers[k]); }
    }
    HandlersStayDistinct(s.handlers, id, s'.handlers[id]);
  }

  /** Refund locks are all these steps add or remove. */
  lemma {:induction false} LocksKeepData(cfg: Config, s: State, s': State)
    requires DataInv(cfg, s) && MonitorsInv(s) && TablesInv(s'.tables)
    requires s' == s.(handlers := s'.handlers, tables := s.tables.(locks := s'.tables.locks))
    requires forall x :: x in s.released ==> RefundLock(x.0, x.1) in s'.tables.locks
    ensures DataInv(cfg, s') && MonitorsInv(s')
  {
  }

  lemma {:induction false} LockRefundKeeps(cfg: Config, s: State, id: HandlerId)
    requires Inv(cfg, s) && Enabled(cfg, s, LockRefund(id))
    ensures Inv(cfg, Apply(cfg, s, LockRefund(id)))
  {
    var s' := Apply(cfg, s, LockRefund(id));
    LockRefundKeepsInv(s.tables, s.handlers[id].hash, s.handlers[id].refundId);
    LocksKeepData(cfg, s, s');
    LockRefundKeepsHandlers(cfg, s, s', id, s'.tables);
  }

  lemma {:induction false} UnlockRefundKeepsHandlers(cfg: Config, s: State, s': State, id: HandlerId)
    requires HandlersInv(cfg, s) && id in s.handlers && s.handlers[id].RefundDenied?
    requires s' == Gone(s, id).(tables := s.tables.(locks := s'.tables.locks))
    requires s'.tables.locks == s.tables.locks
        || s'.tables.locks == s.tables.locks - {RefundLock(s.handlers[id].hash, s.handlers[id].refundId)}
    ensures HandlersInv(cfg, s')
  {
  }

  lemma {:induction false} UnlockRefundKeeps(cfg: Config, s: State, id: HandlerId)
    requires Inv(cfg, s) && Enabled(cfg, s, UnlockRefund(id))
    ensures Inv(cfg, Apply(cfg, s, UnlockRefund(id)))
  {
    var s' := Apply(cfg, s, UnlockRefund(id));
    var h := s.handlers[id];
    assert HandlerInv(cfg, s, h);
    UnlockRefundKeepsInv(s.tables, h.hash, h.refundId);
    LocksKeepData(cfg, s, s');
    UnlockRefundKeepsHandlers(cfg, s, s', id);
  }

  lemma {:induction false} NewAttemptKeepsNode(attempts: Attempts, plans: map<Label, PayPlan>, node: Node,
      open: set<Label>,
      requests: set<Label>,
                                               tag: Label, plan: PayPlan)
    requires AttemptsInv(attempts, plans) && NodeInv(attempts, node, open, requests)
        && ResultsSound(attempts, open, node)
    requires tag !in attempts && tag != NO_LABEL
    ensures AttemptsInv(attempts[tag := NewAttempt(plan)], plans[tag := plan])
    ensures NodeInv(attempts[tag := NewAttempt(plan)], node, open + {tag}, requests)
    ensures ResultsSound(attempts[tag := NewAttempt(plan)], open + {tag}, node)
  {
  }

  lemma {:induction false} NewPlanSound(cfg: Config, swaps: map<Hash, SwapRow>, plans: map<Label, PayPlan>, node: Node,
      tag: Label,
      plan: PayPlan)
    requires PlansSound(cfg, swaps, plans, node) && tag !in plans
    requires plan.hash in swaps && PlanSound(cfg, swaps[plan.hash].lockTime, plan)
    ensures PlansSound(cfg, swaps, plans[tag := plan], node)
  {
  }

  lemma {:induction false} LockPayKeepsData(cfg: Config, s: State, s': State, plan: PayPlan, tag: Label)
    requires DataInv(cfg, s) && LockAddPaymentAttempt(s.tables, tag, NewAttempt(plan)).Ok?
    requires tag !in s.tables.attempts && tag != NO_LABEL
    requires plan.hash in s.tables.swaps && PlanSound(cfg, s.tables.swaps[plan.hash].lockTime, plan)
    requires s'.tables == LockAddPaymentAttempt(s.tables, tag, NewAttempt(plan)).value
    requires s'.plans == s.plans[tag := plan] && s'.open == s.open + {tag}
    requires s'.node == s.node && s'.requests == s.requests && s'.released == s.released
    ensures DataInv(cfg, s')
  {
    LockPaymentKeepsInv(s.tables, tag, NewAttempt(plan));
    NewAttemptKeepsNode(s.tables.attempts, s.plans, s.node, s.open, s.requests, tag, plan);
    NewPlanSound(cfg, s.tables.swaps, s.plans, s.node, tag, plan);
  }

  lemma {:induction false} LockPayGrows(s: State, s': State, tag: Label, a: Attempt)
    requires tag !in s.tables.attempts && LockAddPaymentAttempt(s.tables, tag, a).Ok?
    requires s'.tables == LockAddPaymentAttempt(s.tables, tag, a).value && s'.node == s.node
        && s'.open == s.open + {tag}
    ensures Grows(s, s')
  {
  }

  lemma {:induction false} LockPayKeeps(cfg: Config, s: State, id: HandlerId)
    requires Inv(cfg, s) && Enabled(cfg, s, LockPay(id))
    ensures Inv(cfg, Apply(cfg, s, LockPay(id)))
  {
    var s' := Apply(cfg, s, LockPay(id));
    var h := s.handlers[id];
    assert HandlerInv(cfg, s, h);
    assert DataInv(cfg, s') by { LockPayKeepsData(cfg, s, s', h.plan, h.tag); }
    assert HandlersInv(cfg, s') && MonitorsInv(s') by {
      LockPayGrows(s, s', h.tag, NewAttempt(h.plan));
      MonitorsStay(s, s');
      LockPayKeepsHandlers(cfg, s, s', id);
    }
  }

  lemma {:induction false} LockPayKeepsHandlers(cfg: Config, s: State, s': State, id: HandlerId)
    requires HandlersInv(cfg, s) && id in s.handlers && s.handlers[id].PayChecked? && s.requests <= s.open
        && s.open <= s.tables.attempts.Keys
    requires s'.handlers == s.handlers[id := PayLocked(s.handlers[id].plan, s.handlers[id].tag)]
    requires Grows(s, s') && SwapsGrow(s.tables.swaps, s'.tables.swaps)
    requires s'.tables.attempts == s.tables.attempts[s.handlers[id].tag := NewAttempt(s.handlers[id].plan)]
    requires s'.tables.locks == s.tables.locks + {PaymentLock(s.handlers[id].plan.hash, s.handlers[id].tag)}
    requires s'.open == s.open + {s.handlers[id].tag} && s'.requests == s.requests && s'.node == s.node
        && s'.released == s.released
    ensures HandlersInv(cfg, s')
  {
    assert HandlerInv(cfg, s, s.handlers[id]);
    forall k | k in s'.handlers ensures HandlerInv(cfg, s', s'.handlers[k]) {
      if k != id { LockPayKeepsOther(cfg, s, s', id, k); }
    }
    HandlersStayDistinct(s.handlers, id, s'.handlers[id]);
  }

  lemma {:induction false} LockPayKeepsOther(cfg: Config, s: State, s': State, id: HandlerId, k: HandlerId)
    requires HandlersInv(cfg, s) && k in s.handlers && id in s.handlers && k != id && s.handlers[id].PayChecked?
    requires Grows(s, s') && SwapsGrow(s.tables.swaps, s'.tables.swaps)
    requires s'.tables.attempts.Keys == s.tables.attempts.Keys + {s.handlers[id].tag}
    requires s'.tables.locks == s.tables.locks + {PaymentLock(s.handlers[id].plan.hash, s.handlers[id].tag)}
    requires s'.open == s.open + {s.handlers[id].tag} && s'.requests == s.requests && s'.node == s.node
        && s'.released == s.released
    ensures HandlerInv(cfg, s', s.handlers[k])
  {
  }

  /** Moving on, a handler keeps its label or refund id. */
  lemma {:induction false} HandlersStayDistinct(handlers: map<HandlerId, Handler>, id: HandlerId, h: Handler)
    requires HandlersDistinct(handlers) && id in handlers && handlers[id].IsPay() == h.IsPay()
    requires if h.IsPay() then handlers[id].tag == h.tag else handlers[id].refundId == h.refundId
    ensures HandlersDistinct(handlers[id := h])
  {
  }

  lemma {:induction false} RecordKeepsResults(attempts: Attempts, plans: map<Label, PayPlan>, node: Node,
      open: set<Label>,
      requests: set<Label>,
                                              h: Hash, tag: Label, result: PaymentResult)
    requires AttemptsInv(attempts, plans) && NodeInv(attempts, node, open, requests)
        && ResultsSound(attempts, open, node)
    requires OutcomeSound(attempts, open, node, h, tag, result) && tag in attempts
    ensures var attempts' := attempts[tag := attempts[tag].(success := Some(result.Success?))];
            AttemptsInv(attempts', plans) && NodeInv(attempts', node, open, requests)
                && ResultsSound(attempts', open, node)
  {
  }

  lemma {:induction false} RecordKeepsPreimages(swaps: map<Hash, SwapRow>, node: Node, h: Hash, p: Preimage)
    requires PreimagesSound(swaps, node) && h in swaps && PaidWith(node, h, p)
    ensures PreimagesSound(swaps[h := swaps[h].(preimage := Some(p))], node)
  {
  }

  lemma {:induction false} RecordedShape(t: Tables, h: Hash, tag: Label, result: PaymentResult)
    ensures var t' := Recorded(t, h, tag, result);
            && t'.attempts.Keys == t.attempts.Keys
            && (forall l :: l in t.attempts ==> t'.attempts[l].hash == t.attempts[l].hash)
            && t'.locks <= t.locks && (forall k :: k in t.locks && k.RefundLock? ==> k in t'.locks)
            && SwapsGrow(t.swaps, t'.swaps) && t'.swaps.Keys == t.swaps.Keys
  {
  }

  lemma {:induction false} RecordGrows(s: State, s': State, h: Hash, tag: Label, result: PaymentResult)
    requires s'.tables == Recorded(s.tables, h, tag, result) && s'.node == s.node && s'.open == s.open
    ensures Grows(s, s')
  {
  }

  lemma {:induction false} RecordKeepsData(cfg: Config, s: State, s': State, h: Hash, tag: Label, result: PaymentResult)
    requires DataInv(cfg, s) && OutcomeSound(s.tables.attempts, s.open, s.node, h, tag, result) && h in s.tables.swaps
    requires s'.tables == Recorded(s.tables, h, tag, result)
    requires s'.plans == s.plans && s'.node == s.node && s'.open == s.open && s'.requests == s.requests
        && s'.released == s.released
    ensures DataInv(cfg, s')
  {
    RecordedShape(s.tables, h, tag, result);
    assert TablesInv(s'.tables) by { UnlockPaymentKeepsInv(s.tables, h, tag, result); }
    assert PreimagesSound(s'.tables.swaps, s'.node) by {
      if result.Success? {
        assert PaidWith(s.node, h, result.preimage);
        RecordKeepsPreimages(s.tables.swaps, s.node, h, result.preimage);
      }
    }
    if tag in s.tables.attempts {
      RecordKeepsResults(s.tables.attempts, s.plans, s.node, s.open, s.requests, h, tag, result);
    }
    PlanStays(cfg, s.tables.swaps, s'.tables.swaps, s.plans, s.node);
  }

  lemma {:induction false} RecordKeepsHandlers(cfg: Config, s: State, s': State)
    requires HandlersInv(cfg, s) && Grows(s, s') && SwapsGrow(s.tables.swaps, s'.tables.swaps)
    requires s'.tables.attempts.Keys == s.tables.attempts.Keys
    requires forall k :: k in s.tables.locks && k.RefundLock? ==> k in s'.tables.locks
    requires s'.tables.locks <= s.tables.locks
    requires s'.open == s.open && s'.requests == s.requests && s'.node == s.node && s'.released == s.released
    requires forall k :: k in s'.handlers ==> k in s.handlers && s'.handlers[k] == s.handlers[k]
    ensures HandlersInv(cfg, s')
  {
    forall k | k in s'.handlers ensures HandlerInv(cfg, s', s'.handlers[k]) {
      assert HandlerInv(cfg, s, s.handlers[k]);
      if s.handlers[k].IsPay() { PayStays(cfg, s, s', s.handlers[k]); }
    }
  }

  /** Writing a sound outcome keeps everything, whoever writes it. */
  lemma {:induction false} RecordKeeps(cfg: Config, s: State, s': State, h: Hash, tag: Label, result: PaymentResult)
    requires Inv(cfg, s) && OutcomeSound(s.tables.attempts, s.open, s.node, h, tag, result)
    requires s' == s.(tables := Recorded(s.tables, h, tag, result), handlers := s'.handlers, verdicts := s'.verdicts,
        revised := s'.revised)
    requires forall k :: k in s'.handlers ==> k in s.handlers && s'.handlers[k] == s.handlers[k]
    requires s'.verdicts <= s.verdicts
    ensures Inv(cfg, s')
  {
    assert DataInv(cfg, s') by {
      if h in s.tables.swaps { RecordKeepsData(cfg, s, s', h, tag, result); }
    }
    assert HandlersInv(cfg, s') && MonitorsInv(s') by {
      RecordGrows(s, s', h, tag, result);
      RecordedShape(s.tables, h, tag, result);
      MonitorsStay(s, s');
      RecordKeepsHandlers(cfg, s, s');
    }
  }

  lemma {:induction false} RecordPayKeeps(cfg: Config, s: State, id: HandlerId)
    requires Inv(cfg, s) && Enabled(cfg, s, RecordPay(id))
    ensures Inv(cfg, Apply(cfg, s, RecordPay(id)))
  {
    var h := s.handlers[id];
    assert HandlerInv(cfg, s, h);
    RecordKeeps(cfg, s, Apply(cfg, s, RecordPay(id)), h.plan.hash, h.tag, h.result);
  }

  lemma {:induction false} ApplyVerdictKeeps(cfg: Config, s: State, verdict: Verdict)
    requires Inv(cfg, s) && Enabled(cfg, s, ApplyVerdict(verdict))
    ensures Inv(cfg, Apply(cfg, s, ApplyVerdict(verdict)))
  {
    RecordKeeps(cfg, s, Apply(cfg, s, ApplyVerdict(verdict)), verdict.hash, verdict.tag, verdict.result);
  }

  // --------------------------------------------- steps of handlers and node

  lemma {:induction false} SameData(cfg: Config, s: State, s': State)
    requires s' == s.(handlers := s'.handlers)
    requires DataInv(cfg, s) && MonitorsInv(s)
    ensures DataInv(cfg, s') && MonitorsInv(s')
  {
  }

  ghost predicate SameRequest(h: Handler, h': Handler) {
    h.IsPay() == h'.IsPay() && if h.IsPay() then h.tag == h'.tag else h.refundId == h'.refundId
  }

  lemma {:induction false} HandlersMove(cfg: Config, s: State, id: HandlerId, h: Handler)
    requires HandlersInv(cfg, s) && HandlerInv(cfg, s, h)
    requires if id in s.handlers then SameRequest(s.handlers[id], h)
             else if h.IsPay() then FreshLabel(s, h.tag) else FreshRefundId(s, h.refundId)
    ensures HandlersInv(cfg, Moved(s, id, h))
  {
  }

  /** A handler may enter any stage whose facts hold. */
  lemma {:induction false} HandlerMoveKeeps(cfg: Config, s: State, id: HandlerId, h: Handler)
    requires Inv(cfg, s) && HandlerInv(cfg, s, h)
    requires if id in s.handlers then SameRequest(s.handlers[id], h)
             else if h.IsPay() then FreshLabel(s, h.tag) else FreshRefundId(s, h.refundId)
    ensures Inv(cfg, Moved(s, id, h))
  {
    SameData(cfg, s, Moved(s, id, h));
    HandlersMove(cfg, s, id, h);
  }

  lemma {:induction false} HandlersLeave(cfg: Config, s: State, id: HandlerId)
    requires HandlersInv(cfg, s)
    ensures HandlersInv(cfg, Gone(s, id))
  {
  }

  lemma {:induction false} StartPayKeeps(cfg: Config, s: State, id: HandlerId, tag: Label, req: PayRequest,
      obs: Observed)
    requires Inv(cfg, s) && Enabled(cfg, s, StartPay(id, tag, req, obs))
    ensures Inv(cfg, Apply(cfg, s, StartPay(id, tag, req, obs)))
  {
    var swap := s.tables.swaps[req.hash];
    ChecksGiveSoundPlan(cfg, req, swap.lockTime, swap.preimage, obs);
    HandlerMoveKeeps(cfg, s, id, PayChecked(PayChecks(cfg, req, swap.lockTime, swap.preimage, obs).value, tag));
  }

  lemma {:induction false} PayReturnsKeeps(cfg: Config, s: State, id: HandlerId, result: PaymentResult)
    requires Inv(cfg, s) && Enabled(cfg, s, PayReturns(id, result))
    ensures Inv(cfg, Apply(cfg, s, PayReturns(id, result)))
  {
    var h := s.handlers[id];
    assert HandlerInv(cfg, s, h);
    HandlerMoveKeeps(cfg, s, id, PayReturned(h.plan, h.tag, result));
  }

  lemma {:induction false} SendPayKeepsHandlers(cfg: Config, s: State, s': State, id: HandlerId)
    requires HandlersInv(cfg, s) && id in s.handlers && s.handlers[id].PayLocked?
    requires s' == s.(handlers := s.handlers[id := PayWaiting(s.handlers[id].plan, s.handlers[id].tag)],
                      requests := s.requests + {s.handlers[id].tag})
    ensures HandlersInv(cfg, s')
  {
  }

  lemma {:induction false} SendPayKeepsData(cfg: Config, s: State, s': State, tag: Label)
    requires DataInv(cfg, s) && MonitorsInv(s) && tag in s.open
    requires s' == s.(handlers := s'.handlers, requests := s.requests + {tag})
    ensures DataInv(cfg, s') && MonitorsInv(s')
  {
  }

  lemma {:induction false} SendPayKeeps(cfg: Config, s: State, id: HandlerId)
    requires Inv(cfg, s) && Enabled(cfg, s, SendPay(id))
    ensures Inv(cfg, Apply(cfg, s, SendPay(id)))
  {
    var s' := Apply(cfg, s, SendPay(id));
    assert HandlerInv(cfg, s, s.handlers[id]);
    SendPayKeepsData(cfg, s, s', s.handlers[id].tag);
    SendPayKeepsHandlers(cfg, s, s', id);
  }

  /** Under a refund lock no attempt of the swap can reach the node or complete. */
  lemma {:induction false} NoneCompleteStays(cfg: Config, s: State, s': State, h: Hash, r: RefundId)
    requires DataInv(cfg, s) && Grows(s, s')
    requires RefundLock(h, r) in s.tables.locks && NoneComplete(s.node, h)
    requires forall l :: l in s'.node && l !in s.node ==> s'.node[l].hash == s.tables.attempts[l].hash
    ensures NoneComplete(s'.node, h)
  {
    RefundLockSettlesAttempts(s.tables, h, r);
  }

  /** Steps of the node: requests are taken up, pending payments end. */
  ghost predicate NodeStep(s: State, s': State) {
    && s' == s.(node := s'.node, open := s'.open, requests := s'.requests)
    && s'.open <= s.open && s'.requests == s.requests * s'.open
    && (forall l :: l in s.open && l !in s.requests ==> l in s'.open)
    && (forall l :: l in s.open ==> l in s'.open || l in s.requests)
    && (forall l ::
        l in s.node ==>
          && l in s'.node && s'.node[l].(status := s.node[l].status) == s.node[l]
          && (s.node[l].status.Pending? || s'.node[l] == s.node[l]))
    && (forall l ::
        l in s'.node && l !in s.node ==>
        l in s.requests && l !in s'.open && l in s.plans
        && s'.node[l] == NodePayment(s.plans[l].hash, Pending, s.plans[l].cltvLimit))
  }

  /** The node takes up a request or refuses it for good. */
  lemma {:induction false} ConsumingIsNodeStep(s: State, s': State, tag: Label)
    requires NodeInv(s.tables.attempts, s.node, s.open, s.requests) && tag in s.requests
    requires s' == s.(requests := s.requests - {tag}, open := s.open - {tag}, node := s'.node)
    requires s'.node == s.node || (tag in s.plans
        && s'.node == s.node[tag := NodePayment(s.plans[tag].hash, Pending, s.plans[tag].cltvLimit)])
    ensures NodeStep(s, s')
  {
  }

  /** A pending payment ends. */
  lemma {:induction false} EndingIsNodeStep(s: State, s': State, tag: Label, status: NodeStatus)
    requires s.requests <= s.open && tag in s.node && s.node[tag].status.Pending?
    requires s' == s.(node := s.node[tag := s.node[tag].(status := status)])
    ensures NodeStep(s, s')
  {
  }

  lemma {:induction false} NodeStepKeepsPreimages(s: State, s': State)
    requires NodeStep(s, s') && Grows(s, s') && PreimagesSound(s.tables.swaps, s.node)
    ensures PreimagesSound(s'.tables.swaps, s'.node)
  {
  }

  lemma {:induction false} NodeStepKeepsNode(s: State, s': State)
    requires NodeStep(s, s') && AttemptsInv(s.tables.attempts, s.plans)
    requires NodeInv(s.tables.attempts, s.node, s.open, s.requests) && ResultsSound(s.tables.attempts, s.open, s.node)
    ensures Grows(s, s')
    ensures NodeInv(s'.tables.attempts, s'.node, s'.open, s'.requests)
        && ResultsSound(s'.tables.attempts, s'.open, s'.node)
  {
  }

  lemma {:induction false} NodeStepKeepsData(cfg: Config, s: State, s': State)
    requires DataInv(cfg, s) && NodeStep(s, s')
    ensures DataInv(cfg, s') && Grows(s, s')
  {
    NodeStepKeepsNode(s, s');
    NodeStepKeepsPreimages(s, s');
    assert PlansSound(cfg, s'.tables.swaps, s'.plans, s'.node);
    forall x | x in s'.released ensures RefundLock(x.0, x.1) in s'.tables.locks && NoneComplete(s'.node, x.0) {
      NoneCompleteStays(cfg, s, s', x.0, x.1);
    }
  }

  lemma {:induction false} NodeStepKeeps(cfg: Config, s: State, s': State)
    requires Inv(cfg, s) && NodeStep(s, s')
    ensures Inv(cfg, s')
  {
    NodeStepKeepsData(cfg, s, s');
    MonitorsStay(s, s');
    forall k | k in s'.handlers ensures HandlerInv(cfg, s', s'.handlers[k]) {
      var h := s.handlers[k];
      assert HandlerInv(cfg, s, h);
      if h.IsPay() {
        PayStays(cfg, s, s', h);
      } else if h.RefundLocked? && h.noneComplete {
        NoneCompleteStays(cfg, s, s', h.hash, h.refundId);
      }
    }
  }

  lemma {:induction false} StartRefundKeeps(cfg: Config, s: State, id: HandlerId, hash: Hash, refundId: RefundId)
    requires Inv(cfg, s) && Enabled(cfg, s, StartRefund(id, hash, refundId))
    ensures Inv(cfg, Apply(cfg, s, StartRefund(id, hash, refundId)))
  {
    HandlerMoveKeeps(cfg, s, id, RefundSigned(hash, refundId));
  }

  lemma {:induction false} SeeNoneCompleteKeeps(cfg: Config, s: State, id: HandlerId)
    requires Inv(cfg, s) && Enabled(cfg, s, SeeNoneComplete(id))
    ensures Inv(cfg, Apply(cfg, s, SeeNoneComplete(id)))
  {
    assert HandlerInv(cfg, s, s.handlers[id]);
    HandlerMoveKeeps(cfg, s, id, s.handlers[id].(noneComplete := true));
  }

  lemma {:induction false} SeeNonePendingKeeps(cfg: Config, s: State, id: HandlerId)
    requires Inv(cfg, s) && Enabled(cfg, s, SeeNonePending(id))
    ensures Inv(cfg, Apply(cfg, s, SeeNonePending(id)))
  {
    assert HandlerInv(cfg, s, s.handlers[id]);
    HandlerMoveKeeps(cfg, s, id, s.handlers[id].(nonePending := true));
  }

  lemma {:induction false} DenyRefundKeeps(cfg: Config, s: State, id: HandlerId)
    requires Inv(cfg, s) && Enabled(cfg, s, DenyRefund(id))
    ensures Inv(cfg, Apply(cfg, s, DenyRefund(id)))
  {
    assert HandlerInv(cfg, s, s.handlers[id]);
    HandlerMoveKeeps(cfg, s, id, RefundDenied(s.handlers[id].hash, s.handlers[id].refundId));
  }

  /** Handing out a signature: the lock stays behind, and other refunds of the swap have ids of their own. */
  lemma {:induction false} ReleaseKeepsHandlers(cfg: Config, s: State, id: HandlerId)
    requires HandlersInv(cfg, s) && id in s.handlers && s.handlers[id].RefundLocked?
    ensures HandlersInv(cfg, Gone(s, id).(released := s.released + {(s.handlers[id].hash, s.handlers[id].refundId)}))
  {
  }

  lemma {:induction false} ReleaseRefundKeeps(cfg: Config, s: State, id: HandlerId)
    requires Inv(cfg, s) && Enabled(cfg, s, ReleaseRefund(id))
    ensures Inv(cfg, Apply(cfg, s, ReleaseRefund(id)))
  {
    var s' := Apply(cfg, s, ReleaseRefund(id));
    assert HandlerInv(cfg, s, s.handlers[id]);
    SameData(cfg, s, Gone(s, id));
    assert ReleasedInv(s'.tables.locks, s'.node, s'.released);
    ReleaseKeepsHandlers(cfg, s, id);
  }

  lemma {:induction false} DropKeeps(cfg: Config, s: State, id: HandlerId)
    requires Inv(cfg, s) && Enabled(cfg, s, Drop(id))
    ensures Inv(cfg, Apply(cfg, s, Drop(id)))
  {
    SameData(cfg, s, Gone(s, id));
    HandlersLeave(cfg, s, id);
  }

  /** Going through its list, the monitor never takes up other attempts. */
  lemma {:induction false} RoundsKeep(cfg: Config, s: State, s': State)
    requires Inv(cfg, s) && s' == s.(monitor := s'.monitor)
    requires s'.monitor.listed <= s.monitor.listed
    requires s'.monitor.todo <= s'.monitor.listed && s'.monitor.pending <= s'.monitor.listed
    ensures Inv(cfg, s')
  {
    forall k | k in s'.handlers ensures HandlerInv(cfg, s', s'.handlers[k]) {
      assert HandlerInv(cfg, s, s.handlers[k]);
    }
  }

  lemma {:induction false} HearPendingKeeps(cfg: Config, s: State, tag: Label)
    requires Inv(cfg, s) && Enabled(cfg, s, HearPending(tag))
    ensures Inv(cfg, Apply(cfg, s, HearPending(tag)))
  {
    hide DataInv, HandlersInv;
    RoundsKeep(cfg, s, Apply(cfg, s, HearPending(tag)));
  }

  lemma {:induction false} RoundEndsKeeps(cfg: Config, s: State)
    requires Inv(cfg, s) && Enabled(cfg, s, RoundEnds)
    ensures Inv(cfg, Apply(cfg, s, RoundEnds))
  {
    hide DataInv, HandlersInv;
    RoundsKeep(cfg, s, Apply(cfg, s, RoundEnds));
  }

  lemma {:induction false} RoundFailsKeeps(cfg: Config, s: State)
    requires Inv(cfg, s) && Enabled(cfg, s, RoundFails)
    ensures Inv(cfg, Apply(cfg, s, RoundFails))
  {
    hide DataInv, HandlersInv;
    RoundsKeep(cfg, s, Apply(cfg, s, RoundFails));
  }

  /** A monitor may note any outcome the node vouches for. */
  lemma {:induction false} VerdictKeeps(cfg: Config, s: State, v: Verdict)
    requires Inv(cfg, s) && OutcomeSound(s.tables.attempts, s.open, s.node, v.hash, v.tag, v.result)
    ensures Inv(cfg, s.(verdicts := s.verdicts + {v}))
  {
    var s' := s.(verdicts := s.verdicts + {v});
    forall k | k in s'.handlers ensures HandlerInv(cfg, s', s'.handlers[k]) {
      assert HandlerInv(cfg, s, s.handlers[k]);
    }
  }

  lemma {:induction false} AskHistoricalKeeps(cfg: Config, s: State, tag: Label, result: PaymentResult)
    requires Inv(cfg, s) && Enabled(cfg, s, AskHistorical(tag, result))
    ensures Inv(cfg, Apply(cfg, s, AskHistorical(tag, result)))
  {
    RoundsKeep(cfg, s, s.(monitor := s.monitor.(todo := s.monitor.todo - {tag})));
    VerdictKeeps(cfg, s.(monitor := s.monitor.(todo := s.monitor.todo - {tag})),
                 Verdict(s.tables.attempts[tag].hash, tag, result));
  }

  lemma {:induction false} RestartKeeps(cfg: Config, s: State)
    requires Inv(cfg, s)
    ensures Inv(cfg, Apply(cfg, s, Restart))
  {
  }

  lemma {:induction false} NodeAcceptsKeeps(cfg: Config, s: State, tag: Label)
    requires Inv(cfg, s) && Enabled(cfg, s, NodeAccepts(tag))
    ensures Inv(cfg, Apply(cfg, s, NodeAccepts(tag)))
  {
    var s' := Apply(cfg, s, NodeAccepts(tag));
    ConsumingIsNodeStep(s, s', tag);
    NodeStepKeeps(cfg, s, s');
  }

  lemma {:induction false} NodeRejectsKeeps(cfg: Config, s: State, tag: Label)
    requires Inv(cfg, s) && Enabled(cfg, s, NodeRejects(tag))
    ensures Inv(cfg, Apply(cfg, s, NodeRejects(tag)))
  {
    var s' := Apply(cfg, s, NodeRejects(tag));
    ConsumingIsNodeStep(s, s', tag);
    NodeStepKeeps(cfg, s, s');
  }

  lemma {:induction false} NodeFailsKeeps(cfg: Config, s: State, tag: Label)
    requires Inv(cfg, s) && Enabled(cfg, s, NodeFails(tag))
    ensures Inv(cfg, Apply(cfg, s, NodeFails(tag)))
  {
    var s' := Apply(cfg, s, NodeFails(tag));
    EndingIsNodeStep(s, s', tag, Failed);
    NodeStepKeeps(cfg, s, s');
  }

  lemma {:induction false} NodeCompletesKeeps(cfg: Config, s: State, tag: Label, preimage: Preimage)
    requires Inv(cfg, s) && Enabled(cfg, s, NodeCompletes(tag, preimage))
    ensures Inv(cfg, Apply(cfg, s, NodeCompletes(tag, preimage)))
  {
    var s' := Apply(cfg, s, NodeCompletes(tag, preimage));
    EndingIsNodeStep(s, s', tag, Complete(preimage));
    NodeStepKeeps(cfg, s, s');
  }

  lemma {:induction false} AskPreimageKeeps(cfg: Config, s: State, hash: Hash, tag: Label, preimage: Preimage)
    requires Inv(cfg, s) && Enabled(cfg, s, AskPreimage(hash, tag, preimage))
    ensures Inv(cfg, Apply(cfg, s, AskPreimage(hash, tag, preimage)))
  {
    VerdictKeeps(cfg, s, Verdict(hash, tag, Success(preimage)));
  }

  // ------------------------------------------------------------------ runs

  const INITIAL :=
    State(Tables(map[], map[], {}), map[], {}, {}, map[], Rounds({}, {}, {}, false), {}, map[], {}, {}, {})

  predicate Init(s: State) {
    s == INITIAL
  }

  ghost predicate Step(cfg: Config, s: State, a: Action, s': State) {
    Enabled(cfg, s, a) && s' == Apply(cfg, s, a)
  }

  /** Any interleaving, of any length, with restarts anywhere. */
  ghost predicate IsRun(cfg: Config, states: seq<State>, actions: seq<Action>) {
    && |states| == |actions| + 1
    && Init(states[0])
    && forall i :: 0 <= i < |actions| ==> Step(cfg, states[i], actions[i], states[i + 1])
  }

  lemma {:induction false} InitHasInv(cfg: Config, s: State)
    requires Init(s)
    ensures Inv(cfg, s)
  {
  }

  predicate IsPayStep(a: Action) { a.StartPay? || a.LockPay? || a.SendPay? || a.PayReturns? || a.RecordPay? }

  predicate IsRefundStep(a: Action) {
    a.StartRefund? || a.LockRefund? || a.SeeNoneComplete? || a.SeeNonePending? || a.DenyRefund? || a.UnlockRefund?
        || a.ReleaseRefund?
  }

  lemma {:induction false} PayStepKeepsInv(cfg: Config, s: State, a: Action)
    requires Inv(cfg, s) && Enabled(cfg, s, a) && IsPayStep(a)
    ensures Inv(cfg, Apply(cfg, s, a))
  {
    hide Inv, Enabled, Apply;
    match a
    case StartPay(id, tag, req, obs) => StartPayKeeps(cfg, s, id, tag, req, obs);
    case LockPay(id) => LockPayKeeps(cfg, s, id);
    case SendPay(id) => SendPayKeeps(cfg, s, id);
    case PayReturns(id, result) => PayReturnsKeeps(cfg, s, id, result);
    case RecordPay(id) => RecordPayKeeps(cfg, s, id);
  }

  lemma {:induction false} RefundStepKeepsInv(cfg: Config, s: State, a: Action)
    requires Inv(cfg, s) && Enabled(cfg, s, a) && IsRefundStep(a)
    ensures Inv(cfg, Apply(cfg, s, a))
  {
    hide Inv, Enabled, Apply;
    match a
    case StartRefund(id, h, r) => StartRefundKeeps(cfg, s, id, h, r);
    case LockRefund(id) => LockRefundKeeps(cfg, s, id);
    case SeeNoneComplete(id) => SeeNoneCompleteKeeps(cfg, s, id);
    case SeeNonePending(id) => SeeNonePendingKeeps(cfg, s, id);
    case DenyRefund(id) => DenyRefundKeeps(cfg, s, id);
    case UnlockRefund(id) => UnlockRefundKeeps(cfg, s, id);
    case ReleaseRefund(id) => ReleaseRefundKeeps(cfg, s, id);
  }

  lemma {:induction false} OtherStepKeepsInv(cfg: Config, s: State, a: Action)
    requires Inv(cfg, s) && Enabled(cfg, s, a) && !IsPayStep(a) && !IsRefundStep(a)
    ensures Inv(cfg, Apply(cfg, s, a))
  {
    hide Inv, Enabled, Apply;
    match a
    case AddSwap(h, row) => AddSwapKeeps(cfg, s, h, row);
    case Drop(id) => DropKeeps(cfg, s, id);
    case NodeAccepts(tag) => NodeAcceptsKeeps(cfg, s, tag);
    case NodeRejects(tag) => NodeRejectsKeeps(cfg, s, tag);
    case NodeFails(tag) => NodeFailsKeeps(cfg, s, tag);
    case NodeCompletes(tag, p) => NodeCompletesKeeps(cfg, s, tag, p);
    case AskHistorical(tag, result) => AskHistoricalKeeps(cfg, s, tag, result);
    case HearPending(tag) => HearPendingKeeps(cfg, s, tag);
    case RoundEnds => RoundEndsKeeps(cfg, s);
    case RoundFails => RoundFailsKeeps(cfg, s);
    case AskPreimage(h, tag, p) => AskPreimageKeeps(cfg, s, h, tag, p);
    case ApplyVerdict(v) => ApplyVerdictKeeps(cfg, s, v);
    case Restart => RestartKeeps(cfg, s);
  }

  /** Every step keeps the invariant. */
  lemma {:induction false} StepKeepsInv(cfg: Config, s: State, a: Action, s': State)
    requires Inv(cfg, s) && Step(cfg, s, a, s')
    ensures Inv(cfg, s')
  {
    if IsPayStep(a) {
      PayStepKeepsInv(cfg, s, a);
    } else if IsRefundStep(a) {
      RefundStepKeepsInv(cfg, s, a);
    } else {
      OtherStepKeepsInv(cfg, s, a);
    }
  }

  lemma {:induction false} StepKeepsReleased(cfg: Config, s: State, a: Action, s': State)
    requires Step(cfg, s, a, s')
    ensures s.released <= s'.released
  {
  }

  lemma {:induction false} RunKeepsInv(cfg: Config, states: seq<State>, actions: seq<Action>, i: nat)
    requires IsRun(cfg, states, actions) && i < |states|
    ensures Inv(cfg, states[i])
  {
    hide Inv, Enabled, Init;
    if i == 0 {
      InitHasInv(cfg, states[0]);
    } else {
      RunKeepsInv(cfg, states, actions, i - 1);
      assert Step(cfg, states[i - 1], actions[i - 1], states[i - 1 + 1]);
      StepKeepsInv(cfg, states[i - 1], actions[i - 1], states[i]);
    }
  }

  lemma {:induction false} RunKeepsReleased(cfg: Config, states: seq<State>, actions: seq<Action>, i: nat, j: nat)
    requires IsRun(cfg, states, actions) && i <= j < |states|
    ensures states[i].released <= states[j].released
    decreases j - i
  {
    hide Enabled;
    if i < j {
      RunKeepsReleased(cfg, states, actions, i, j - 1);
      assert Step(cfg, states[j - 1], actions[j - 1], states[j - 1 + 1]);
      StepKeepsReleased(cfg, states[j - 1], actions[j - 1], states[j]);
    }
  }

  /** Steps of the node itself. */
  predicate IsNodeStep(a: Action) { a.NodeAccepts? || a.NodeRejects? || a.NodeFails? || a.NodeCompletes? }

  /** Nobody else changes what the node knows. */
  lemma {:induction false} OthersKeepNode(cfg: Config, s: State, a: Action, s': State)
    requires Step(cfg, s, a, s') && !IsNodeStep(a)
    ensures s'.node == s.node
  {
    hide Enabled;
  }

  lemma {:induction false} NodeKeepsComplete(cfg: Config, s: State, a: Action, s': State, l: Label)
    requires Step(cfg, s, a, s') && IsNodeStep(a)
    requires s.requests !! s.node.Keys && l in s.node && s.node[l].status.Complete?
    ensures l in s'.node && s'.node[l] == s.node[l]
  {
  }

  lemma {:induction false} StepKeepsComplete(cfg: Config, s: State, a: Action, s': State, l: Label)
    requires Step(cfg, s, a, s') && s.requests !! s.node.Keys && l in s.node && s.node[l].status.Complete?
    ensures l in s'.node && s'.node[l] == s.node[l]
  {
    hide Step;
    if IsNodeStep(a) { NodeKeepsComplete(cfg, s, a, s', l); } else { OthersKeepNode(cfg, s, a, s'); }
  }

  lemma {:induction false} StepKeepsPaid(cfg: Config, s: State, a: Action, s': State, h: Hash, p: Preimage)
    requires Inv(cfg, s) && Step(cfg, s, a, s') && PaidWith(s.node, h, p)
    ensures PaidWith(s'.node, h, p)
  {
    hide Step, HandlersInv, MonitorsInv, TablesInv, PlansSound, ResultsSound, PreimagesSound, ReleasedInv, AttemptsInv;
    var l :| l in s.node && s.node[l].hash == h && s.node[l].status == Complete(p);
    StepKeepsComplete(cfg, s, a, s', l);
  }

  /** A completed payment stays completed, through restarts and all. */
  lemma {:induction false} RunKeepsPaid(cfg: Config, states: seq<State>, actions: seq<Action>, i: nat, j: nat, h: Hash,
      p: Preimage)
    requires IsRun(cfg, states, actions) && i <= j < |states| && PaidWith(states[i].node, h, p)
    ensures PaidWith(states[j].node, h, p)
    decreases j - i
  {
    hide Inv, Enabled, PaidWith;
    if i < j {
      RunKeepsPaid(cfg, states, actions, i, j - 1, h, p);
      RunKeepsInv(cfg, states, actions, j - 1);
      assert Step(cfg, states[j - 1], actions[j - 1], states[j - 1 + 1]);
      StepKeepsPaid(cfg, states[j - 1], actions[j - 1], states[j], h, p);
    }
  }

  // ------------------------------------------------------------- main results

  /** Nothing has been, is being or can still be paid for the swap in this state. */
  ghost predicate Unpaid(s: State, h: Hash) {
    && NoneComplete(s.node, h) && NonePending(s.node, h)
    && (forall l :: l in s.open ==> l in s.plans && s.plans[l].hash != h)
    && (forall k :: k in s.handlers && s.handlers[k].PayLocked? ==> s.handlers[k].plan.hash != h)
    && !HasPaymentLock(s.tables, h)
    && (h in s.tables.swaps ==> s.tables.swaps[h].preimage.None?)
  }

  lemma {:induction false} ReleasedIsUnpaid(cfg: Config, s: State, h: Hash, r: RefundId)
    requires Inv(cfg, s) && (h, r) in s.released
    ensures Unpaid(s, h)
  {
    hide HandlersInv, MonitorsInv, PlansSound, TablesInv, PreimagesSound, ResultsSound;
    ReleasedAttemptsDead(cfg, s, h, r);
    ReleasedNodeQuiet(cfg, s, h);
    ReleasedHandlersQuiet(cfg, s, h);
    ReleasedNoPreimage(cfg, s, h);
  }

  /** Under the lock of a released refund every attempt of the swap has failed for good. */
  lemma {:induction false} ReleasedAttemptsDead(cfg: Config, s: State, h: Hash, r: RefundId)
    requires DataInv(cfg, s) && (h, r) in s.released
    ensures forall l :: l in s.tables.attempts && s.tables.attempts[l].hash == h ==>
              Dead(s.tables.attempts, s.open, s.node, l)
    ensures !HasPaymentLock(s.tables, h) && NoneComplete(s.node, h)
  {
    hide PlansSound, PreimagesSound, AttemptsInv, NodeInv, AddressesDistinct;
    RefundLockSettlesAttempts(s.tables, h, r);
  }

  lemma {:induction false} ReleasedNodeQuiet(cfg: Config, s: State, h: Hash)
    requires DataInv(cfg, s)
    requires forall l :: l in s.tables.attempts && s.tables.attempts[l].hash == h ==>
               Dead(s.tables.attempts, s.open, s.node, l)
    ensures NonePending(s.node, h)
    ensures forall l :: l in s.open ==> l in s.plans && s.plans[l].hash != h
  {
    hide TablesInv, PlansSound, PreimagesSound, ResultsSound, ReleasedInv, AddressesDistinct;
    assert forall l :: l in s.open ==> l in s.plans && s.plans[l].hash == s.tables.attempts[l].hash;
  }

  lemma {:induction false} ReleasedHandlersQuiet(cfg: Config, s: State, h: Hash)
    requires HandlersInv(cfg, s)
    requires forall l :: l in s.tables.attempts && s.tables.attempts[l].hash == h ==>
               Dead(s.tables.attempts, s.open, s.node, l)
    ensures forall k :: k in s.handlers && s.handlers[k].PayLocked? ==> s.handlers[k].plan.hash != h
  {
    forall k | k in s.handlers && s.handlers[k].PayLocked? ensures s.handlers[k].plan.hash != h {
      assert HandlerInv(cfg, s, s.handlers[k]);
    }
  }

  lemma {:induction false} ReleasedNoPreimage(cfg: Config, s: State, h: Hash)
    requires DataInv(cfg, s) && NoneComplete(s.node, h)
    ensures h in s.tables.swaps ==> s.tables.swaps[h].preimage.None?
  {
    hide TablesInv, PlansSound, ResultsSound, ReleasedInv, AttemptsInv, NodeInv, AddressesDistinct;
  }

  /**
   Safety of cooperative refunds: from the moment a partial signature for a swap
   leaves the server, no lightning payment for it is pending or complete, then
   or ever after, and no preimage for it is ever stored.
   */
  lemma {:induction false} RefundExcludesPayment(
      cfg: Config, states: seq<State>, actions: seq<Action>, i: nat, j: nat, h: Hash, r: RefundId)
    requires IsRun(cfg, states, actions) && i <= j < |states|
    requires (h, r) in states[i].released
    ensures Unpaid(states[j], h)
  {
    RunKeepsInv(cfg, states, actions, j);
    RunKeepsReleased(cfg, states, actions, i, j);
    ReleasedIsUnpaid(cfg, states[j], h, r);
  }

  /** The other direction: while a payment is pending or complete, no refund signature is out. */
  lemma {:induction false} PaymentExcludesRefund(
      cfg: Config, states: seq<State>, actions: seq<Action>, i: nat, j: nat, tag: Label, r: RefundId)
    requires IsRun(cfg, states, actions) && i <= j < |states|
    requires tag in states[j].node && !states[j].node[tag].status.Failed?
    ensures (states[j].node[tag].hash, r) !in states[i].released
  {
    if (states[j].node[tag].hash, r) in states[i].released {
      RefundExcludesPayment(cfg, states, actions, i, j, states[j].node[tag].hash, r);
    }
  }

  /**
   Locks in every reachable state: a swap holds one payment lock and nothing
   else, or refund locks only; and a payment lock is there exactly while its
   attempt has no result. A failure on record is one for good, a success means
   that the node completed a payment for the swap.
   */
  lemma {:induction false} LocksOfReachableStates(cfg: Config, states: seq<State>, actions: seq<Action>, i: nat)
    requires IsRun(cfg, states, actions) && i < |states|
    ensures var t := states[i].tables;
            && (forall a, b :: a in t.locks && b in t.locks && a.hash == b.hash && a.PaymentLock? ==> a == b)
            && (forall h, l :: PaymentLock(h, l) in t.locks
                          <==> l in t.attempts && t.attempts[l].hash == h && t.attempts[l].success.None?)
    ensures var s := states[i];
            && (forall l :: l in s.tables.attempts && s.tables.attempts[l].success == Some(true) ==>
                  !NoneComplete(s.node, s.tables.attempts[l].hash))
            && (forall l :: l in s.tables.attempts && s.tables.attempts[l].success == Some(false) ==>
                  l !in s.open && (l in s.node ==> s.node[l].status.Failed?))
  {
    RunKeepsInv(cfg, states, actions, i);
    hide IsRun, HandlersInv, MonitorsInv, PreimagesSound, PlansSound, ReleasedInv, AttemptsInv, NodeInv;
  }

  /**
   Terms of every payment that ever reached the node: it was recorded with
   exactly a thousand times the value of its outputs; its time limit plus the
   blocks reserved for claiming ends no later than the timelock of any of them;
   and the limit leaves the receiver its final delta and the viable minimum.
   */
  lemma {:induction false} TermsOfPayments(cfg: Config, states: seq<State>, actions: seq<Action>, i: nat, tag: Label)
    requires IsRun(cfg, states, actions) && i < |states| && tag in states[i].node
    ensures var s := states[i];
            && tag in s.tables.attempts && tag in s.plans
            && var (a, plan) := (s.tables.attempts[tag], s.plans[tag]);
            && a.hash == s.node[tag].hash && a.hash in s.tables.swaps
            && a.outputs == OutPoints(plan.outputs)
            && a.amountMsat == 1000 * SumValues(plan.outputs)
            && s.node[tag].cltvLimit == plan.cltvLimit > 0
            && (cfg.minViableCltv > 0 ==> s.node[tag].cltvLimit >= plan.finalDelta + cfg.minViableCltv)
            && forall t :: t in plan.outputs ==>
                 t.blockHeight + s.tables.swaps[a.hash].lockTime
                   >= plan.currentHeight + plan.cltvLimit + cfg.minClaimBlocks
  {
    RunKeepsInv(cfg, states, actions, i);
  }

  /** A stored preimage was revealed by a completed payment of that very swap. */
  lemma {:induction false} PreimagesArePaidFor(cfg: Config, states: seq<State>, actions: seq<Action>, i: nat, h: Hash)
    requires IsRun(cfg, states, actions) && i < |states|
    requires h in states[i].tables.swaps && states[i].tables.swaps[h].preimage.Some?
    ensures PaidWith(states[i].node, h, states[i].tables.swaps[h].preimage.value)
  {
    RunKeepsInv(cfg, states, actions, i);
  }

  // ------------------------------------------------------- what can happen

  lemma {:induction false} RunThen(cfg: Config, states: seq<State>, actions: seq<Action>, a: Action)
    requires IsRun(cfg, states, actions) && Enabled(cfg, states[|states| - 1], a)
    ensures IsRun(cfg, states + [Apply(cfg, states[|states| - 1], a)], actions + [a])
  {
  }

  ghost predicate EndsRun(cfg: Config, states: seq<State>, actions: seq<Action>, s: State) {
    IsRun(cfg, states, actions) && states[|states| - 1] == s
  }

  ghost predicate Reachable(cfg: Config, s: State) { exists states, actions :: EndsRun(cfg, states, actions, s) }

  lemma {:induction false} ReachableThen(cfg: Config, s: State, a: Action, s': State)
    requires Reachable(cfg, s) && Step(cfg, s, a, s')
    ensures Reachable(cfg, s')
  {
    hide Enabled, Apply, IsRun;
    var states, actions :| EndsRun(cfg, states, actions, s);
    RunThen(cfg, states, actions, a);
    assert EndsRun(cfg, states + [s'], actions + [a], s');
  }

  lemma {:induction false} StartIsReachable(cfg: Config)
    ensures Reachable(cfg, INITIAL)
  {
    assert EndsRun(cfg, [INITIAL], [], INITIAL);
  }

  lemma {:induction false} SwapIsReachable(cfg: Config, h: Hash, row: SwapRow)
    requires row.preimage.None?
    ensures Reachable(cfg, INITIAL.(tables := Tables(map[h := row], map[], {})))
  {
    hide Reachable;
    StartIsReachable(cfg);
    ReachableThen(cfg, INITIAL, AddSwap(h, row), INITIAL.(tables := Tables(map[h := row], map[], {})));
  }

  // Single steps of a request to pay, of the node and of the monitors, as they are needed below.

  lemma {:induction false} CanStartPay(cfg: Config, s: State, id: HandlerId, tag: Label, req: PayRequest,
      obs: Observed, plan: PayPlan)
    requires Reachable(cfg, s) && id !in s.handlers && req.hash in s.tables.swaps && FilterAnswers(cfg, obs)
        && FreshLabel(s, tag)
    requires PayChecks(cfg, req, s.tables.swaps[req.hash].lockTime, s.tables.swaps[req.hash].preimage, obs) == Ok(plan)
    ensures Reachable(cfg, Moved(s, id, PayChecked(plan, tag)))
  {
    hide Reachable, PayChecks, FilterAnswers, FreshLabel;
    ReachableThen(cfg, s, StartPay(id, tag, req, obs), Moved(s, id, PayChecked(plan, tag)));
  }

  lemma {:induction false} CanLockPay(cfg: Config, s: State, id: HandlerId, plan: PayPlan, tag: Label)
    requires Reachable(cfg, s) && id in s.handlers && s.handlers[id] == PayChecked(plan, tag)
    requires plan.hash in s.tables.swaps && !HasLock(s.tables, plan.hash)
    ensures Reachable(cfg, Moved(s, id, PayLocked(plan, tag)).(
              tables := Tables(s.tables.swaps, s.tables.attempts[tag := NewAttempt(plan)],
                  s.tables.locks + {PaymentLock(plan.hash, tag)}),
              plans := s.plans[tag := plan], open := s.open + {tag}, late := s.late + Late(s.tables, plan.hash, tag)))
  {
    hide Reachable, HasLock;
    var s' := Apply(cfg, s, LockPay(id));
    ReachableThen(cfg, s, LockPay(id), s');
  }

  lemma {:induction false} CanSendPay(cfg: Config, s: State, id: HandlerId, plan: PayPlan, tag: Label)
    requires Reachable(cfg, s) && id in s.handlers && s.handlers[id] == PayLocked(plan, tag)
    ensures Reachable(cfg, Moved(s, id, PayWaiting(plan, tag)).(requests := s.requests + {tag}))
  {
    hide Reachable;
    ReachableThen(cfg, s, SendPay(id), Moved(s, id, PayWaiting(plan, tag)).(requests := s.requests + {tag}));
  }

  lemma {:induction false} CanBePaid(cfg: Config, s: State, tag: Label, p: Preimage)
    requires Reachable(cfg, s) && tag in s.requests && tag in s.plans
    ensures Reachable(cfg, s.(requests := s.requests - {tag}, open := s.open - {tag},
                              node := s.node[tag := NodePayment(s.plans[tag].hash, Complete(p),
                                  s.plans[tag].cltvLimit)]))
  {
    hide Reachable;
    var s1 := Apply(cfg, s, NodeAccepts(tag));
    ReachableThen(cfg, s, NodeAccepts(tag), s1);
    var s2 := s1.(node := s.node[tag := NodePayment(s.plans[tag].hash, Complete(p), s.plans[tag].cltvLimit)]);
    ReachableThen(cfg, s1, NodeCompletes(tag, p), s2);
  }

  lemma {:induction false} CanBeAccepted(cfg: Config, s: State, tag: Label)
    requires Reachable(cfg, s) && tag in s.requests && tag in s.plans
    ensures Reachable(cfg, s.(requests := s.requests - {tag}, open := s.open - {tag},
                              node := s.node[tag := NodePayment(s.plans[tag].hash, Pending, s.plans[tag].cltvLimit)]))
  {
    hide Reachable;
    ReachableThen(cfg, s, NodeAccepts(tag), Apply(cfg, s, NodeAccepts(tag)));
  }

  lemma {:induction false} CanFail(cfg: Config, s: State, tag: Label)
    requires Reachable(cfg, s) && tag in s.node && s.node[tag].status.Pending?
    ensures Reachable(cfg, s.(node := s.node[tag := s.node[tag].(status := Failed)]))
  {
    hide Reachable;
    ReachableThen(cfg, s, NodeFails(tag), s.(node := s.node[tag := s.node[tag].(status := Failed)]));
  }

  lemma {:induction false} CanComplete(cfg: Config, s: State, tag: Label, p: Preimage)
    requires Reachable(cfg, s) && tag in s.node && s.node[tag].status.Pending?
    ensures Reachable(cfg, s.(node := s.node[tag := s.node[tag].(status := Complete(p))]))
  {
    hide Reachable;
    ReachableThen(cfg, s, NodeCompletes(tag, p), s.(node := s.node[tag := s.node[tag].(status := Complete(p))]));
  }

  /** `pay` answers, and the handler fails to store the answer. */
  lemma {:induction false} CanLoseAnswer(cfg: Config, s: State, id: HandlerId, plan: PayPlan, tag: Label,
      result: PaymentResult)
    requires Reachable(cfg, s) && id in s.handlers && s.handlers[id] == PayWaiting(plan, tag)
    requires NodeSays(s, plan.hash, tag, result)
    ensures Reachable(cfg, Gone(s, id))
  {
    hide Reachable, NodeSays;
    var s1 := Moved(s, id, PayReturned(plan, tag, result));
    ReachableThen(cfg, s, PayReturns(id, result), s1);
    assert Gone(s1, id) == Gone(s, id);
    ReachableThen(cfg, s1, Drop(id), Gone(s, id));
  }

  lemma {:induction false} CanAddSwap(cfg: Config, s: State, h: Hash, row: SwapRow)
    requires Reachable(cfg, s) && h !in s.tables.swaps && row.preimage.None?
    requires forall k :: k in s.tables.swaps ==> s.tables.swaps[k].address != row.address
    ensures Reachable(cfg, s.(tables := s.tables.(swaps := s.tables.swaps[h := row])))
  {
    hide Reachable;
    ReachableThen(cfg, s, AddSwap(h, row), s.(tables := s.tables.(swaps := s.tables.swaps[h := row])));
  }

  lemma {:induction false} CanBeRefused(cfg: Config, s: State, tag: Label)
    requires Reachable(cfg, s) && tag in s.requests
    ensures Reachable(cfg, s.(requests := s.requests - {tag}, open := s.open - {tag}))
  {
    hide Reachable;
    ReachableThen(cfg, s, NodeRejects(tag), s.(requests := s.requests - {tag}, open := s.open - {tag}));
  }

  /** `pay` answers and the handler records the answer. */
  lemma {:induction false} CanRecordPay(cfg: Config, s: State, id: HandlerId, plan: PayPlan, tag: Label,
      result: PaymentResult)
    requires Reachable(cfg, s) && id in s.handlers && s.handlers[id] == PayWaiting(plan, tag)
        && NodeSays(s, plan.hash, tag, result)
    ensures Reachable(cfg, Gone(s, id).(tables := Recorded(s.tables, plan.hash, tag, result),
                                        revised := s.revised + Revised(s.tables, tag, result)))
  {
    hide Reachable, NodeSays, Recorded;
    var s1 := Moved(s, id, PayReturned(plan, tag, result));
    ReachableThen(cfg, s, PayReturns(id, result), s1);
    var s2 := Gone(s, id).(tables := Recorded(s.tables, plan.hash, tag, result),
        revised := s.revised + Revised(s.tables, tag, result));
    ReachableThen(cfg, s1, RecordPay(id), s2);
  }

  /** The historical monitor asks for an attempt and records what it hears. */
  lemma {:induction false} CanSettle(cfg: Config, s: State, tag: Label, result: PaymentResult)
    requires Reachable(cfg, s) && tag in s.monitor.todo && tag in s.tables.attempts && s.verdicts == {}
    requires NodeSays(s, s.tables.attempts[tag].hash, tag, result)
    ensures Reachable(cfg, s.(monitor := s.monitor.(todo := s.monitor.todo - {tag}),
                              tables := Recorded(s.tables, s.tables.attempts[tag].hash, tag, result),
                              revised := s.revised + Revised(s.tables, tag, result)))
  {
    hide Reachable, NodeSays, Recorded;
    var verdict := Verdict(s.tables.attempts[tag].hash, tag, result);
    var s1 := s.(monitor := s.monitor.(todo := s.monitor.todo - {tag}), verdicts := {verdict});
    ReachableThen(cfg, s, AskHistorical(tag, result), s1);
    var s2 := s1.(verdicts := {}, tables := Recorded(s.tables, verdict.hash, tag, result),
        revised := s.revised + Revised(s.tables, tag, result));
    ReachableThen(cfg, s1, ApplyVerdict(verdict), s2);
  }

  lemma {:induction false} CanHearPending(cfg: Config, s: State, tag: Label)
    requires Reachable(cfg, s) && tag in s.monitor.todo && tag in s.tables.attempts
    requires tag in s.node && s.node[tag].status.Pending? && s.node[tag].hash == s.tables.attempts[tag].hash
    ensures Reachable(cfg, s.(monitor := s.monitor.(todo := s.monitor.todo - {tag},
        pending := s.monitor.pending + {tag})))
  {
    hide Reachable;
    ReachableThen(cfg, s, HearPending(tag),
        s.(monitor := s.monitor.(todo := s.monitor.todo - {tag}, pending := s.monitor.pending + {tag})));
  }

  lemma {:induction false} CanEndRound(cfg: Config, s: State)
    requires Reachable(cfg, s) && s.monitor.todo == {}
    ensures Reachable(cfg, s.(monitor := Rounds(s.monitor.pending, s.monitor.pending, {}, true)))
  {
    hide Reachable;
    ReachableThen(cfg, s, RoundEnds, s.(monitor := Rounds(s.monitor.pending, s.monitor.pending, {}, true)));
  }

  lemma {:induction false} CanFailRound(cfg: Config, s: State)
    requires Reachable(cfg, s) && s.monitor.todo != {}
    ensures Reachable(cfg, s.(monitor := AfterFailedRound(s.monitor)))
  {
    hide Reachable;
    ReachableThen(cfg, s, RoundFails, s.(monitor := AfterFailedRound(s.monitor)));
  }

  lemma {:induction false} CanRestart(cfg: Config, s: State)
    requires Reachable(cfg, s)
    ensures Reachable(cfg, s.(handlers := map[], requests := {}, open := {}, verdicts := {},
                              monitor := FirstRound(s.tables)))
  {
    hide Reachable;
    ReachableThen(cfg, s, Restart, s.(handlers := map[], requests := {}, open := {}, verdicts := {},
                                      monitor := FirstRound(s.tables)));
  }

  lemma {:induction false} RefundLockIsReachable(cfg: Config, h: Hash, row: SwapRow, r: RefundId) returns (s: State)
    requires row.preimage.None?
    ensures Reachable(cfg, s)
    ensures s == INITIAL.(tables := Tables(map[h := row], map[], {RefundLock(h, r)}),
        handlers := map[0 := RefundLocked(h, r, false, false)])
  {
    hide Reachable, PayChecks, FilterAnswers, FreshLabel;
    var s0 := INITIAL.(tables := Tables(map[h := row], map[], {}));
    SwapIsReachable(cfg, h, row);
    var s1 := s0.(handlers := map[0 := RefundSigned(h, r)]);
    ReachableThen(cfg, s0, StartRefund(0, h, r), s1);
    s := s1.(handlers := map[0 := RefundLocked(h, r, false, false)],
        tables := Tables(map[h := row], map[], {RefundLock(h, r)}));
    ReachableThen(cfg, s1, LockRefund(0), s);
  }

  /** Refunds do get released: the safety theorem is not about nothing. */
  lemma {:induction false} RefundCanBeReleased(cfg: Config, h: Hash, row: SwapRow, r: RefundId)
    requires row.preimage.None?
    ensures exists s :: Reachable(cfg, s) && (h, r) in s.released
  {
    hide Reachable, PayChecks, FilterAnswers, FreshLabel, FreshRefundId, HasLock, HasPaymentLock;
    var s2 := RefundLockIsReachable(cfg, h, row, r);
    var s3 := s2.(handlers := map[0 := RefundLocked(h, r, true, false)]);
    ReachableThen(cfg, s2, SeeNoneComplete(0), s3);
    var s4 := s3.(handlers := map[0 := RefundLocked(h, r, true, true)]);
    ReachableThen(cfg, s3, SeeNonePending(0), s4);
    var s5 := s4.(handlers := map[], released := {(h, r)});
    ReachableThen(cfg, s4, ReleaseRefund(0), s5);
  }

  /** Every request that passes the checks can end in a completed payment whose preimage is stored. */
  lemma {:induction false} PaymentCanComplete(cfg: Config, row: SwapRow, req: PayRequest, obs: Observed, tag: Label,
      p: Preimage)
    requires row.preimage.None? && tag != NO_LABEL && FilterAnswers(cfg, obs)
    requires PayChecks(cfg, req, row.lockTime, None, obs).Ok?
    ensures exists s ::
        && Reachable(cfg, s) && req.hash in s.tables.swaps && s.tables.swaps[req.hash].preimage == Some(p)
                        && tag in s.tables.attempts && s.tables.attempts[tag].success == Some(true)
  {
    var plan := PayChecks(cfg, req, row.lockTime, None, obs).value;
    assert plan.hash == req.hash;
    hide Reachable, FilterAnswers, PayChecks;
    var s0 := INITIAL.(tables := Tables(map[req.hash := row], map[], {}));
    SwapIsReachable(cfg, req.hash, row);
    CanStartPay(cfg, s0, 0, tag, req, obs, plan);
    var s1 := Moved(s0, 0, PayChecked(plan, tag));
    CanLockPay(cfg, s1, 0, plan, tag);
    var s2 := Moved(s1, 0, PayLocked(plan, tag)).(
                tables := Tables(map[req.hash := row], s1.tables.attempts[tag := NewAttempt(plan)],
                    s1.tables.locks + {PaymentLock(plan.hash, tag)}),
                plans := s1.plans[tag := plan], open := s1.open + {tag},
                    late := s1.late + Late(s1.tables, plan.hash, tag));
    CanSendPay(cfg, s2, 0, plan, tag);
    var s3 := Moved(s2, 0, PayWaiting(plan, tag)).(requests := s2.requests + {tag});
    CanBePaid(cfg, s3, tag, p);
    var s4 := s3.(requests := s3.requests - {tag}, open := s3.open - {tag},
                  node := s3.node[tag := NodePayment(plan.hash, Complete(p), plan.cltvLimit)]);
    assert s4.node[tag].hash == plan.hash && s4.node[tag].status == Complete(p);
    CanRecordPay(cfg, s4, 0, plan, tag, Success(p));
  }
}
