/**
 The historical payment monitor: after a restart it settles the attempts left
 without a result from what the lightning node says about them.
 */
module PaymentMonitor {
  import opened Types
  import opened SwapTables
  import SwapRepository
  import opened Protocol

  /** The outcome the node's listing implies for a label; none while the payment is pending. */
  function Outcome(node: Node, tag: Label): Option<PaymentResult> {
    if tag !in node then Some(PaymentResult.Failure) else
    match node[tag].status
    case Pending => None
    case Failed => Some(PaymentResult.Failure)
    case Complete(p) => Some(Success(p))
  }

  /** The node knows attempts under their own hash, and a hash has one preimage. */
  ghost predicate NodeAgrees(t: Tables, node: Node) {
    && (forall l :: l in node && l in t.attempts ==> node[l].hash == t.attempts[l].hash)
    && (forall k, l ::
        k in node && l in node && node[k].hash == node[l].hash && node[k].status.Complete?
        && node[l].status.Complete? ==>
          node[k].status == node[l].status)
  }

  predicate PaidBy(t: Tables, node: Node, h: Hash, l: Label) {
    l in t.attempts && t.attempts[l].hash == h && l in node && node[l].status.Complete?
  }

  /** The preimage some completed payment among the labels revealed for the swap. */
  ghost function Reveals(t: Tables, node: Node, tags: set<Label>, h: Hash): (p: Option<Preimage>)
    ensures p.Some? ==> exists l :: l in tags && PaidBy(t, node, h, l) && node[l].status == Complete(p.value)
    ensures p.None? ==> forall l :: l in tags ==> !PaidBy(t, node, h, l)
  {
    if l :| l in tags && PaidBy(t, node, h, l) then Some(node[l].status.preimage) else None
  }

  ghost function SettledSwap(t: Tables, node: Node, tags: set<Label>, h: Hash): SwapRow
    requires h in t.swaps
  {
    var p := Reveals(t, node, tags, h);
    if p.Some? then t.swaps[h].(preimage := p) else t.swaps[h]
  }

  function SettledAttempt(t: Tables, node: Node, tags: set<Label>, l: Label): Attempt
    requires l in t.attempts
  {
    if l in tags && Outcome(node, l).Some? then t.attempts[l].(success := Some(Outcome(node, l).value.Success?))
        else t.attempts[l]
  }

  predicate Released(t: Tables, node: Node, tags: set<Label>, k: Lock) {
    k.PaymentLock? && k.tag in tags && k.tag in t.attempts && k.hash == t.attempts[k.tag].hash
        && Outcome(node, k.tag).Some?
  }

  /** The tables with every label of the set settled as the node says, all at once. */
  ghost function Settled(t: Tables, node: Node, tags: set<Label>): Tables {
    Tables(map h | h in t.swaps :: SettledSwap(t, node, tags, h),
           map l | l in t.attempts :: SettledAttempt(t, node, tags, l),
           set k | k in t.locks && !Released(t, node, tags, k))
  }

  ghost predicate AllSettled(node: Node, tags: set<Label>) { forall l :: l in tags ==> Outcome(node, l).Some? }

  lemma {:induction false} SettleNone(t: Tables, node: Node)
    ensures Settled(t, node, {}) == t
  {
  }

  lemma {:induction false} RevealsMore(t: Tables, node: Node, tags: set<Label>, more: set<Label>, h: Hash)
    requires NodeAgrees(t, node)
    ensures Reveals(t, node, tags + more, h)
         == if Reveals(t, node, more, h).Some? then Reveals(t, node, more, h) else Reveals(t, node, tags, h)
  {
  }

  lemma {:induction false} RevealsOne(t: Tables, node: Node, h: Hash, l: Label)
    ensures Reveals(t, node, {l}, h) == if PaidBy(t, node, h, l) then Some(node[l].status.preimage) else None
  {
  }

  /** Writing one more outcome settles one more label. */
  lemma {:induction false} SettleOne(t: Tables, node: Node, tags: set<Label>, l: Label)
    requires NodeAgrees(t, node) && l in t.attempts && t.attempts[l].hash in t.swaps && Outcome(node, l).Some?
    ensures UnlockAddPaymentResult(Settled(t, node, tags), t.attempts[l].hash, l, Outcome(node, l).value)
         == Result.Ok(Settled(t, node, tags + {l}))
  {
    hide NodeAgrees;
    var h := t.attempts[l].hash;
    var one := UnlockAddPaymentResult(Settled(t, node, tags), h, l, Outcome(node, l).value).value;
    var all := Settled(t, node, tags + {l});
    assert one.locks == all.locks;
    assert one.attempts == all.attempts;
    forall g | g in t.swaps ensures one.swaps[g] == all.swaps[g] {
      RevealsMore(t, node, tags, {l}, g);
      RevealsOne(t, node, g, l);
    }
    assert one.swaps == all.swaps;
  }

  /** Settled labels do not feel later changes of the node. */
  ghost predicate Later(node: Node, node': Node, tags: set<Label>) {
    && (forall l ::
        l in node ==> l in node' && node'[l].hash == node[l].hash && (node[l].status.Pending? || node'[l] == node[l]))
    && (forall l :: l in tags && l !in node ==> l !in node')
  }

  lemma {:induction false} SettledStays(t: Tables, node: Node, node': Node, tags: set<Label>)
    requires AllSettled(node, tags) && Later(node, node', tags) && NodeAgrees(t, node) && NodeAgrees(t, node')
    ensures Settled(t, node', tags) == Settled(t, node, tags) && AllSettled(node', tags)
  {
    forall l | l in tags ensures Outcome(node', l) == Outcome(node, l) { }
    forall h | h in t.swaps ensures SettledSwap(t, node', tags, h) == SettledSwap(t, node, tags, h) {
      RevealsStays(t, node, node', tags, h);
    }
  }

  lemma {:induction false} RevealsStays(t: Tables, node: Node, node': Node, tags: set<Label>, h: Hash)
    requires AllSettled(node, tags) && Later(node, node', tags) && NodeAgrees(t, node) && NodeAgrees(t, node')
    ensures Reveals(t, node', tags, h) == Reveals(t, node, tags, h)
  {
  }

  lemma {:induction false} RevealsThrough(t: Tables, mid: Tables, node: Node, tags: set<Label>, h: Hash)
    requires mid.attempts.Keys == t.attempts.Keys && forall l ::
        l in t.attempts ==> mid.attempts[l].hash == t.attempts[l].hash
    requires NodeAgrees(t, node)
    ensures Reveals(mid, node, tags, h) == Reveals(t, node, tags, h)
  {
  }

  /** Settling in two goes is settling once: a run cut short can be repeated. */
  lemma {:induction false} SettleTwice(t: Tables, node: Node, first: set<Label>, second: set<Label>)
    requires NodeAgrees(t, node)
    ensures Settled(Settled(t, node, first), node, second) == Settled(t, node, first + second)
  {
    hide NodeAgrees;
    var mid := Settled(t, node, first);
    var end := Settled(t, node, first + second);
    assert Settled(mid, node, second).attempts == end.attempts;
    assert Settled(mid, node, second).locks == end.locks;
    forall h | h in t.swaps ensures SettledSwap(mid, node, second, h) == SettledSwap(t, node, first + second, h) {
      RevealsThrough(t, mid, node, second, h);
      RevealsMore(t, node, first, second, h);
    }
    assert Settled(mid, node, second).swaps == end.swaps;
  }

  /** What is left without a result afterwards. */
  lemma {:induction false} UnhandledAfter(t: Tables, node: Node, tags: set<Label>)
    requires AllSettled(node, tags)
    ensures Unhandled(Settled(t, node, tags)) == Unhandled(t) - tags
  {
  }

  lemma {:induction false} SettledKeepsInv(t: Tables, node: Node, tags: set<Label>)
    requires TablesInv(t) && AllSettled(node, tags)
    ensures TablesInv(Settled(t, node, tags))
  {
  }

  /**
   What settling comes to. A listed attempt the node completed is a success and its swap
   has the preimage; one that failed, or that the node does not know, is a failure; both
   lose their lock. Nothing else changes.
   */
  lemma {:induction false} SettledMeans(t: Tables, node: Node, tags: set<Label>, l: Label)
    requires AttemptsOfSwaps(t) && NodeAgrees(t, node) && AllSettled(node, tags) && l in t.attempts
    ensures var (a, t') := (t.attempts[l], Settled(t, node, tags));
            && t'.attempts.Keys == t.attempts.Keys && t'.swaps.Keys == t.swaps.Keys
            && (l in tags && l in node && node[l].status.Complete? ==>
                  && t'.attempts[l] == a.(success := Some(true))
                  && t'.swaps[a.hash].preimage == Some(node[l].status.preimage))
            && (l in tags && (l !in node || node[l].status.Failed?) ==> t'.attempts[l] == a.(success := Some(false)))
            && (l in tags ==> PaymentLock(a.hash, l) !in t'.locks)
            && (l !in tags ==> t'.attempts[l] == a && (PaymentLock(a.hash, l) in t'.locks <==>
                PaymentLock(a.hash, l) in t.locks))
  {
  }

  lemma {:induction false} SettledSparesRest(t: Tables, node: Node, tags: set<Label>, h: Hash, id: RefundId)
    requires h in t.swaps
    ensures var t' := Settled(t, node, tags);
            && t'.swaps[h] == t.swaps[h].(preimage := t'.swaps[h].preimage)
            && ((forall l :: l in tags && l in t.attempts && t.attempts[l].hash == h && l in node ==>
                   !node[l].status.Complete?) ==> t'.swaps[h] == t.swaps[h])
            && (RefundLock(h, id) in t'.locks <==> RefundLock(h, id) in t.locks)
  {
    assert forall l :: PaidBy(t, node, h, l) ==> l in t.attempts && t.attempts[l].hash == h && l in node;
  }

  datatype LightningError = PaymentNotFound | Unavailable

  /** The lightning node as the monitor meets it. */
  class LightningNode {
    var payments: Node
    ghost var pendingLog: seq<Label>   // labels it has answered "pending" for, in order

    /** Between two calls payments may end and others may start, but not under the labels of a former process. */
    method TimePasses(ghost tags: set<Label>, ghost t: Tables)
      requires NodeAgrees(t, payments)
      modifies `payments
      ensures Later(old(payments), payments, tags) && NodeAgrees(t, payments)
    {
      if tag :| tag in payments && payments[tag].status.Pending? {
        payments := payments[tag := payments[tag].(status := Failed)];
      }
    }

    method Unreachable(mayFail: bool) returns (fails: bool)
      ensures fails ==> mayFail
    {
      fails := *;
      fails := fails && mayFail;
    }

    method GetPaymentState(tag: Label, mayFail: bool) returns (r: Result<NodeStatus, LightningError>)
      modifies `pendingLog
      ensures r.Ok? ==> tag in payments && r.value == payments[tag].status
      ensures r == Err(PaymentNotFound) ==> tag !in payments
      ensures r == Err(Unavailable) ==> mayFail
      ensures pendingLog == old(pendingLog) + if r == Ok(Pending) then [tag] else []
    {
      var fails := Unreachable(mayFail);
      if fails { return Err(Unavailable); }
      if tag !in payments { return Err(PaymentNotFound); }
      if payments[tag].status.Pending? { pendingLog := pendingLog + [tag]; }
      r := Ok(payments[tag].status);
    }

    /** Any completed payment of the hash will do; the label may get lost. */
    method GetPreimage(h: Hash, mayFail: bool) returns (r: Result<Option<Found>, LightningError>)
      ensures r.Ok? && r.value.Some? ==> FoundSound(payments, h, r.value.value)
      ensures r.Ok? && r.value.None? ==> NoneComplete(payments, h)
      ensures r.Err? ==> mayFail
    {
      var fails := Unreachable(mayFail);
      if fails { return Err(Unavailable); }
      if tag :| tag in payments && payments[tag].hash == h && payments[tag].status.Complete? {
        var p := payments[tag].status.preimage;
        if * { return Ok(Some(Found(p, NO_LABEL))); }
        if tag != NO_LABEL { return Ok(Some(Found(p, tag))); }
        return Ok(Some(Found(p, NO_LABEL)));
      }
      r := Ok(None);
    }
  }

  datatype Found = Found(preimage: Preimage, tag: Label)

  /**
   What a node reports as a preimage was revealed by a completed payment of the hash,
   under that label if it knows one.
   */
  ghost predicate FoundSound(node: Node, h: Hash, f: Found) {
    if f.tag == NO_LABEL then PaidWith(node, h, f.preimage)
    else f.tag in node && node[f.tag].hash == h && node[f.tag].status == Complete(f.preimage)
  }

  predicate EndsWith(log: seq<Label>, last: seq<Label>) { |last| <= |log| && log[|log| - |last|..] == last }

  function Tags(attempts: seq<Label>): set<Label> { set l | l in attempts }

  class HistoricalPaymentMonitor {
    const repo: SwapRepository.Repository
    const node: LightningNode
    var paymentAttempts: seq<Label>

    constructor (repo: SwapRepository.Repository, node: LightningNode)
      ensures this.repo == repo && this.node == node && paymentAttempts == []
    {
      this.repo, this.node := repo, node;
      paymentAttempts := [];
    }

    /**
     Checks the attempts one by one, the first `reached` of them if a call fails.
     Of those, the ones the node reports as pending in this very call are handed
     back; what it does to the tables is to settle all others as the node says.
     */
    method DoCheckPayments(attempts: seq<Label>, mayFail: bool, ghost former: set<Label>)
      returns (r: Result<seq<Label>, LightningError>, ghost settled: set<Label>, ghost reached: nat,
          ghost pending: seq<Label>)
      requires Tags(attempts) <= former
      requires AttemptsOfSwaps(repo.State()) && NodeAgrees(repo.State(), node.payments)
      requires forall l :: l in attempts ==> l in repo.attempts
      modifies repo, node
      ensures AllSettled(node.payments, settled)
      ensures repo.State() == Settled(old(repo.State()), node.payments, settled)
      ensures NodeAgrees(old(repo.State()), node.payments) && Later(old(node.payments), node.payments, former)
      ensures node.pendingLog == old(node.pendingLog) + pending
      ensures reached <= |attempts| && settled + Tags(pending) == Tags(attempts[..reached])
      ensures r.Ok? ==> reached == |attempts| && r.value == pending
      ensures r.Err? ==> reached < |attempts| && mayFail
    {
      hide NodeAgrees, Later, AllSettled, Settled;
      ghost var t := repo.State();
      var pendingAttempts := [];
      settled, reached, pending := {}, 0, [];
      SettleNone(t, node.payments);
      StartOfTime(node.payments, former);
      for i := 0 to |attempts|
        invariant reached == i && pending == pendingAttempts
        invariant settled + Tags(pending) == Tags(attempts[..i]) && settled <= Tags(attempts)
        invariant AllSettled(node.payments, settled) && repo.State() == Settled(t, node.payments, settled)
        invariant NodeAgrees(t, node.payments) && Later(old(node.payments), node.payments, former)
        invariant node.pendingLog == old(node.pendingLog) + pending
      {
        Wait(t, former, settled);
        TagsOfPrefix(attempts, i);
        var tag := attempts[i];
        assert tag in attempts;
        var state := node.GetPaymentState(tag, mayFail);
        if state.Err? && state.error != PaymentNotFound { return Err(state.error), settled, i, pending; }
        if state.Ok? && state.value.Pending? {
          TagsOfAppend(pending, tag);
          pendingAttempts, pending := pendingAttempts + [tag], pending + [tag];
        } else {
          var result := if state.Err? then PaymentResult.Failure
                        else if state.value.Complete? then Success(state.value.preimage) else PaymentResult.Failure;
          assert Outcome(node.payments, tag) == Some(result);
          Settle(t, tag, settled, result);
          settled := settled + {tag};
        }
        reached := i + 1;
      }
      assert attempts[..|attempts|] == attempts;
      r := Ok(pendingAttempts);
    }

    /** Time passes between two calls; what has been settled stays settled. */
    method Wait(ghost t: Tables, ghost tags: set<Label>, ghost settled: set<Label>)
      requires settled <= tags && AllSettled(node.payments, settled) && NodeAgrees(t, node.payments)
      requires repo.State() == Settled(t, node.payments, settled)
      modifies node`payments
      ensures AllSettled(node.payments, settled) && NodeAgrees(t, node.payments)
      ensures repo.State() == Settled(t, node.payments, settled)
      ensures forall earlier :: Later(earlier, old(node.payments), tags) ==> Later(earlier, node.payments, tags)
    {
      hide NodeAgrees, Settled;
      ghost var before := node.payments;
      node.TimePasses(tags, t);
      SettledStays(t, before, node.payments, settled);
    }

    method Settle(ghost t: Tables, tag: Label, ghost settled: set<Label>, result: PaymentResult)
      requires AttemptsOfSwaps(t) && NodeAgrees(t, node.payments) && tag in t.attempts
      requires repo.State() == Settled(t, node.payments, settled) && AllSettled(node.payments, settled)
      requires Outcome(node.payments, tag) == Some(result)
      modifies repo
      ensures repo.State() == Settled(t, node.payments, settled + {tag}) && AllSettled(node.payments, settled + {tag})
    {
      SettleOne(t, node.payments, settled, tag);
      var done := repo.UnlockAddPaymentResult(repo.attempts[tag].hash, tag, result);
    }

    /**
     After a successful `initialize` the attempts still without a result are
     those kept for later, each of which the node reported as pending during this
     call; so is the attempt of every payment lock that is left. All others carry
     the node's outcome.
     */
    method Initialize(mayFail: bool) returns (ok: bool, ghost settled: set<Label>)
      requires TablesInv(repo.State()) && NodeAgrees(repo.State(), node.payments)
      modifies repo, node, this
      ensures TablesInv(repo.State())
      ensures settled <= Unhandled(old(repo.State())) && AllSettled(node.payments, settled)
      ensures repo.State() == Settled(old(repo.State()), node.payments, settled)
      ensures !mayFail ==> ok
      ensures ok ==> node.pendingLog == old(node.pendingLog) + paymentAttempts
      ensures ok ==> settled + Tags(paymentAttempts) == Unhandled(old(repo.State()))
      ensures ok ==> Unhandled(repo.State()) <= Tags(paymentAttempts)
      ensures ok ==> forall k :: k in repo.locks && k.PaymentLock? ==> k.tag in paymentAttempts
    {
      hide NodeAgrees, Settled;
      ghost var t := repo.State();
      var unhandled := repo.GetUnhandledPaymentAttempts();
      assert Tags(unhandled) == Unhandled(t);
      var checked;
      ghost var reached;
      ghost var pending;
      checked, settled, reached, pending := DoCheckPayments(unhandled, mayFail, Tags(unhandled));
      TagsOfPart(unhandled, reached);
      SettledKeepsInv(t, node.payments, settled);
      UnhandledAfter(t, node.payments, settled);
      ok := checked.Ok?;
      if ok {
        paymentAttempts := checked.value;
        forall k | k in repo.locks && k.PaymentLock? ensures k.tag in paymentAttempts {
          assert PaymentLock(k.hash, k.tag) in repo.State().locks;
          assert k.tag in Unhandled(repo.State());
        }
      }
    }

    /**
     The rounds until nothing is pending any more or the monitor is told to stop.
     A failed round keeps the whole list and is repeated. In the end every label
     of the list has been settled, once and as the node says, or is still listed; when no
     call failed, those still listed are what the node last reported as pending.
     */
    method Start(rounds: nat, mayFail: bool) returns (ghost settled: set<Label>)
      requires AttemptsOfSwaps(repo.State()) && NodeAgrees(repo.State(), node.payments)
      requires forall l :: l in paymentAttempts ==> l in repo.attempts
      modifies repo, node, this
      ensures AllSettled(node.payments, settled) && settled + Tags(paymentAttempts) == old(Tags(paymentAttempts))
      ensures repo.State() == Settled(old(repo.State()), node.payments, settled)
      ensures Later(old(node.payments), node.payments, old(Tags(paymentAttempts)))
      ensures !mayFail && rounds > 0 ==> EndsWith(node.pendingLog, paymentAttempts)
    {
      hide NodeAgrees, Settled, AllSettled, Later;
      ghost var t, former, first := repo.State(), Tags(paymentAttempts), node.payments;
      settled := {};
      SettleNone(t, node.payments);
      StartOfTime(node.payments, former);
      for round := 0 to rounds
        invariant AllSettled(node.payments, settled) && settled + Tags(paymentAttempts) == former
        invariant repo.State() == Settled(t, node.payments, settled)
        invariant NodeAgrees(t, node.payments) && Later(first, node.payments, former)
        invariant !mayFail && round > 0 ==> EndsWith(node.pendingLog, paymentAttempts)
      {
        if paymentAttempts == [] { return; }
        SettledShape(t, node.payments, settled);
        assert repo.attempts.Keys == t.attempts.Keys;
        assert forall l :: l in paymentAttempts ==> l in Tags(paymentAttempts) && l in former;
        ghost var before := node.payments;
        var checked;
        ghost var more;
        ghost var reached;
        ghost var pending;
        checked, more, reached, pending := DoCheckPayments(paymentAttempts, mayFail, former);
        TagsOfPart(paymentAttempts, reached);
        SettledAgrees(t, before, settled, node.payments);
        NextRound(t, before, node.payments, former, settled, more);
        LaterThen(first, before, node.payments, former);
        if checked.Ok? { paymentAttempts := checked.value; }
        settled := settled + more;
      }
    }
  }

  lemma {:induction false} SettledShape(t: Tables, node: Node, tags: set<Label>)
    requires AttemptsOfSwaps(t) && NodeAgrees(t, node)
    ensures AttemptsOfSwaps(Settled(t, node, tags)) && NodeAgrees(Settled(t, node, tags), node)
    ensures Settled(t, node, tags).attempts.Keys == t.attempts.Keys
  {
  }

  lemma {:induction false} SettledAgrees(t: Tables, node: Node, tags: set<Label>, node': Node)
    requires NodeAgrees(Settled(t, node, tags), node')
    ensures NodeAgrees(t, node')
  {
  }

  lemma {:induction false} NextRound(t: Tables, node: Node, node': Node, former: set<Label>, settled: set<Label>,
      more: set<Label>)
    requires NodeAgrees(t, node) && NodeAgrees(t, node') && Later(node, node', former) && settled <= former
    requires AllSettled(node, settled) && AllSettled(node', more)
    ensures Settled(Settled(t, node, settled), node', more) == Settled(t, node', settled + more)
    ensures AllSettled(node', settled + more)
  {
    assert Later(node, node', settled);
    SettledStays(t, node, node', settled);
    SettleTwice(t, node', settled, more);
  }

  lemma {:induction false} LaterThen(a: Node, b: Node, c: Node, tags: set<Label>)
    requires Later(a, b, tags) && Later(b, c, tags)
    ensures Later(a, c, tags)
  {
  }

  lemma {:induction false} StartOfTime(node: Node, tags: set<Label>)
    ensures Later(node, node, tags) && AllSettled(node, {})
  {
  }

  lemma {:induction false} TagsOfPrefix(attempts: seq<Label>, i: nat)
    requires i < |attempts|
    ensures Tags(attempts[..i + 1]) == Tags(attempts[..i]) + {attempts[i]}
  {
  }

  lemma {:induction false} TagsOfPart(attempts: seq<Label>, n: nat)
    requires n <= |attempts|
    ensures Tags(attempts[..n]) <= Tags(attempts) && (n == |attempts| ==> Tags(attempts[..n]) == Tags(attempts))
  {
  }

  lemma {:induction false} TagsOfAppend(attempts: seq<Label>, l: Label)
    ensures Tags(attempts + [l]) == Tags(attempts) + {l}
  {
  }

  /**
   Crash and repeat: if one run settled only `first` and the next, reading the
   unhandled attempts afresh, settled `second`, the tables are those of a single
   run over both; the order of attempts played no part.
   */
  lemma {:induction false} InterruptedRunConverges(t: Tables, node: Node, node': Node, first: set<Label>,
      second: set<Label>)
    requires NodeAgrees(t, node) && NodeAgrees(t, node') && Later(node, node', first) && AllSettled(node, first)
    ensures Settled(Settled(t, node, first), node', second) == Settled(t, node', first + second)
    ensures Unhandled(Settled(t, node, first)) == Unhandled(t) - first
  {
    SettledStays(t, node, node', first);
    SettleTwice(t, node', first, second);
    UnhandledAfter(t, node, first);
  }
}
