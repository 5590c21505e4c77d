/**
 The preimage monitor: asks the lightning node for the preimages of swaps that
 hold funds and have none stored, whatever became of the `pay` call.
 */
module PreimageMonitor {
  import opened Types
  import opened SwapTables
  import SwapRepository
  import opened Protocol
  import opened PaymentMonitor

  /** The swaps a round asks for. */
  function Missing(t: Tables, addresses: set<Address>): set<Hash> {
    set h | h in t.swaps && t.swaps[h].address in addresses && t.swaps[h].preimage.None?
  }

  /** What the monitor leaves in the tables: further sound preimages, and results the node vouches for. */
  ghost predicate Learned(t: Tables, t': Tables, node: Node, asked: set<Hash>) {
    && t'.swaps.Keys == t.swaps.Keys && t'.attempts.Keys == t.attempts.Keys
    && (forall h :: h in t.swaps ==> t'.swaps[h] == t.swaps[h].(preimage := t'.swaps[h].preimage))
    && (forall h :: h in t.swaps && t'.swaps[h] != t.swaps[h] ==> h in asked && t'.swaps[h].preimage.Some?)
    && (forall l :: l in t.attempts && t'.attempts[l] != t.attempts[l] ==>
          t'.attempts[l] == t.attempts[l].(success := Some(true)) && l in node && node[l].status.Complete?)
    && (forall k :: k in t.locks && k.RefundLock? ==> k in t'.locks)
    && t'.locks <= t.locks
  }

  ghost predicate RoundInv(t: Tables, node: Node) {
    TablesInv(t) && NO_LABEL !in t.attempts && NodeAgrees(t, node) && PreimagesSound(t.swaps, node)
  }

  lemma {:induction false} LearnOne(t: Tables, now: Tables, node: Node, asked: set<Hash>, h: Hash, f: Found)
    requires Learned(t, now, node, asked) && RoundInv(now, node) && h in t.swaps && FoundSound(node, h, f)
    ensures var r := UnlockAddPaymentResult(now, h, f.tag, Success(f.preimage));
            && r.Ok? && Learned(t, r.value, node, asked + {h}) && RoundInv(r.value, node)
            && r.value.swaps == now.swaps[h := now.swaps[h].(preimage := Some(f.preimage))]
  {
    LearnOneKeepsInv(now, node, h, f);
    hide RoundInv, NodeAgrees, PaidWith, TablesInv;
    LearnOneAdds(t, now, node, asked, h, f);
  }

  lemma {:induction false} LearnOneKeepsInv(now: Tables, node: Node, h: Hash, f: Found)
    requires RoundInv(now, node) && h in now.swaps && FoundSound(node, h, f)
    ensures var r := UnlockAddPaymentResult(now, h, f.tag, Success(f.preimage)); r.Ok? && RoundInv(r.value, node)
    ensures f.tag in now.attempts ==> f.tag in node && node[f.tag].status.Complete?
  {
    hide TablesInv;
    UnlockPaymentKeepsInv(now, h, f.tag, Success(f.preimage));
    assert PaidWith(node, h, f.preimage);
    RecordKeepsPreimages(now.swaps, node, h, f.preimage);
  }

  lemma {:induction false} LearnOneAdds(t: Tables, now: Tables, node: Node, asked: set<Hash>, h: Hash, f: Found)
    requires Learned(t, now, node, asked) && h in t.swaps
    requires f.tag in now.attempts ==> f.tag in node && node[f.tag].status.Complete?
    ensures var r := UnlockAddPaymentResult(now, h, f.tag, Success(f.preimage));
        r.Ok? && Learned(t, r.value, node, asked + {h})
  {
  }

  /** Whatever was found is stored, its attempt is a success, and its lock is gone. */
  ghost predicate Stored(t: Tables, found: map<Hash, Found>) {
    forall h :: h in found ==>
      && h in t.swaps && t.swaps[h].preimage == Some(found[h].preimage)
      && (found[h].tag in t.attempts ==> t.attempts[found[h].tag].success == Some(true))
      && PaymentLock(h, found[h].tag) !in t.locks
  }

  lemma {:induction false} StoreOne(now: Tables, found: map<Hash, Found>, h: Hash, f: Found)
    requires Stored(now, found) && h in now.swaps
    ensures var r := UnlockAddPaymentResult(now, h, f.tag, Success(f.preimage));
            r.Ok? && Stored(r.value, found[h := f])
  {
  }

  lemma {:induction false} FoundLater(node: Node, node': Node, found: map<Hash, Found>)
    requires Later(node, node', {}) && forall h :: h in found ==> FoundSound(node, h, found[h])
    ensures forall h :: h in found ==> FoundSound(node', h, found[h])
  {
  }

  lemma {:induction false} LearnedLater(t: Tables, now: Tables, node: Node, node': Node, asked: set<Hash>)
    requires Learned(t, now, node, asked) && RoundInv(now, node) && Later(node, node', {}) && NodeAgrees(now, node')
    ensures Learned(t, now, node', asked) && RoundInv(now, node')
  {
  }

  lemma {:induction false} PaidStaysPaid(node: Node, node': Node, h: Hash)
    requires Later(node, node', {}) && NoneComplete(node', h)
    ensures NoneComplete(node, h)
  {
  }

  class Monitor {
    const repo: SwapRepository.Repository
    const node: LightningNode

    constructor (repo: SwapRepository.Repository, node: LightningNode)
      ensures this.repo == repo && this.node == node
    {
      this.repo, this.node := repo, node;
    }

    /**
     One round: it stores only preimages the node vouches for, removes only
     payment locks, and, when every query was answered, leaves no queried swap
     without a preimage if a payment for it was complete when the round began. What the
     node answered is `found`: all of that is stored, with the attempt it names marked as
     successful and unlocked, and no other swap changes. Every query is answered unless a
     call fails.
     */
    method DoQueryPreimages(addresses: set<Address>, mayFail: bool)
        returns (answered: bool, ghost found: map<Hash, Found>)
      requires RoundInv(repo.State(), node.payments)
      modifies repo, node
      ensures RoundInv(repo.State(), node.payments)
      ensures Learned(old(repo.State()), repo.State(), node.payments, Missing(old(repo.State()), addresses))
      ensures answered ==> forall h ::
          && h in old(repo.swaps) && old(repo.swaps)[h].address in addresses && old(repo.swaps)[h].preimage.None?
          && !NoneComplete(old(node.payments), h) ==>
            h in found && repo.swaps[h].preimage.Some?
      ensures !mayFail ==> answered
      ensures Stored(repo.State(), found) && forall h :: h in found ==> FoundSound(node.payments, h, found[h])
      ensures forall h :: h in old(repo.swaps) && h !in found ==> repo.swaps[h] == old(repo.swaps)[h]
    {
      hide Stored, Learned, RoundInv, NodeAgrees, Later, NoneComplete, FoundSound, UnlockAddPaymentResult;
      ghost var t, first := repo.State(), node.payments;
      var hashes := Missing(repo.State(), addresses);
      answered, found := true, map[];
      NothingFound(t);
      StartOfRound(t, first);
      ghost var asked := {};
      while hashes != {}
        invariant asked + hashes == Missing(t, addresses)
        invariant RoundInv(repo.State(), node.payments) && Learned(t, repo.State(), node.payments, asked)
        invariant Later(first, node.payments, {})
        invariant answered ==> forall h :: h in asked && !NoneComplete(first, h) ==> h in found
        invariant !mayFail ==> answered
        invariant Stored(repo.State(), found) && forall h :: h in found ==> FoundSound(node.payments, h, found[h])
        invariant t.swaps.Keys == repo.swaps.Keys && found.Keys <= asked
        invariant forall h :: h in t.swaps && h !in found ==> repo.swaps[h] == t.swaps[h]
        decreases hashes
      {
        var h :| h in hashes;
        hashes := hashes - {h};
        Wait(t, first, asked, found);
        var result := node.GetPreimage(h, mayFail);
        if result.Ok? && result.value.None? { PaidStaysPaid(first, node.payments, h); }
        AskMore(t, repo.State(), node.payments, asked, h);
        if result.Err? {
          answered := false;
        } else if result.value.Some? {
          LearnOne(t, repo.State(), node.payments, asked, h, result.value.value);
          StoreOne(repo.State(), found, h, result.value.value);
          found := found[h := result.value.value];
          var stored := repo.UnlockAddPaymentResult(h, result.value.value.tag, Success(result.value.value.preimage));
        }
        asked := asked + {h};
      }
      assert asked == Missing(t, addresses);
      FoundIsStored(repo.State(), found);
    }

    method Wait(ghost t: Tables, ghost first: Node, ghost asked: set<Hash>, ghost found: map<Hash, Found>)
      requires RoundInv(repo.State(), node.payments) && Learned(t, repo.State(), node.payments, asked)
          && Later(first, node.payments, {}) && forall h :: h in found ==> FoundSound(node.payments, h, found[h])
      modifies node`payments
      ensures RoundInv(repo.State(), node.payments) && Learned(t, repo.State(), node.payments, asked)
          && Later(first, node.payments, {}) && forall h :: h in found ==> FoundSound(node.payments, h, found[h])
    {
      hide Learned;
      ghost var before := node.payments;
      node.TimePasses({}, repo.State());
      LearnedLater(t, repo.State(), before, node.payments, asked);
      LaterThen(first, before, node.payments, {});
      FoundLater(before, node.payments, found);
    }
  }

  lemma {:induction false} StartOfRound(t: Tables, node: Node)
    ensures Learned(t, t, node, {}) && Later(node, node, {})
  {
  }

  lemma {:induction false} AskMore(t: Tables, now: Tables, node: Node, asked: set<Hash>, h: Hash)
    requires Learned(t, now, node, asked)
    ensures Learned(t, now, node, asked + {h}) && t.swaps.Keys == now.swaps.Keys
  {
  }

  lemma {:induction false} NothingFound(t: Tables)
    ensures Stored(t, map[])
  {
  }

  lemma {:induction false} FoundIsStored(t: Tables, found: map<Hash, Found>)
    requires Stored(t, found)
    ensures forall h :: h in found ==> h in t.swaps && t.swaps[h].preimage.Some?
  {
  }
}
