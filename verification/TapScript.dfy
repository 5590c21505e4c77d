/**
 The claim leaf of a swap as `create_swap` builds it, and a machine for the few
 opcodes in it: what it takes to spend an output through that leaf.
 */
module TapScript {
  import opened Types
  import opened ClaimTx

  datatype Op =
    | Hash160 | PushHash(digest: nat) | EqualVerify
    | PushKey(owner: Hash)   // the claim key of that swap
    | CheckSig

  datatype Element =
    | Signed(signer: Hash) | Bytes(preimage: Preimage) | Digest(digest: nat) | Key(owner: Hash) | Truth(holds: bool)

  /** SHA-256 of a preimage, and RIPEMD-160 of that; HASH160 is one after the other. */
  datatype Hashing = Hashing(sha256: Preimage -> Hash, ripemd160: Hash -> nat)

  function ClaimLeaf(swap: Hash, hashing: Hashing): seq<Op> {
    [Hash160, PushHash(hashing.ripemd160(swap)), EqualVerify, PushKey(swap), CheckSig]
  }

  /** Opcodes take one byte, pushes one more than what they push. */
  function OpSize(op: Op): nat {
    match op
    case PushHash(_) => 1 + 20
    case PushKey(_) => 1 + 32
    case _ => 1
  }

  function LeafSize(ops: seq<Op>): nat {
    if ops == [] then 0 else OpSize(ops[0]) + LeafSize(ops[1..])
  }

  type Stack = seq<Element>   // the top is last

  /** One opcode; None when the script fails. */
  function Execute(op: Op, stack: Stack, hashing: Hashing): Option<Stack> {
    match op
    case PushHash(d) => Some(stack + [Digest(d)])
    case PushKey(k) => Some(stack + [Key(k)])
    case Hash160 =>
      if stack == [] || !stack[|stack| - 1].Bytes? then None else
      Some(stack[..|stack| - 1] + [Digest(hashing.ripemd160(hashing.sha256(stack[|stack| - 1].preimage)))])
    case EqualVerify =>
      if |stack| < 2 || stack[|stack| - 1] != stack[|stack| - 2] then None else Some(stack[..|stack| - 2])
    case CheckSig =>
      if |stack| < 2 || !stack[|stack| - 1].Key? || !stack[|stack| - 2].Signed? then None else
      Some(stack[..|stack| - 2] + [Truth(stack[|stack| - 2].signer == stack[|stack| - 1].owner)])
  }

  function Run(ops: seq<Op>, stack: Stack, hashing: Hashing): Option<Stack> {
    if ops == [] then Some(stack) else
    var next := Execute(ops[0], stack, hashing);
    if next.None? then None else Run(ops[1..], next.value, hashing)
  }

  /** What a witness item is on the stack; scripts and control blocks never get there in a claim. */
  function OnStack(item: WitnessItem): Option<Element> {
    match item
    case Signature(swap) => Some(Signed(swap))
    case Secret(p) => Some(Bytes(p))
    case _ => None
  }

  function Elements(items: seq<WitnessItem>): Option<Stack> {
    if items == [] then Some([]) else
    var below, top := Elements(items[..|items| - 1]), OnStack(items[|items| - 1]);
    if below.None? || top.None? then None else Some(below.value + [top.value])
  }

  /**
   Spending through the claim leaf: by section "Script validation rules" of BIP 341 the
   last item is the control block and the one before it the script, which runs on what
   is left; by BIP 342 it has to leave one true element and nothing else.
   */
  predicate Unlocks(items: seq<WitnessItem>, swap: Hash, hashing: Hashing) {
    var n := |items|;
    && n >= 2 && items[n - 1] == ControlBlock(swap) && items[n - 2] == ClaimScript(swap)
    && Elements(items[..n - 2]).Some?
    && Run(ClaimLeaf(swap, hashing), Elements(items[..n - 2]).value, hashing) == Some([Truth(true)])
  }

  lemma {:induction false} RunFirst(op: Op, ops: seq<Op>, stack: Stack, hashing: Hashing)
    ensures Run([op] + ops, stack, hashing)
         == var next := Execute(op, stack, hashing); if next.None? then None else Run(ops, next.value, hashing)
  {
    assert ([op] + ops)[1..] == ops;
  }

  /** The leaf is open to a signature by its key below a preimage of its hash. */
  lemma {:induction false} LeafOpensWhen(swap: Hash, signer: Hash, p: Preimage, hashing: Hashing)
    ensures Run(ClaimLeaf(swap, hashing), [Signed(signer), Bytes(p)], hashing) == Some([Truth(true)])
       <==> signer == swap && hashing.ripemd160(hashing.sha256(p)) == hashing.ripemd160(swap)
  {
    hide Run;
    var digest := hashing.ripemd160(swap);
    var found := hashing.ripemd160(hashing.sha256(p));
    var ops := ClaimLeaf(swap, hashing);
    var start, hashed, both := [Signed(signer), Bytes(p)], [Signed(signer), Digest(found)],
        [Signed(signer), Digest(found), Digest(digest)];
    var left, keyed := [Signed(signer)], [Signed(signer), Key(swap)];
    assert start[..1] == left && left + [Digest(found)] == hashed && hashed + [Digest(digest)] == both;
    assert both[..1] == left && left + [Key(swap)] == keyed
        && keyed[..0] + [Truth(signer == swap)] == [Truth(signer == swap)];
    assert ops == [ops[0]] + ops[1..] && ops[1..] == [ops[1]] + ops[2..] && ops[2..] == [ops[2]] + ops[3..];
    assert ops[3..] == [ops[3]] + ops[4..] && ops[4..] == [ops[4]] + [];
    RunFirst(ops[0], ops[1..], start, hashing);
    RunFirst(ops[1], ops[2..], hashed, hashing);
    RunFirst(ops[2], ops[3..], both, hashing);
    RunFirst(ops[3], ops[4..], left, hashing);
    RunFirst(ops[4], [], keyed, hashing);
    RunNothing([Truth(signer == swap)], hashing);
  }

  lemma {:induction false} RunNothing(stack: Stack, hashing: Hashing)
    ensures Run([], stack, hashing) == Some(stack)
  {
  }

  lemma {:induction false} PushItem(items: seq<WitnessItem>, item: WitnessItem)
    ensures Elements([]) == Some([])
    ensures Elements(items).Some? && OnStack(item).Some? ==>
        Elements(items + [item]) == Some(Elements(items).value + [OnStack(item).value])
  {
    assert (items + [item])[..|items|] == items;
  }

  /** The witness of a claimable unlocks its swap's leaf exactly when its preimage hashes to what the leaf asks for. */
  lemma {:induction false} WitnessUnlocksWhen(c: Claimable, hashing: Hashing)
    ensures Unlocks(WitnessFor(c), c.swapHash, hashing)
       <==> hashing.ripemd160(hashing.sha256(c.preimage)) == hashing.ripemd160(c.swapHash)
  {
    hide Run;
    var items := WitnessFor(c);
    assert items[..2] == [items[0], items[1]] && items[..2][..1] == [items[0]];
    var signature, secret := [items[0]], [items[0], items[1]];
    PushItem([], items[0]);
    PushItem(signature, items[1]);
    assert [] + [items[0]] == signature && signature + [items[1]] == secret && items[..2] == secret;
    assert Elements(signature).value == [Signed(c.swapHash)];
    assert Elements(secret).value == [Signed(c.swapHash), Bytes(c.preimage)];
    assert |items| == 4 && items[3] == ControlBlock(c.swapHash) && items[2] == ClaimScript(c.swapHash);
    LeafOpensWhen(c.swapHash, c.swapHash, c.preimage, hashing);
  }

  /** So a claim made with the right preimages can be mined: each input opens the output it spends. */
  lemma {:induction false} ClaimUnlocks(cs: seq<Claimable>, satPerKw: u32, currentHeight: u64,
      destination: Destination, dustLimit: u64, hashing: Hashing, i: nat)
    requires dustLimit > 0 && forall c :: c in cs ==> hashing.sha256(c.preimage) == c.swapHash
    requires ClaimTransaction(cs, satPerKw, currentHeight, destination, dustLimit).Ok?
    requires i < |ClaimTransaction(cs, satPerKw, currentHeight, destination, dustLimit).value.input|
    ensures var input := ClaimTransaction(cs, satPerKw, currentHeight, destination, dustLimit).value.input[i];
            exists c :: c in cs && input.previousOutput == c.utxo.outpoint && Unlocks(input.stack, c.swapHash, hashing)
  {
    hide ClaimTransaction, FeeSat, Unlocks, WitnessFor, TotalValue;
    ClaimConserves(cs, satPerKw, currentHeight, destination, dustLimit);
    var tx := ClaimTransaction(cs, satPerKw, currentHeight, destination, dustLimit).value;
    var input := tx.input[i];
    assert exists c :: c in cs && input == TxIn(c.utxo.outpoint, WitnessFor(c));
    var c :| c in cs && input == TxIn(c.utxo.outpoint, WitnessFor(c));
    WitnessUnlocksWhen(c, hashing);
  }
}
