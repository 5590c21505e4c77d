/**
 The bytes of a claim transaction, field by field, and what they say about its
 weight and its id.
 */
module Serialization {
  import opened Types
  import opened ClaimTx
  import opened TapScript

  type byte = x: int | 0 <= x <= 0xFF

  // --------------------------------------------------------------- numbers

  function LittleEndian(n: nat, width: nat): (r: seq<byte>)
    ensures |r| == width
  {
    if width == 0 then [] else [n % 0x100] + LittleEndian(n / 0x100, width - 1)
  }

  function FromLittleEndian(bytes: seq<byte>): nat {
    if bytes == [] then 0 else bytes[0] + 0x100 * FromLittleEndian(bytes[1..])
  }

  function Power256(width: nat): nat { if width == 0 then 1 else 0x100 * Power256(width - 1) }

  lemma {:induction false} LittleEndianRoundTrip(n: nat, width: nat)
    requires n < Power256(width)
    ensures FromLittleEndian(LittleEndian(n, width)) == n
  {
    if width > 0 {
      LittleEndianRoundTrip(n / 0x100, width - 1);
      assert LittleEndian(n, width)[1..] == LittleEndian(n / 0x100, width - 1);
    }
  }

  /** "Variable length integer" of the protocol: small numbers in one byte, others behind a marker. */
  function CompactBytes(n: nat): seq<byte> {
    if n <= 0xFC then [n]
    else if n <= 0xFFFF then [0xFD] + LittleEndian(n, 2)
    else if n <= 0xFFFF_FFFF then [0xFE] + LittleEndian(n, 4)
    else [0xFF] + LittleEndian(n, 8)
  }

  /** Two concatenations that agree agree part by part. */
  lemma {:induction false} SplitAt(a: seq<byte>, x: seq<byte>, b: seq<byte>, y: seq<byte>)
    requires |a| == |b| && a + x == b + y
    ensures a == b && x == y
  {
    assert a == (a + x)[..|a|] && b == (b + y)[..|b|];
    assert x == (a + x)[|a|..] && y == (b + y)[|b|..];
  }

  lemma {:induction false} SameNumber(m: nat, n: nat, width: nat, x: seq<byte>, y: seq<byte>)
    requires m < Power256(width) && n < Power256(width)
    requires LittleEndian(m, width) + x == LittleEndian(n, width) + y
    ensures m == n && x == y
  {
    SplitAt(LittleEndian(m, width), x, LittleEndian(n, width), y);
    LittleEndianRoundTrip(m, width);
    LittleEndianRoundTrip(n, width);
  }

  lemma {:induction false} Widths()
    ensures Power256(2) == 0x1_0000 && Power256(4) == 0x1_0000_0000 && Power256(8) == 0x1_0000_0000_0000_0000
  {
  }

  /** The first byte, and how many follow it. */
  function Marker(n: nat): byte
    requires n <= U64_MAX
  {
    if n <= 0xFC then n else if n <= 0xFFFF then 0xFD else if n <= 0xFFFF_FFFF then 0xFE else 0xFF
  }

  function Following(marker: byte): nat {
    if marker <= 0xFC then 0 else if marker == 0xFD then 2 else if marker == 0xFE then 4 else 8
  }

  lemma {:induction false} CompactForm(n: nat)
    requires n <= U64_MAX
    ensures n > 0xFC ==> Marker(n) > 0xFC && n < Power256(Following(Marker(n)))
    ensures CompactBytes(n) == [Marker(n)] + if n <= 0xFC then [] else LittleEndian(n, Following(Marker(n)))
  {
    Widths();
  }

  /** A compact number can be read off the bytes it starts. */
  lemma {:induction false} SameCompact(m: nat, n: nat, x: seq<byte>, y: seq<byte>)
    requires m <= U64_MAX && n <= U64_MAX && CompactBytes(m) + x == CompactBytes(n) + y
    ensures m == n && x == y
  {
    hide CompactBytes, LittleEndian, Power256;
    CompactForm(m);
    CompactForm(n);
    var width := Following(Marker(m));
    assert (CompactBytes(m) + x)[0] == Marker(m) && (CompactBytes(n) + y)[0] == Marker(n);
    var more := if m <= 0xFC then [] else LittleEndian(m, width);
    var more' := if n <= 0xFC then [] else LittleEndian(n, Following(Marker(n)));
    assert CompactBytes(m) + x == [Marker(m)] + (more + x) && CompactBytes(n) + y == [Marker(n)] + (more' + y);
    SplitAt([Marker(m)], more + x, [Marker(n)], more' + y);
    assert m <= 0xFC <==> n <= 0xFC;
    if m <= 0xFC {
      SplitAt([], x, [], y);
    } else {
      SameNumber(m, n, width, x, y);
    }
  }

  // ---------------------------------------------------------- transactions

  /** Id and index of the output spent, no script, sequence zero. */
  function InputBytes(input: TxIn): seq<byte> {
    LittleEndian(input.previousOutput.txid, 32)
    + (LittleEndian(input.previousOutput.vout, 4) + (CompactBytes(0) + LittleEndian(0, 4)))
  }

  function InputsBytes(input: seq<TxIn>): seq<byte> {
    if input == [] then [] else InputBytes(input[0]) + InputsBytes(input[1..])
  }

  function OutputBytes(value: nat, script: seq<byte>): seq<byte> {
    LittleEndian(value, 8) + (CompactBytes(|script|) + script)
  }

  /** Version two, the inputs, the one output, the lock time: everything but the witnesses. */
  function TxBytes(tx: Transaction, script: seq<byte>): seq<byte> {
    LittleEndian(2, 4)
    + (CompactBytes(|tx.input|) + (InputsBytes(tx.input)
    + (CompactBytes(1) + (OutputBytes(tx.value, script) + LittleEndian(tx.lockTime, 4)))))
  }

  lemma {:induction false} InputsLength(input: seq<TxIn>)
    ensures |InputsBytes(input)| == 41 * |input|
  {
    if input != [] { InputsLength(input[1..]); }
  }

  /** The size fees are computed from is the length of the transaction. */
  lemma {:induction false} BaseSizeIsLength(tx: Transaction, script: seq<byte>)
    ensures |TxBytes(tx, script)| == BaseSize(|tx.input|, |script|)
  {
    InputsLength(tx.input);
  }

  ghost predicate Fits(tx: Transaction) {
    && |tx.input| <= U64_MAX && tx.value <= U64_MAX
    && forall i :: 0 <= i < |tx.input| ==>
         tx.input[i].previousOutput.txid < Power256(32) && tx.input[i].previousOutput.vout < Power256(4)
  }

  lemma {:induction false} SameInput(a: TxIn, b: TxIn, x: seq<byte>, y: seq<byte>)
    requires a.previousOutput.txid < Power256(32) && a.previousOutput.vout < Power256(4)
    requires b.previousOutput.txid < Power256(32) && b.previousOutput.vout < Power256(4)
    requires InputBytes(a) + x == InputBytes(b) + y
    ensures a.previousOutput == b.previousOutput && x == y
  {
    hide Power256, LittleEndian;
    SplitAt(InputBytes(a), x, InputBytes(b), y);
    var rest := CompactBytes(0) + LittleEndian(0, 4);
    SameNumber(a.previousOutput.txid, b.previousOutput.txid, 32, LittleEndian(a.previousOutput.vout, 4) + rest,
        LittleEndian(b.previousOutput.vout, 4) + rest);
    SameNumber(a.previousOutput.vout, b.previousOutput.vout, 4, rest, rest);
  }

  lemma {:induction false} SameInputs(a: seq<TxIn>, b: seq<TxIn>, x: seq<byte>, y: seq<byte>)
    requires |a| == |b| && InputsBytes(a) + x == InputsBytes(b) + y
    requires forall i :: 0 <= i < |a| ==>
        a[i].previousOutput.txid < Power256(32) && a[i].previousOutput.vout < Power256(4)
    requires forall i :: 0 <= i < |b| ==>
        b[i].previousOutput.txid < Power256(32) && b[i].previousOutput.vout < Power256(4)
    ensures x == y && forall i :: 0 <= i < |a| ==> a[i].previousOutput == b[i].previousOutput
  {
    hide Power256, InputBytes;
    if a != [] {
      assert InputsBytes(a) + x == InputBytes(a[0]) + (InputsBytes(a[1..]) + x);
      assert InputsBytes(b) + y == InputBytes(b[0]) + (InputsBytes(b[1..]) + y);
      SameInput(a[0], b[0], InputsBytes(a[1..]) + x, InputsBytes(b[1..]) + y);
      SameInputs(a[1..], b[1..], x, y);
      forall i | 0 <= i < |a| ensures a[i].previousOutput == b[i].previousOutput {
        if i > 0 { assert a[i] == a[1..][i - 1] && b[i] == b[1..][i - 1]; }
      }
    } else {
      assert x == InputsBytes(a) + x && y == InputsBytes(b) + y;
    }
  }

  lemma {:induction false} SameOutput(v: nat, script: seq<byte>, x: seq<byte>, v': nat, script': seq<byte>,
      x': seq<byte>)
    requires v <= U64_MAX && v' <= U64_MAX && |script| <= U64_MAX && |script'| <= U64_MAX
    requires OutputBytes(v, script) + x == OutputBytes(v', script') + x'
    ensures v == v' && script == script' && x == x'
  {
    hide CompactBytes, LittleEndian;
    Widths();
    var s, s' := CompactBytes(|script|) + (script + x), CompactBytes(|script'|) + (script' + x');
    assert OutputBytes(v, script) + x == LittleEndian(v, 8) + s;
    assert OutputBytes(v', script') + x' == LittleEndian(v', 8) + s';
    SameNumber(v, v', 8, s, s');
    SameCompact(|script|, |script'|, script + x, script' + x');
    SplitAt(script, x, script', x');
  }

  /**
   A transaction id is a hash of these bytes. They are the same for two claims exactly
   when lock time, outpoints, destination and value are; witnesses play no part.
   */
  lemma {:induction false} BytesIdentify(a: Transaction, b: Transaction, script: seq<byte>, script': seq<byte>)
    requires Fits(a) && Fits(b) && |script| <= U64_MAX && |script'| <= U64_MAX
    requires script == script' <==> a.destination == b.destination
    ensures TxBytes(a, script) == TxBytes(b, script') <==> IdentityOf(a) == IdentityOf(b)
  {
    if TxBytes(a, script) == TxBytes(b, script') {
      SameFields(a, b, script, script');
    }
    if IdentityOf(a) == IdentityOf(b) {
      assert |Spent(a)| == |Spent(b)|;
      forall i | 0 <= i < |a.input| ensures a.input[i].previousOutput == b.input[i].previousOutput {
        assert Spent(a)[i] == Spent(b)[i];
      }
      SameSpends(a.input, b.input);
    }
  }

  lemma {:induction false} SameSpends(a: seq<TxIn>, b: seq<TxIn>)
    requires |a| == |b| && forall i :: 0 <= i < |a| ==> a[i].previousOutput == b[i].previousOutput
    ensures InputsBytes(a) == InputsBytes(b)
  {
    if a != [] { SameSpends(a[1..], b[1..]); }
  }

  lemma {:induction false} SameFields(a: Transaction, b: Transaction, script: seq<byte>, script': seq<byte>)
    requires Fits(a) && Fits(b) && |script| <= U64_MAX && |script'| <= U64_MAX
    requires TxBytes(a, script) == TxBytes(b, script')
    ensures Spent(a) == Spent(b) && a.value == b.value && script == script' && a.lockTime == b.lockTime
  {
    hide CompactBytes, LittleEndian, InputsBytes, OutputBytes, Power256;
    var end, end' := LittleEndian(a.lockTime, 4), LittleEndian(b.lockTime, 4);
    var outs, outs' := OutputBytes(a.value, script) + end, OutputBytes(b.value, script') + end';
    var ins, ins' := InputsBytes(a.input) + (CompactBytes(1) + outs), InputsBytes(b.input) + (CompactBytes(1) + outs');
    SplitAt(LittleEndian(2, 4), CompactBytes(|a.input|) + ins, LittleEndian(2, 4), CompactBytes(|b.input|) + ins');
    SameCompact(|a.input|, |b.input|, ins, ins');
    SameInputs(a.input, b.input, CompactBytes(1) + outs, CompactBytes(1) + outs');
    SameCompact(1, 1, outs, outs');
    SameOutput(a.value, script, end, b.value, script', end');
    Widths();
    assert end == end + [] && end' == end' + [];
    SameNumber(a.lockTime, b.lockTime, 4, [], []);
  }

  // --------------------------------------------------------------- weight

  /** Length of each witness item. */
  function ItemLength(item: WitnessItem): nat {
    match item
    case Signature(_) => 64
    case Secret(_) => 32
    case ClaimScript(swap) => LeafSize(ClaimLeaf(swap, Hashing(_ => 0, _ => 0)))
    case ControlBlock(_) => 33 + 32
  }

  function ItemsSize(items: seq<WitnessItem>): nat {
    if items == [] then 0
    else CompactSize(ItemLength(items[0])) + ItemLength(items[0]) + ItemsSize(items[1..])
  }

  function WitnessesSize(input: seq<TxIn>): nat {
    if input == [] then 0
    else CompactSize(|input[0].stack|) + ItemsSize(input[0].stack) + WitnessesSize(input[1..])
  }

  lemma {:induction false} ItemsCons(item: WitnessItem, items: seq<WitnessItem>)
    ensures ItemsSize([item] + items) == CompactSize(ItemLength(item)) + ItemLength(item) + ItemsSize(items)
  {
  }

  /** The claim script has the same length whatever it commits to. */
  lemma {:induction false} ClaimLeafSize(swap: Hash, hashing: Hashing)
    ensures LeafSize(ClaimLeaf(swap, hashing)) == 57
  {
    var ops := ClaimLeaf(swap, hashing);
    assert ops[1..][1..] == ops[2..] && ops[2..][1..] == ops[3..] && ops[3..][1..] == ops[4..] && ops[4..][1..] == [];
    assert LeafSize(ops[4..]) == 1;
    assert LeafSize(ops[3..]) == 34;
    assert LeafSize(ops[2..]) == 35;
    assert LeafSize(ops[1..]) == 56;
  }

  lemma {:induction false} WitnessSize(c: Claimable)
    ensures CompactSize(|WitnessFor(c)|) + ItemsSize(WitnessFor(c)) == CLAIM_INPUT_WITNESS_SIZE + 1
  {
    hide ItemsSize, LeafSize;
    var w := WitnessFor(c);
    ClaimLeafSize(c.swapHash, Hashing(_ => 0, _ => 0));
    assert w == [w[0]] + [w[1], w[2], w[3]] && [w[1], w[2], w[3]] == [w[1]] + [w[2], w[3]];
    assert [w[2], w[3]] == [w[2]] + [w[3]] && [w[3]] == [w[3]] + [];
    ItemsCons(w[0], [w[1], w[2], w[3]]);
    ItemsCons(w[1], [w[2], w[3]]);
    ItemsCons(w[2], [w[3]]);
    ItemsCons(w[3], []);
    NoItems();
  }

  lemma {:induction false} NoItems()
    ensures ItemsSize([]) == 0
  {
  }

  lemma {:induction false} WitnessesOfClaim(cs: seq<Claimable>)
    ensures WitnessesSize(SignedInputs(cs)) == (CLAIM_INPUT_WITNESS_SIZE + 1) * |cs|
  {
    hide ItemsSize, WitnessFor;
    if cs != [] {
      WitnessesOfClaim(cs[1..]);
      assert SignedInputs(cs)[1..] == SignedInputs(cs[1..]);
      WitnessSize(cs[0]);
    }
  }

  /**
   Section "Transaction size calculations" of BIP 141: three times the bytes without
   marker, flag and witnesses, and once all bytes.
   */
  function SignedWeight(tx: Transaction, script: seq<byte>): nat {
    3 * |TxBytes(tx, script)| + (|TxBytes(tx, script)| + 2 + WitnessesSize(tx.input))
  }

  /**
   The estimate falls short of the signed weight by the marker, the flag and one
   item count per input; so the fee covers the requested rate on all but that
   many weight units, and no more than that.
   */
  lemma {:induction false} SignedWeightGap(cs: seq<Claimable>, satPerKw: u32, currentHeight: u64,
      destination: Destination, dustLimit: u64, script: seq<byte>)
    requires cs != [] && dustLimit > 0 && |script| == destination.scriptLength
    requires ClaimTransaction(cs, satPerKw, currentHeight, destination, dustLimit).Ok?
    ensures var tx := ClaimTransaction(cs, satPerKw, currentHeight, destination, dustLimit).value;
            var (fee, covered) := (TotalValue(cs) - tx.value, SignedWeight(tx, script) - |cs| - 2);
            && tx.destination == destination && |tx.input| == |cs|
            && covered * satPerKw <= 1000 * fee < covered * satPerKw + 1000
  {
    hide TxBytes, WitnessesSize, ClaimTransaction, TotalValue, EstimatedWeight;
    ClaimConserves(cs, satPerKw, currentHeight, destination, dustLimit);
    WeightGap(cs, satPerKw, currentHeight, destination, dustLimit, script);
    CeilingBounds(EstimatedWeight(|cs|, |script|) * satPerKw);
  }

  lemma {:induction false} WeightGap(cs: seq<Claimable>, satPerKw: u32, currentHeight: u64, destination: Destination,
      dustLimit: u64, script: seq<byte>)
    requires cs != [] && |script| == destination.scriptLength
    requires ClaimTransaction(cs, satPerKw, currentHeight, destination, dustLimit).Ok?
    ensures var tx := ClaimTransaction(cs, satPerKw, currentHeight, destination, dustLimit).value;
            SignedWeight(tx, script) == EstimatedWeight(|cs|, |script|) + |cs| + 2
  {
    hide TxBytes, WitnessesSize, FeeSat;
    var tx := ClaimTransaction(cs, satPerKw, currentHeight, destination, dustLimit).value;
    var sorted := SortByOutPoint(cs);
    SameMembers(sorted, cs);
    WitnessesOfClaim(sorted);
    BaseSizeIsLength(tx, script);
  }

  lemma {:induction false} CeilingBounds(x: nat)
    ensures x <= 1000 * DivCeil(x, 1000) < x + 1000
  {
  }
}
