/**
 Block counting on the swap's relative timelock: `Txo::confirmations`, the two
 `blocks_left` functions with their saturating and truncating conversions, and
 the rule of BIP 68 they are measured against.
 */
module Timelock {
  import opened Types

  function Confirmations(txoHeight: u64, currentHeight: u64): u64 {
    SatSubU64(SatAddU64(currentHeight, 1), txoHeight)
  }

  /** `ClaimableUtxo::blocks_left`; both `as` casts and the subtraction wrap. */
  function ClaimableBlocksLeft(lockTime: u16, txoHeight: u64, currentHeight: u64): i32 {
    var confirmations := WrapI64(Confirmations(txoHeight, currentHeight));
    WrapI32(WrapI64(lockTime - confirmations))
  }

  function ToI64OrMax(x: u64): i64 { if x <= I64_MAX then x else I64_MAX }

  function SatSubI64(x: i64, y: i64): i64 { Max(I64_MIN, Min(I64_MAX, x - y)) }

  /** `SwapState::blocks_left`; a difference outside 32 bits reads as zero. */
  function SwapBlocksLeft(lockTime: u16, confirmationHeight: u64, currentHeight: u64): i32 {
    var lockHeight := ToI64OrMax(SatAddU64(confirmationHeight, lockTime));
    var left := SatSubI64(lockHeight, ToI64OrMax(currentHeight));
    if I32_MIN <= left <= I32_MAX then left else 0
  }

  /**
   The window of blocks the server may spend on a lightning payment, or None
   when the swap counts as expired.
   */
  function PayoutWindow(blocksLeft: i32, minClaimBlocks: u32, finalDelta: u32, minViableCltv: u32): Option<u32> {
    if blocksLeft < 0 then None else
    var window := SatSubU32(blocksLeft, minClaimBlocks);
    if window == 0 || SatSubU32(window, finalDelta) < minViableCltv then None else Some(window)
  }

  /**
   Section "Specification" of BIP 68 for height-based locks: an input that
   spends an output confirmed at `txoHeight` with relative lock `lockTime` may
   be in the block at `height` exactly when the lock has matured there. The
   refund leaf requires it through OP_CHECKSEQUENCEVERIFY (BIP 112).
   */
  predicate RefundMinable(lockTime: u16, txoHeight: u64, height: nat) {
    height >= txoHeight + lockTime
  }

  predicate RealHeight(h: u64) { h <= I32_MAX }

  /**
   On real heights the two functions differ by exactly one, except for outputs
   beyond the next block, whose confirmations saturate at zero.
   */
  lemma {:induction false} BlocksLeftDifferByOne(lockTime: u16, txoHeight: u64, currentHeight: u64)
    requires RealHeight(txoHeight) && RealHeight(currentHeight)
    ensures (ClaimableBlocksLeft(lockTime, txoHeight, currentHeight)
             == SwapBlocksLeft(lockTime, txoHeight, currentHeight) - 1)
       <==> txoHeight <= currentHeight + 1
  {
    var confirmations := Confirmations(txoHeight, currentHeight);
    assert confirmations % (U64_MAX + 1) == confirmations;
    WrapI64Id(lockTime - confirmations);
    WrapI32Id(lockTime - confirmations);
  }

  lemma {:induction false} WrapI64Id(x: int)
    requires I64_MIN <= x <= I64_MAX
    ensures WrapI64(x) == x
  {
  }

  lemma {:induction false} WrapI32Id(x: int)
    requires I32_MIN <= x <= I32_MAX
    ensures WrapI32(x) == x
  {
  }

  /**
   `ClaimableUtxo::blocks_left` counts the blocks that can still be mined while
   the refund stays out of reach: once `mined` more blocks are there, the refund
   may enter the next one exactly when that many were mined.
   */
  lemma {:induction false} ClaimableBlocksLeftIsDeadline(lockTime: u16, txoHeight: u64, currentHeight: u64, mined: nat)
    requires RealHeight(txoHeight) && RealHeight(currentHeight) && txoHeight <= currentHeight + 1
    ensures RefundMinable(lockTime, txoHeight, currentHeight + mined + 1)
       <==> mined >= ClaimableBlocksLeft(lockTime, txoHeight, currentHeight)
  {
    var confirmations := Confirmations(txoHeight, currentHeight);
    WrapI64Id(confirmations);
    WrapI64Id(lockTime - confirmations);
    WrapI32Id(lockTime - confirmations);
  }

  /**
   Whatever saturates or truncates on the way, a window that is granted really
   fits: with the blocks reserved for claiming it ends no later than the lock of
   every output confirmed at or above the height the window was computed from.
   */
  lemma {:induction false} WindowFitsLock(lockTime: u16, minHeight: u64, currentHeight: u64,
                       minClaimBlocks: u32, finalDelta: u32, minViableCltv: u32, txoHeight: u64)
    requires minHeight <= txoHeight
    ensures var w := PayoutWindow(SwapBlocksLeft(lockTime, minHeight, currentHeight), minClaimBlocks, finalDelta,
        minViableCltv);
            w.Some? ==> txoHeight + lockTime >= currentHeight + w.value + minClaimBlocks
  {
  }

  /** The window a swap gets whose lowest output is confirmed at that height. */
  function WindowAt(lockTime: u16, minHeight: u64, currentHeight: u64, minClaimBlocks: u32, finalDelta: u32,
      minViableCltv: u32)
    : Option<u32>
  {
    PayoutWindow(SwapBlocksLeft(lockTime, minHeight, currentHeight), minClaimBlocks, finalDelta, minViableCltv)
  }

  /** The blocks until the lock of an output confirmed at that height; heights beyond 63 bits count as the highest. */
  function BlocksToLock(lockTime: u16, minHeight: u64, currentHeight: u64): int {
    Min(minHeight + lockTime, I64_MAX) - Min(currentHeight, I64_MAX)
  }

  /**
   A window is granted exactly when the blocks to the lock, less the reserve for
   claiming, leave at least one block and the final delta with the viable minimum (the
   latter counting for nothing when the minimum is zero); the window is all they leave.
   More blocks than 32 bits hold count as none.
   */
  lemma {:induction false} WindowGrantedWhen(lockTime: u16, minHeight: u64, currentHeight: u64, minClaimBlocks: u32,
      finalDelta: u32, minViableCltv: u32)
    ensures var left := BlocksToLock(lockTime, minHeight, currentHeight);
            var w := WindowAt(lockTime, minHeight, currentHeight, minClaimBlocks, finalDelta, minViableCltv);
            && (w.Some? <==>
                  && minClaimBlocks < left <= I32_MAX
                  && (minViableCltv > 0 ==> left >= minClaimBlocks + finalDelta + minViableCltv))
            && (w.Some? ==> w.value == left - minClaimBlocks)
  {
  }

  predicate CoversFinalDelta(window: Option<u32>, finalDelta: u32, minViableCltv: u32) {
    window.Some? ==> window.value >= finalDelta + minViableCltv
  }

  /** Of an output in the chain no more blocks are left than its lock time. */
  lemma {:induction false} BlocksLeftAtMostLock(lockTime: u16, minHeight: u64, currentHeight: u64)
    requires minHeight <= currentHeight
    ensures SwapBlocksLeft(lockTime, minHeight, currentHeight) <= lockTime
  {
  }

  /**
   The window leaves the receiver its final delta plus the viable minimum exactly
   when that minimum is positive, or when the reserve takes up any lock time there
   is, so that no window is granted at all.
   */
  lemma {:induction false} WindowCoversFinalDelta(minClaimBlocks: u32, minViableCltv: u32)
    ensures (forall lockTime: u16, minHeight: u64, currentHeight: u64, finalDelta: u32 :: minHeight <= currentHeight ==>
               CoversFinalDelta(WindowAt(lockTime, minHeight, currentHeight, minClaimBlocks, finalDelta,
                   minViableCltv), finalDelta, minViableCltv))
       <==> minViableCltv > 0 || minClaimBlocks >= U16_MAX
  {
    if minViableCltv == 0 && minClaimBlocks < U16_MAX {
      // An output in the tip, a lock one block above the reserve, and an invoice that wants two.
      assert WindowAt(minClaimBlocks + 1, 0, 0, minClaimBlocks, 2, minViableCltv) == Some(1);
      assert !CoversFinalDelta(WindowAt(minClaimBlocks + 1, 0, 0, minClaimBlocks, 2, minViableCltv), 2, minViableCltv);
    } else {
      forall lockTime: u16, minHeight: u64, currentHeight: u64, finalDelta: u32 | minHeight <= currentHeight
        ensures CoversFinalDelta(WindowAt(lockTime, minHeight, currentHeight, minClaimBlocks, finalDelta,
            minViableCltv), finalDelta, minViableCltv)
      {
        BlocksLeftAtMostLock(lockTime, minHeight, currentHeight);
      }
    }
  }
}
