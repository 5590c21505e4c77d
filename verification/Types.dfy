/** Identifiers, machine integer ranges and small wrappers shared by every module. */
module Types {

  datatype Option<+T> = None | Some(value: T)
  datatype Result<+T, +E> = Ok(value: T) | Err(error: E)

  // Hashes, keys and texts are only ever compared for equality or order.
  type Hash = nat         // lightning payment hash; identifies a swap
  type Preimage = nat
  type Label = nat        // label of a payment attempt
  type RefundId = nat
  type Invoice = nat      // the text of a payment request
  type Address = nat
  type Txid = nat
  type BlockHash = nat

  datatype OutPoint = OutPoint(txid: Txid, vout: nat)

  /** A confirmed output, as the chain repository reports it. */
  datatype Txo = Txo(blockHash: BlockHash, blockHeight: u64, outpoint: OutPoint, value: nat)

  const U16_MAX := 0xFFFF
  const U32_MAX := 0xFFFF_FFFF
  const U64_MAX := 0xFFFF_FFFF_FFFF_FFFF
  const I32_MIN := -0x8000_0000
  const I32_MAX := 0x7FFF_FFFF
  const I64_MIN := -0x8000_0000_0000_0000
  const I64_MAX := 0x7FFF_FFFF_FFFF_FFFF

  type u16 = x: int | 0 <= x <= U16_MAX
  type u32 = x: int | 0 <= x <= U32_MAX
  type u64 = x: int | 0 <= x <= U64_MAX
  type i32 = x: int | I32_MIN <= x <= I32_MAX
  type i64 = x: int | I64_MIN <= x <= I64_MAX

  /** `as i64` and `as i32`: keep the low bits, reinterpret the top one as a sign. */
  function WrapI64(x: int): i64 {
    var low := x % (U64_MAX + 1);
    if low <= I64_MAX then low else low - (U64_MAX + 1)
  }

  function WrapI32(x: int): i32 {
    var low := x % (U32_MAX + 1);
    if low <= I32_MAX then low else low - (U32_MAX + 1)
  }

  function SatAddU64(x: u64, y: u64): u64 { if x + y <= U64_MAX then x + y else U64_MAX }
  function SatSubU64(x: u64, y: u64): u64 { if x >= y then x - y else 0 }
  function SatSubU32(x: u32, y: u32): u32 { if x >= y then x - y else 0 }

  function Min(x: int, y: int): int { if x <= y then x else y }
  function Max(x: int, y: int): int { if x <= y then y else x }

  function SumValues(txos: seq<Txo>): nat {
    if txos == [] then 0 else txos[0].value + SumValues(txos[1..])
  }

  function OutPoints(txos: seq<Txo>): (r: seq<OutPoint>)
    ensures |r| == |txos|
    ensures forall i :: 0 <= i < |txos| ==> r[i] == txos[i].outpoint
  {
    seq(|txos|, i requires 0 <= i < |txos| => txos[i].outpoint)
  }
}
