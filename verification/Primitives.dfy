/** Machine integers, identifiers and results shared by every pallet. */
module Primitives {
  const U32_MAX: int := 0xFFFF_FFFF
  const U128_MAX: int := 0xFFFF_FFFF_FFFF_FFFF_FFFF_FFFF_FFFF_FFFF

  type u8 = x: int | 0 <= x < 256
  type u32 = x: int | 0 <= x <= U32_MAX
  type u128 = x: int | 0 <= x <= U128_MAX
  type Bytes = seq<u8>

  type Bytes32 = b: Bytes | |b| == 32 witness seq(32, _ => 0)

  datatype Account = AccountId32(bytes: Bytes32)
  datatype Did = DidIdentifier(bytes: Bytes32)

  datatype Option<+T> = None | Some(value: T)
  datatype Result<+T> = Ok(value: T) | Err(error: DispatchError)

  /** Who a call claims to come from: a signing account, sudo, or nobody (an unsigned transaction). */
  datatype Origin = Signed(who: Account) | Root | Unsigned

  datatype DispatchError =
    | BadOrigin
      // pallet-qx-kilt-permissions
    | WorkerDIDAlreadyExists
    | WorkerCredentialNotFound
    | AccountHasNoDID
    | InvalidBoundedVec
      // pallet-qx-ai
    | WorkerDIDNotFound
    | InvalidWorkerCredential
    | AIWorkerQueueFull
    | RequestNotFound
    | RequestNotAssigned
    | RequestAlreadyAssigned
      // pallet-qx-faucet
    | ClaimTooSoon
    | MaxClaimsReached
    | FaucetEmpty
      // Currency::transfer
    | FundsUnavailable
    | NotExpendable
    | BalanceOverflow
    | BelowMinimum

  /** `saturating_add` on block numbers. */
  function SatAdd(x: u32, y: u32): (r: u32)
    ensures x <= r && r <= x + y
    ensures x + y <= U32_MAX ==> r == x + y
    ensures x + y > U32_MAX ==> r == U32_MAX
  {
    if x + y <= U32_MAX then x + y else U32_MAX
  }

  /** The plain `id + 1` of the id counters: the release profile leaves overflow checks off, so it wraps. */
  function WrapInc(x: u32): u32 {
    if x == U32_MAX then 0 else x + 1
  }

  /** Transactional dispatch: a failed call leaves the state it started from. */
  function After<S>(s: S, outcome: Result<S>): S {
    if outcome.Ok? then outcome.value else s
  }

  /** What the caller of a dispatched call is told. */
  function Report<S>(outcome: Result<S>): Result<()> {
    if outcome.Ok? then Ok(()) else Err(outcome.error)
  }

  /** The constants and types the runtime hands to the pallets (their `Config` traits). */
  datatype Config = Config(
    hash: Account -> Bytes,
    maxQueueSize: u32,
    workerSuspensionPeriod: u32,
    dripAmount: u128,
    claimCooldown: u32,
    maxClaimsPerAccount: u32,
    faucetPot: Account,
    existentialDeposit: u128)
  {
    /** The hash yields 32 bytes and has no collisions on accounts. */
    ghost predicate WellFormed() {
      && (forall a :: |hash(a)| == 32)
      && (forall a, b :: hash(a) == hash(b) ==> a == b)
    }
  }
}
