/** Rate-limited token distribution (pallet-qx-faucet). */
module Faucets {
  import opened Primitives
  import MapSums
  import opened Balances

  datatype TransactionValidity = Valid | Stale | ExhaustsResources

  datatype Faucet = Faucet(lastClaim: map<Account, u32>, claimCount: map<Account, u32>)
  {
    function Count(a: Account): u32 {
      if a in claimCount then claimCount[a] else 0
    }

    predicate Cooling(cfg: Config, now: u32, a: Account) {
      a in lastClaim && now < SatAdd(lastClaim[a], cfg.claimCooldown)
    }

    function Claimed(now: u32, a: Account): Faucet {
      Faucet(lastClaim[a := now], claimCount[a := SatAdd(Count(a), 1)])
    }

    function Claim(cfg: Config, ledger: Ledger, now: u32, origin: Origin, a: Account): Result<(Faucet, Ledger)> {
      if !origin.Unsigned? then Err(BadOrigin)
      else if Cooling(cfg, now, a) then Err(ClaimTooSoon)
      else if Count(a) >= cfg.maxClaimsPerAccount then Err(MaxClaimsReached)
      else if Free(ledger, cfg.faucetPot) < cfg.dripAmount then Err(FaucetEmpty)
      else
        match Transfer(cfg, ledger, cfg.faucetPot, a, cfg.dripAmount)
        case Err(e) => Err(e)
        case Ok(ledger') => Ok((Claimed(now, a), ledger'))
    }

    /** What the transaction pool answers to an unsigned claim. */
    function ValidateUnsigned(cfg: Config, ledger: Ledger, now: u32, a: Account): TransactionValidity {
      if a in lastClaim && now < SatAdd(lastClaim[a], cfg.claimCooldown) then Stale
      else if Count(a) >= cfg.maxClaimsPerAccount then ExhaustsResources
      else if Free(ledger, cfg.faucetPot) < cfg.dripAmount then ExhaustsResources
      else Valid
    }

    function RemainingClaims(cfg: Config, a: Account): u32 {
      if cfg.maxClaimsPerAccount >= Count(a) then cfg.maxClaimsPerAccount - Count(a) else 0
    }

    predicate CanClaim(cfg: Config, ledger: Ledger, now: u32, a: Account) {
      if Count(a) >= cfg.maxClaimsPerAccount then false
      else if a in lastClaim && now < SatAdd(lastClaim[a], cfg.claimCooldown) then false
      else Free(ledger, cfg.faucetPot) >= cfg.dripAmount
    }

    function FundFaucet(cfg: Config, ledger: Ledger, origin: Origin, amount: u128): Result<Ledger> {
      if !origin.Signed? then Err(BadOrigin)
      else Transfer(cfg, ledger, origin.who, cfg.faucetPot, amount)
    }
  }

  /** The account's last claim lies a cooldown back; at the last block number the wait is over for everyone. */
  predicate Rested(cfg: Config, f: Faucet, now: u32, a: Account) {
    a in f.lastClaim ==> now == U32_MAX || f.lastClaim[a] + cfg.claimCooldown <= now
  }

  /** The account has made fewer claims than it may; without a record it has made none. */
  predicate HasClaimsLeft(cfg: Config, f: Faucet, a: Account) {
    if a in f.claimCount then f.claimCount[a] < cfg.maxClaimsPerAccount else cfg.maxClaimsPerAccount > 0
  }

  /**
   The query and the pool, told from the storage: a claim may be made by a rested account with
   claims left while the pot holds a drip, and the existential deposit plays no part in it.
   */
  lemma GuardFromStorage(cfg: Config, f: Faucet, ledger: Ledger, now: u32, a: Account)
    ensures f.CanClaim(cfg, ledger, now, a) <==>
            Rested(cfg, f, now, a) && HasClaimsLeft(cfg, f, a) && Free(ledger, cfg.faucetPot) >= cfg.dripAmount
    ensures f.ValidateUnsigned(cfg, ledger, now, a) ==
            if !Rested(cfg, f, now, a) then Stale
            else if HasClaimsLeft(cfg, f, a) && Free(ledger, cfg.faucetPot) >= cfg.dripAmount then Valid
            else ExhaustsResources
  {
  }

  /** The claims left and the claims made come to the lifetime cap. */
  lemma RemainingCompletesCap(cfg: Config, f: Faucet, now: u32, a: Account)
    requires FaucetInv(cfg, f, now)
    ensures f.RemainingClaims(cfg, a) + (if a in f.claimCount then f.claimCount[a] else 0) == cfg.maxClaimsPerAccount
    ensures f.RemainingClaims(cfg, a) > 0 <==> HasClaimsLeft(cfg, f, a)
  {
    assert a in f.lastClaim ==> RecordOk(cfg, f.claimCount[a], f.lastClaim[a], now);
  }

  /**
   The pool, the query and the call apply the same three checks. A claim then succeeds exactly
   when the pot is paying itself, or the drip is nothing, or both the pot and the receiver end
   up at or above the existential deposit; the receiver cannot overflow.
   */
  lemma GuardsAgree(cfg: Config, f: Faucet, ledger: Ledger, now: u32, a: Account)
    requires LedgerInv(ledger)
    ensures f.ValidateUnsigned(cfg, ledger, now, a) == Valid <==> f.CanClaim(cfg, ledger, now, a)
    ensures f.CanClaim(cfg, ledger, now, a) <==>
            var outcome := f.Claim(cfg, ledger, now, Unsigned, a);
            outcome.Ok? || outcome.error in {FundsUnavailable, NotExpendable, BalanceOverflow, BelowMinimum}
    ensures f.Claim(cfg, ledger, now, Unsigned, a).Ok? <==>
            && f.CanClaim(cfg, ledger, now, a)
            && (|| a == cfg.faucetPot
                || cfg.dripAmount == 0
                || (&& Free(ledger, cfg.faucetPot) >= cfg.dripAmount + cfg.existentialDeposit
                    && Free(ledger, a) + cfg.dripAmount >= cfg.existentialDeposit))
  {
    if a != cfg.faucetPot {
      NoOverflow(ledger, cfg.faucetPot, a);
    }
  }

  /**
   What every reachable claim record satisfies at block `now`. The spacing clause is silent at
   the last block number, where the saturated sum no longer holds claims apart.
   */
  ghost predicate FaucetInv(cfg: Config, f: Faucet, now: u32) {
    && f.lastClaim.Keys == f.claimCount.Keys
    && (forall a <- f.lastClaim :: RecordOk(cfg, f.claimCount[a], f.lastClaim[a], now))
  }

  ghost predicate RecordOk(cfg: Config, count: u32, last: u32, now: u32) {
    && 1 <= count <= cfg.maxClaimsPerAccount
    && last <= now
    && (last < U32_MAX ==> (count - 1) * cfg.claimCooldown <= last)
  }

  lemma NextRecordOk(cfg: Config, count: u32, last: u32, now: u32)
    requires RecordOk(cfg, count, last, now)
    requires now >= SatAdd(last, cfg.claimCooldown) && count < cfg.maxClaimsPerAccount
    ensures RecordOk(cfg, count + 1, now, now)
  {
    if now < U32_MAX {
      assert count * cfg.claimCooldown == (count - 1) * cfg.claimCooldown + cfg.claimCooldown;
    }
  }

  lemma ClaimedKeepsInv(cfg: Config, f: Faucet, now: u32, a: Account)
    requires FaucetInv(cfg, f, now)
    requires !f.Cooling(cfg, now, a) && f.Count(a) < cfg.maxClaimsPerAccount
    ensures FaucetInv(cfg, f.Claimed(now, a), now)
    ensures f.Claimed(now, a).Count(a) == f.Count(a) + 1
  {
    var f' := f.Claimed(now, a);
    if a in f.lastClaim {
      NextRecordOk(cfg, f.claimCount[a], f.lastClaim[a], now);
    } else {
      assert f'.claimCount[a] == 1;
    }
    forall b <- f'.lastClaim ensures RecordOk(cfg, f'.claimCount[b], f'.lastClaim[b], now) {
      if b != a {
        assert RecordOk(cfg, f.claimCount[b], f.lastClaim[b], now);
      }
    }
  }

  /**
   A repeated claim comes at least a cooldown after the previous one, except exactly when it is
   made at the last block number and the sum saturated.
   */
  lemma SpacingExactlyBelowSaturation(cfg: Config, f: Faucet, now: u32, a: Account)
    requires FaucetInv(cfg, f, now)
    requires a in f.lastClaim && !f.Cooling(cfg, now, a)
    ensures f.lastClaim[a] + cfg.claimCooldown <= now <==>
            !(now == U32_MAX && f.lastClaim[a] + cfg.claimCooldown > U32_MAX)
  {
  }

  /** Claims by anyone but the pot itself. */
  ghost function ClaimsByOthers(cfg: Config, f: Faucet): nat {
    MapSums.Sum(f.claimCount - {cfg.faucetPot})
  }

  lemma ClaimedByOthers(cfg: Config, f: Faucet, now: u32, a: Account)
    requires f.Count(a) < U32_MAX
    ensures ClaimsByOthers(cfg, f.Claimed(now, a)) == ClaimsByOthers(cfg, f) + if a == cfg.faucetPot then 0 else 1
  {
    var counts := f.claimCount - {cfg.faucetPot};
    var counts' := f.Claimed(now, a).claimCount - {cfg.faucetPot};
    if a == cfg.faucetPot {
      assert counts' == counts;
    } else {
      assert counts' == counts[a := f.Count(a) + 1];
      MapSums.SumUpdate(counts, a, f.Count(a) + 1);
    }
  }

  class FaucetPallet {
    var lastClaim: map<Account, u32>
    var claimCount: map<Account, u32>

    function State(): Faucet
      reads this
    {
      Faucet(lastClaim, claimCount)
    }

    constructor (initial: Faucet)
      ensures State() == initial
    {
      lastClaim, claimCount := initial.lastClaim, initial.claimCount;
    }

    method Restore(saved: Faucet)
      modifies this
      ensures State() == saved
    {
      lastClaim, claimCount := saved.lastClaim, saved.claimCount;
    }

    method Claim(cfg: Config, bank: Bank, now: u32, origin: Origin, account: Account) returns (r: Result<()>)
      modifies this, bank
      ensures r == Report(old(State()).Claim(cfg, old(bank.ledger), now, origin, account))
      ensures (State(), bank.ledger) ==
              After((old(State()), old(bank.ledger)), old(State()).Claim(cfg, old(bank.ledger), now, origin, account))
    {
      if !origin.Unsigned? { return Err(BadOrigin); }
      if account in lastClaim {
        var last := lastClaim[account];
        if !(now >= SatAdd(last, cfg.claimCooldown)) { return Err(ClaimTooSoon); }
      }
      var claims := if account in claimCount then claimCount[account] else 0;
      if !(claims < cfg.maxClaimsPerAccount) { return Err(MaxClaimsReached); }
      if !(Free(bank.ledger, cfg.faucetPot) >= cfg.dripAmount) { return Err(FaucetEmpty); }
      var paid := bank.Pay(cfg, cfg.faucetPot, account, cfg.dripAmount);
      if paid.Err? { return paid; }
      lastClaim := lastClaim[account := now];
      claimCount := claimCount[account := SatAdd(claims, 1)];
      return Ok(());
    }

    method FundFaucet(cfg: Config, bank: Bank, origin: Origin, amount: u128) returns (r: Result<()>)
      modifies bank
      ensures r == Report(State().FundFaucet(cfg, old(bank.ledger), origin, amount))
      ensures bank.ledger == After(old(bank.ledger), State().FundFaucet(cfg, old(bank.ledger), origin, amount))
    {
      if !origin.Signed? { return Err(BadOrigin); }
      r := bank.Pay(cfg, origin.who, cfg.faucetPot, amount);
    }
  }
}
