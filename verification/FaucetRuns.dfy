/** The faucet over whole runs: how often an account can claim, where the tokens went, and when the pot is dry. */
module FaucetRuns {
  import opened Primitives
  import MapSums
  import opened Balances
  import opened Faucets
  import opened Runtimes
  import opened Runs

  function ClaimFor(a: Account): Event {
    Extrinsic(Unsigned, Claim(a))
  }

  lemma AcceptedClaim(cfg: Config, s: Chain, e: Event)
    requires Accepted(cfg, s, e) && e.call.Claim?
    ensures e == ClaimFor(e.call.account)
    ensures !s.faucet.Cooling(cfg, s.block, e.call.account)
    ensures s.faucet.Count(e.call.account) < cfg.maxClaimsPerAccount
    ensures Transfer(cfg, s.ledger, cfg.faucetPot, e.call.account, cfg.dripAmount).Ok?
    ensures Step(cfg, s, e) == s.(
              faucet := s.faucet.Claimed(s.block, e.call.account),
              ledger := Transfer(cfg, s.ledger, cfg.faucetPot, e.call.account, cfg.dripAmount).value)
  {
  }

  lemma AcceptedFunding(cfg: Config, s: Chain, e: Event)
    requires Accepted(cfg, s, e) && e.call.FundFaucet?
    ensures e.origin.Signed?
    ensures Transfer(cfg, s.ledger, e.origin.who, cfg.faucetPot, e.call.amount).Ok?
    ensures Step(cfg, s, e) == s.(ledger := Transfer(cfg, s.ledger, e.origin.who, cfg.faucetPot, e.call.amount).value)
  {
  }

  lemma OtherCallsLeaveFaucet(cfg: Config, s: Chain, e: Event)
    requires !(Accepted(cfg, s, e) && e.call.Claim?)
    ensures Step(cfg, s, e).faucet == s.faucet
    ensures s.block <= Step(cfg, s, e).block
    ensures !e.Elsewhere? && !(Accepted(cfg, s, e) && e.call.FundFaucet?) ==> Step(cfg, s, e).ledger == s.ledger
  {
  }

  // ---------------------------------------------------------------- rate bound

  /** What one step adds to the claims of `a`. */
  ghost function Claiming(cfg: Config, p: Chain, e: Event, a: Account): seq<u32> {
    if Accepted(cfg, p, e) && e.call == Claim(a) then [p.block] else []
  }

  /** The blocks at which `a` claimed along a run, oldest first. */
  ghost function ClaimsOf(cfg: Config, s: Chain, events: seq<Event>, a: Account): seq<u32> {
    if events == [] then []
    else
      ClaimsOf(cfg, s, Init(events), a) + Claiming(cfg, Run(cfg, s, Init(events)), Last(events), a)
  }

  /** A cooldown lies between any two claims; only the last block number escapes it. */
  ghost predicate Spaced(blocks: seq<u32>, cooldown: u32) {
    forall i, j :: 0 <= i < j < |blocks| && blocks[j] < U32_MAX ==> blocks[i] + cooldown <= blocks[j]
  }

  /** What the claim record remembers of a run's claims. */
  ghost predicate Remembers(f: Faucet, a: Account, blocks: seq<u32>) {
    blocks != [] ==>
      && a in f.lastClaim && f.lastClaim[a] == blocks[|blocks| - 1]
      && forall i :: 0 <= i < |blocks| ==> blocks[i] <= f.lastClaim[a]
  }

  lemma ClaimExtends(cfg: Config, f: Faucet, now: u32, a: Account, blocks: seq<u32>)
    requires Spaced(blocks, cfg.claimCooldown) && Remembers(f, a, blocks)
    requires !f.Cooling(cfg, now, a) && (a in f.lastClaim ==> f.lastClaim[a] <= now)
    ensures Spaced(blocks + [now], cfg.claimCooldown)
    ensures Remembers(f.Claimed(now, a), a, blocks + [now])
  {
  }

  /** One step carries the history of an account's claims on. */
  lemma HistoryContinues(cfg: Config, p: Chain, e: Event, a: Account, before: seq<u32>)
    requires FaucetInv(cfg, p.faucet, p.block)
    requires Spaced(before, cfg.claimCooldown) && Remembers(p.faucet, a, before)
    ensures var t := Step(cfg, p, e);
            && Spaced(before + Claiming(cfg, p, e, a), cfg.claimCooldown)
            && Remembers(t.faucet, a, before + Claiming(cfg, p, e, a))
            && p.faucet.Count(a) + |Claiming(cfg, p, e, a)| == t.faucet.Count(a)
  {
    assert a in p.faucet.lastClaim ==> RecordOk(cfg, p.faucet.claimCount[a], p.faucet.lastClaim[a], p.block);
    assert before + [] == before;
    if Accepted(cfg, p, e) && e.call.Claim? {
      AcceptedClaim(cfg, p, e);
      if e.call.account == a {
        ClaimExtends(cfg, p.faucet, p.block, a, before);
      }
    } else {
      OtherCallsLeaveFaucet(cfg, p, e);
    }
  }

  /** A run's claims are spaced, and the lifetime counter counts them. */
  lemma {:induction false} ClaimHistory(cfg: Config, s: Chain, events: seq<Event>, a: Account)
    requires FaucetInv(cfg, s.faucet, s.block)
    ensures var t := Run(cfg, s, events);
            && FaucetInv(cfg, t.faucet, t.block)
            && Spaced(ClaimsOf(cfg, s, events, a), cfg.claimCooldown)
            && Remembers(t.faucet, a, ClaimsOf(cfg, s, events, a))
            && s.faucet.Count(a) + |ClaimsOf(cfg, s, events, a)| == t.faucet.Count(a)
  {
    if events != [] {
      var p, e := Run(cfg, s, Init(events)), Last(events);
      ClaimHistory(cfg, s, Init(events), a);
      FaucetStep(cfg, p, e);
      HistoryContinues(cfg, p, e, a, ClaimsOf(cfg, s, Init(events), a));
    }
  }

  /** The entries in `lo..hi`, order kept. */
  function Within(blocks: seq<u32>, lo: int, hi: int): seq<u32> {
    if blocks == [] then []
    else
      var last := blocks[|blocks| - 1];
      Within(blocks[..|blocks| - 1], lo, hi) + if lo <= last < hi then [last] else []
  }

  ghost predicate Apart(blocks: seq<u32>, cooldown: u32) {
    forall i, j :: 0 <= i < j < |blocks| ==> blocks[i] + cooldown <= blocks[j]
  }

  lemma {:induction false} WithinApart(blocks: seq<u32>, cooldown: u32, lo: int, hi: int)
    requires Spaced(blocks, cooldown) && hi <= U32_MAX
    ensures Apart(Within(blocks, lo, hi), cooldown)
    ensures forall x <- Within(blocks, lo, hi) :: lo <= x < hi && x in blocks
  {
    if blocks != [] {
      var init, last := blocks[..|blocks| - 1], blocks[|blocks| - 1];
      assert blocks == init + [last];
      WithinApart(init, cooldown, lo, hi);
      if lo <= last < hi {
        var inside := Within(init, lo, hi);
        forall i | 0 <= i < |inside| ensures inside[i] + cooldown <= last {
          var x := inside[i];
          assert x in inside;
          var k :| 0 <= k < |init| && init[k] == x;
          assert blocks[k] == x;
        }
      }
    }
  }

  lemma {:induction false} ApartSpan(blocks: seq<u32>, cooldown: u32)
    requires Apart(blocks, cooldown) && blocks != []
    ensures (|blocks| - 1) * cooldown <= blocks[|blocks| - 1] - blocks[0]
  {
    var n := |blocks|;
    if n > 1 {
      var init := blocks[..n - 1];
      assert Apart(init, cooldown);
      ApartSpan(init, cooldown);
      assert blocks[n - 2] + cooldown <= blocks[n - 1];
      assert (n - 1) * cooldown == (n - 2) * cooldown + cooldown;
    }
  }

  /** Rounding up. */
  function CeilDiv(x: nat, y: nat): nat
    requires y > 0
  {
    (x + y - 1) / y
  }

  lemma FitsCeil(n: nat, span: nat, cooldown: nat)
    requires cooldown > 0 && span > 0 && n > 0
    requires (n - 1) * cooldown < span
    ensures n <= CeilDiv(span, cooldown)
  {
    var q := CeilDiv(span, cooldown);
    assert span <= q * cooldown;
  }

  lemma WindowBound(blocks: seq<u32>, cooldown: u32, start: nat, length: nat)
    requires Spaced(blocks, cooldown)
    requires cooldown > 0 && length > 0 && start + length <= U32_MAX
    ensures |Within(blocks, start, start + length)| <= CeilDiv(length, cooldown)
  {
    var inside := Within(blocks, start, start + length);
    WithinApart(blocks, cooldown, start, start + length);
    if inside != [] {
      var first, last := inside[0], inside[|inside| - 1];
      assert first in inside && last in inside;
      ApartSpan(inside, cooldown);
      FitsCeil(|inside|, length, cooldown);
    }
  }

  /** The windows the last block number cannot spoil: below it, beyond it, or wide enough for the lifetime cap. */
  predicate SafeWindow(cfg: Config, start: nat, length: nat)
    requires cfg.claimCooldown > 0
  {
    || start + length <= U32_MAX
    || start > U32_MAX
    || cfg.maxClaimsPerAccount <= CeilDiv(length, cfg.claimCooldown)
  }

  /**
   In any run and any safe window of `length` consecutive blocks, an account claims at most once
   per started cooldown, and in no run more often than it has claims left.
   */
  lemma RateBound(cfg: Config, s: Chain, events: seq<Event>, a: Account, start: nat, length: nat)
    requires FaucetInv(cfg, s.faucet, s.block)
    requires cfg.claimCooldown > 0 && length > 0 && SafeWindow(cfg, start, length)
    ensures |Within(ClaimsOf(cfg, s, events, a), start, start + length)| <= CeilDiv(length, cfg.claimCooldown)
    ensures |ClaimsOf(cfg, s, events, a)| <= s.faucet.RemainingClaims(cfg, a)
  {
    ClaimsCapped(cfg, s, events, a);
    SafeWindowBound(cfg, ClaimsOf(cfg, s, events, a), start, length);
  }

  lemma SafeWindowBound(cfg: Config, blocks: seq<u32>, start: nat, length: nat)
    requires Spaced(blocks, cfg.claimCooldown) && |blocks| <= cfg.maxClaimsPerAccount
    requires cfg.claimCooldown > 0 && length > 0 && SafeWindow(cfg, start, length)
    ensures |Within(blocks, start, start + length)| <= CeilDiv(length, cfg.claimCooldown)
  {
    WithinShorter(blocks, start, start + length);
    if start + length <= U32_MAX {
      WindowBound(blocks, cfg.claimCooldown, start, length);
    }
  }

  /** The claims of a run are spaced, and no more than the account had left. */
  lemma ClaimsCapped(cfg: Config, s: Chain, events: seq<Event>, a: Account)
    requires FaucetInv(cfg, s.faucet, s.block)
    ensures Spaced(ClaimsOf(cfg, s, events, a), cfg.claimCooldown)
    ensures |ClaimsOf(cfg, s, events, a)| <= s.faucet.RemainingClaims(cfg, a) <= cfg.maxClaimsPerAccount
  {
    ClaimHistory(cfg, s, events, a);
    CountBelowCap(cfg, Run(cfg, s, events).faucet, Run(cfg, s, events).block, a);
  }

  lemma {:induction false} WithinShorter(blocks: seq<u32>, lo: int, hi: int)
    ensures |Within(blocks, lo, hi)| <= |blocks|
    ensures lo > U32_MAX ==> Within(blocks, lo, hi) == []
  {
    if blocks != [] {
      WithinShorter(blocks[..|blocks| - 1], lo, hi);
    }
  }

  lemma CountBelowCap(cfg: Config, f: Faucet, now: u32, a: Account)
    requires FaucetInv(cfg, f, now)
    ensures f.Count(a) <= cfg.maxClaimsPerAccount
  {
    assert a in f.lastClaim ==> RecordOk(cfg, f.claimCount[a], f.lastClaim[a], now);
  }

  // -------------------------------------------------------------------- ledger

  /** What accounts other than the pot have paid into it along a run. */
  ghost function FundedByOthers(cfg: Config, s: Chain, events: seq<Event>): nat {
    if events == [] then 0
    else
      var e := Last(events);
      FundedByOthers(cfg, s, Init(events)) +
      if Accepted(cfg, Run(cfg, s, Init(events)), e) && e.call.FundFaucet? && e.origin != Signed(cfg.faucetPot)
      then e.call.amount else 0
  }

  /** The faucet's books at one moment: what is in the pot plus what it has handed out. */
  ghost function Books(cfg: Config, s: Chain): nat {
    Free(s.ledger, cfg.faucetPot) + cfg.dripAmount * ClaimsByOthers(cfg, s.faucet)
  }

  lemma Distribute(x: int, m: int, n: int)
    ensures x * (m + n) == x * m + x * n
  {
  }

  lemma ClaimBooks(cfg: Config, s: Chain, e: Event)
    requires Accepted(cfg, s, e) && e.call.Claim?
    ensures Books(cfg, Step(cfg, s, e)) == Books(cfg, s)
    ensures MapSums.Sum(Step(cfg, s, e).ledger) == MapSums.Sum(s.ledger)
  {
    AcceptedClaim(cfg, s, e);
    var a, n := e.call.account, ClaimsByOthers(cfg, s.faucet);
    TransferConserves(cfg, s.ledger, cfg.faucetPot, a, cfg.dripAmount);
    ClaimedByOthers(cfg, s.faucet, s.block, a);
    Distribute(cfg.dripAmount, n, 1);
  }

  lemma BooksStep(cfg: Config, s: Chain, e: Event)
    ensures Books(cfg, Step(cfg, s, e)) == Books(cfg, s)
            + (if Accepted(cfg, s, e) && e.call.FundFaucet? && e.origin != Signed(cfg.faucetPot)
               then e.call.amount else 0)
            + Moved(cfg, s, e, cfg.faucetPot)
  {
    if Accepted(cfg, s, e) && e.call.Claim? {
      ClaimBooks(cfg, s, e);
    } else {
      OtherCallsLeaveFaucet(cfg, s, e);
      if Accepted(cfg, s, e) && e.call.FundFaucet? {
        AcceptedFunding(cfg, s, e);
      }
    }
  }

  /** What a balance change made elsewhere in the runtime did to `a`; nothing for any other event. */
  ghost function Moved(cfg: Config, s: Chain, e: Event, a: Account): int {
    if e.Elsewhere? then Free(Step(cfg, s, e).ledger, a) - Free(s.ledger, a) else 0
  }

  /** The net effect of all such changes on `a` along a run. */
  ghost function Drift(cfg: Config, s: Chain, events: seq<Event>, a: Account): int {
    if events == [] then 0
    else Drift(cfg, s, Init(events), a) + Moved(cfg, Run(cfg, s, Init(events)), Last(events), a)
  }

  /** What entered the pot along a run: paid in by others, or credited elsewhere in the runtime. */
  ghost function Inflow(cfg: Config, s: Chain, events: seq<Event>): nat {
    if events == [] then 0
    else
      var p, e := Run(cfg, s, Init(events)), Last(events);
      Inflow(cfg, s, Init(events))
      + (if Accepted(cfg, p, e) && e.call.FundFaucet? && e.origin != Signed(cfg.faucetPot) then e.call.amount else 0)
      + (if Moved(cfg, p, e, cfg.faucetPot) > 0 then Moved(cfg, p, e, cfg.faucetPot) else 0)
  }

  lemma IssuanceStep(cfg: Config, s: Chain, e: Event)
    requires !e.Elsewhere?
    ensures MapSums.Sum(Step(cfg, s, e).ledger) == MapSums.Sum(s.ledger)
  {
    if Accepted(cfg, s, e) && e.call.Claim? {
      AcceptedClaim(cfg, s, e);
      TransferConserves(cfg, s.ledger, cfg.faucetPot, e.call.account, cfg.dripAmount);
    } else {
      OtherCallsLeaveFaucet(cfg, s, e);
      if Accepted(cfg, s, e) && e.call.FundFaucet? {
        AcceptedFunding(cfg, s, e);
        TransferConserves(cfg, s.ledger, e.origin.who, cfg.faucetPot, e.call.amount);
      }
    }
  }

  /** The change of the issuance by balance changes made elsewhere along a run. */
  ghost function IssuedElsewhere(cfg: Config, s: Chain, events: seq<Event>): int {
    if events == [] then 0
    else
      var p, e := Run(cfg, s, Init(events)), Last(events);
      IssuedElsewhere(cfg, s, Init(events))
      + if e.Elsewhere? then MapSums.Sum(Step(cfg, p, e).ledger) - MapSums.Sum(p.ledger) else 0
  }

  /** Over any run the issuance changes only by what is done elsewhere in the runtime: the pallets' calls keep it. */
  lemma {:induction false} IssuanceConstant(cfg: Config, s: Chain, events: seq<Event>)
    ensures MapSums.Sum(Run(cfg, s, events).ledger) == MapSums.Sum(s.ledger) + IssuedElsewhere(cfg, s, events)
  {
    if events != [] {
      IssuanceConstant(cfg, s, Init(events));
      if !Last(events).Elsewhere? {
        IssuanceStep(cfg, Run(cfg, s, Init(events)), Last(events));
      }
    }
  }

  /** An event that, if it sets balances elsewhere in the runtime, leaves the pot its existential deposit. */
  ghost predicate SparesPot(cfg: Config, e: Event) {
    e.Elsewhere? && LedgerInv(e.ledger) ==> Free(e.ledger, cfg.faucetPot) >= cfg.existentialDeposit
  }

  /** A claim by another account is paid from a pot that keeps its existential deposit. */
  lemma ClaimSparesPot(cfg: Config, s: Chain, e: Event)
    requires Accepted(cfg, s, e) && e.call.Claim?
    requires e.call.account != cfg.faucetPot && cfg.dripAmount > 0
    ensures Free(Step(cfg, s, e).ledger, cfg.faucetPot) >= cfg.existentialDeposit
  {
    AcceptedClaim(cfg, s, e);
  }

  lemma PotStep(cfg: Config, s: Chain, e: Event)
    requires SparesPot(cfg, e)
    requires Free(s.ledger, cfg.faucetPot) >= cfg.existentialDeposit
    ensures Free(Step(cfg, s, e).ledger, cfg.faucetPot) >= cfg.existentialDeposit
  {
    if Accepted(cfg, s, e) && e.call.Claim? {
      AcceptedClaim(cfg, s, e);
    } else if Accepted(cfg, s, e) && e.call.FundFaucet? {
      AcceptedFunding(cfg, s, e);
    } else {
      OtherCallsLeaveFaucet(cfg, s, e);
    }
  }

  /** Keep-alive: only a change made elsewhere in the runtime can take the pot below the existential deposit. */
  lemma {:induction false} PotStaysAlive(cfg: Config, s: Chain, events: seq<Event>)
    requires forall e <- events :: SparesPot(cfg, e)
    requires Free(s.ledger, cfg.faucetPot) >= cfg.existentialDeposit
    ensures Free(Run(cfg, s, events).ledger, cfg.faucetPot) >= cfg.existentialDeposit
  {
    if events != [] {
      var e := Last(events);
      assert e in events;
      PotStaysAlive(cfg, s, Init(events));
      PotStep(cfg, Run(cfg, s, Init(events)), e);
    }
  }

  /**
   The pot plus one drip for every claim by another account: what was there, plus what others
   paid in, plus what was done to the pot elsewhere.
   */
  ghost predicate BooksBalance(cfg: Config, s: Chain, events: seq<Event>) {
    Free(Run(cfg, s, events).ledger, cfg.faucetPot)
    + cfg.dripAmount * ClaimsByOthers(cfg, Run(cfg, s, events).faucet)
    == Free(s.ledger, cfg.faucetPot)
       + cfg.dripAmount * ClaimsByOthers(cfg, s.faucet)
       + FundedByOthers(cfg, s, events)
       + Drift(cfg, s, events, cfg.faucetPot)
  }

  /**
   The faucet ledger balances over every run. A claim the pot makes for itself is counted but
   moves nothing.
   */
  lemma {:induction false} FaucetLedger(cfg: Config, s: Chain, events: seq<Event>)
    ensures BooksBalance(cfg, s, events)
  {
    if events != [] {
      FaucetLedger(cfg, s, Init(events));
      BooksStep(cfg, Run(cfg, s, Init(events)), Last(events));
    }
  }

  /** What account `a` has paid into the pot along a run. */
  ghost function FundedBy(cfg: Config, s: Chain, events: seq<Event>, a: Account): nat {
    if events == [] then 0
    else
      var e := Last(events);
      FundedBy(cfg, s, Init(events), a) +
      if Accepted(cfg, Run(cfg, s, Init(events)), e) && e.call.FundFaucet? && e.origin == Signed(a)
      then e.call.amount else 0
  }

  lemma AccountStep(cfg: Config, s: Chain, e: Event, a: Account)
    requires a != cfg.faucetPot
    ensures Free(Step(cfg, s, e).ledger, a) == Free(s.ledger, a) + Moved(cfg, s, e, a)
            + (if Accepted(cfg, s, e) && e.call == Claim(a) then cfg.dripAmount else 0)
            - (if Accepted(cfg, s, e) && e.call.FundFaucet? && e.origin == Signed(a) then e.call.amount else 0)
  {
    if Accepted(cfg, s, e) && e.call.Claim? {
      AcceptedClaim(cfg, s, e);
      TransferMoves(cfg, s.ledger, cfg.faucetPot, e.call.account, cfg.dripAmount, a);
    } else {
      OtherCallsLeaveFaucet(cfg, s, e);
      if Accepted(cfg, s, e) && e.call.FundFaucet? {
        AcceptedFunding(cfg, s, e);
        TransferMoves(cfg, s.ledger, e.origin.who, cfg.faucetPot, e.call.amount, a);
      }
    }
  }

  lemma OneMoreEntry(start: int, balance: int, paid: int, drip: int, claims: int, claim: int)
    requires balance + paid == start + drip * claims
    requires claim == 0 || claim == 1
    ensures balance + (if claim == 1 then drip else 0) + paid == start + drip * (claims + claim)
  {
    Distribute(drip, claims, claim);
  }

  /**
   Over every run, every account but the pot ends with what it had, plus one drip for each of
   its claims, less what it paid in, plus what was done to it elsewhere.
   */
  lemma {:induction false} AccountLedger(cfg: Config, s: Chain, events: seq<Event>, a: Account)
    requires a != cfg.faucetPot
    ensures Free(Run(cfg, s, events).ledger, a) + FundedBy(cfg, s, events, a) - Drift(cfg, s, events, a)
            == Free(s.ledger, a) + cfg.dripAmount * |ClaimsOf(cfg, s, events, a)|
  {
    if events != [] {
      AccountLedger(cfg, s, Init(events), a);
      var p := Run(cfg, s, Init(events));
      AccountStep(cfg, p, Last(events), a);
      var claims, claims' := |ClaimsOf(cfg, s, Init(events), a)|, |ClaimsOf(cfg, s, events, a)|;
      OneMoreEntry(Free(s.ledger, a), Free(p.ledger, a),
                   FundedBy(cfg, s, Init(events), a) - Drift(cfg, s, Init(events), a),
                   cfg.dripAmount, claims, claims' - claims);
    }
  }

  // --------------------------------------------------------------------- drain

  /**
   The books as a budget: they never exceed what they started with and what came in since, and
   every drip handed out to another account fits in it next to the existential deposit.
   */
  ghost predicate WithinBudget(cfg: Config, s: Chain, events: seq<Event>) {
    var t, budget := Run(cfg, s, events), Books(cfg, s) + Inflow(cfg, s, events);
    && Books(cfg, t) <= budget
    && cfg.dripAmount * ClaimsByOthers(cfg, t.faucet) + cfg.existentialDeposit <= budget
  }

  lemma ClaimsMoveOnlyByClaims(cfg: Config, s: Chain, e: Event)
    requires !(Accepted(cfg, s, e) && e.call.Claim? && e.call.account != cfg.faucetPot)
    ensures ClaimsByOthers(cfg, Step(cfg, s, e).faucet) == ClaimsByOthers(cfg, s.faucet)
  {
    if Accepted(cfg, s, e) && e.call.Claim? {
      AcceptedClaim(cfg, s, e);
      ClaimedByOthers(cfg, s.faucet, s.block, e.call.account);
    } else {
      OtherCallsLeaveFaucet(cfg, s, e);
    }
  }

  lemma {:induction false} StaysWithinBudget(cfg: Config, s: Chain, events: seq<Event>)
    requires Free(s.ledger, cfg.faucetPot) >= cfg.existentialDeposit && cfg.dripAmount > 0
    ensures WithinBudget(cfg, s, events)
  {
    if events != [] {
      var p, e := Run(cfg, s, Init(events)), Last(events);
      StaysWithinBudget(cfg, s, Init(events));
      BooksStep(cfg, p, e);
      if Accepted(cfg, p, e) && e.call.Claim? && e.call.account != cfg.faucetPot {
        ClaimSparesPot(cfg, p, e);
      } else {
        ClaimsMoveOnlyByClaims(cfg, p, e);
      }
    }
  }

  /**
   Over every run, whatever else happens to balances, the drips handed out to others fit, next to
   the existential deposit, in what the books held at the start and what came in since.
   */
  lemma DrainBound(cfg: Config, s: Chain, events: seq<Event>)
    requires Free(s.ledger, cfg.faucetPot) >= cfg.existentialDeposit && cfg.dripAmount > 0
    ensures cfg.dripAmount * ClaimsByOthers(cfg, Run(cfg, s, events).faucet) + cfg.existentialDeposit
            <= Books(cfg, s) + Inflow(cfg, s, events)
  {
    StaysWithinBudget(cfg, s, events);
  }

  lemma ProductGrows(x: nat, m: int, n: int)
    requires m <= n
    ensures x * m <= x * n
  {
    Distribute(x, m, n - m);
  }

  /** An account with claims left and no running cooldown is paid whenever the pot can spare a drip. */
  lemma ClaimPays(cfg: Config, s: Chain, a: Account)
    requires LedgerInv(s.ledger) && a != cfg.faucetPot
    requires cfg.dripAmount >= cfg.existentialDeposit
    requires !s.faucet.Cooling(cfg, s.block, a) && s.faucet.Count(a) < cfg.maxClaimsPerAccount
    requires Free(s.ledger, cfg.faucetPot) >= cfg.dripAmount + cfg.existentialDeposit
    ensures Accepted(cfg, s, ClaimFor(a))
    ensures var t := Step(cfg, s, ClaimFor(a));
            && t.block == s.block
            && t.faucet == s.faucet.Claimed(s.block, a)
            && LedgerInv(t.ledger)
            && Free(t.ledger, cfg.faucetPot) == Free(s.ledger, cfg.faucetPot) - cfg.dripAmount
  {
    GuardsAgree(cfg, s.faucet, s.ledger, s.block, a);
    TransferConserves(cfg, s.ledger, cfg.faucetPot, a, cfg.dripAmount);
  }

  function ClaimsFor(accounts: seq<Account>): seq<Event> {
    if accounts == [] then [] else ClaimsFor(accounts[..|accounts| - 1]) + [ClaimFor(accounts[|accounts| - 1])]
  }

  /** Distinct accounts, none of them the pot, none of which has claimed. */
  ghost predicate Fresh(cfg: Config, f: Faucet, accounts: seq<Account>) {
    && (forall i :: 0 <= i < |accounts| ==>
          accounts[i] != cfg.faucetPot && accounts[i] !in f.lastClaim && f.Count(accounts[i]) == 0)
    && (forall i, j :: 0 <= i < j < |accounts| ==> accounts[i] != accounts[j])
  }

  /** What `n` drips come to. */
  function Drips(cfg: Config, n: nat): nat {
    if n == 0 then 0 else Drips(cfg, n - 1) + cfg.dripAmount
  }

  lemma {:induction false} DripsProduct(cfg: Config, n: nat)
    ensures Drips(cfg, n) == cfg.dripAmount * n
  {
    if n > 0 {
      DripsProduct(cfg, n - 1);
      Distribute(cfg.dripAmount, n - 1, 1);
    }
  }

  /** The pot can spare `n` drips. */
  ghost predicate PotCovers(cfg: Config, s: Chain, n: nat) {
    Drips(cfg, n) + cfg.existentialDeposit <= Free(s.ledger, cfg.faucetPot)
  }

  lemma PotCoversLess(cfg: Config, s: Chain, n: nat)
    requires n > 0 && PotCovers(cfg, s, n)
    ensures PotCovers(cfg, s, n - 1)
  {
  }

  /** Each of `accounts` has been paid one drip, and nothing else has happened to the faucet. */
  ghost predicate PaidEach(cfg: Config, s: Chain, accounts: seq<Account>, t: Chain) {
    && t.block == s.block && LedgerInv(t.ledger)
    && Free(t.ledger, cfg.faucetPot) == Free(s.ledger, cfg.faucetPot) - Drips(cfg, |accounts|)
    && ClaimsByOthers(cfg, t.faucet) == ClaimsByOthers(cfg, s.faucet) + |accounts|
    && (forall b :: b !in accounts ==>
          (b in t.faucet.lastClaim <==> b in s.faucet.lastClaim) && t.faucet.Count(b) == s.faucet.Count(b))
  }

  lemma PayNext(cfg: Config, s: Chain, accounts: seq<Account>, t: Chain, next: Account)
    requires PaidEach(cfg, s, accounts, t)
    requires next !in accounts && next != cfg.faucetPot && next !in s.faucet.lastClaim && s.faucet.Count(next) == 0
    requires cfg.dripAmount >= cfg.existentialDeposit && cfg.maxClaimsPerAccount > 0
    requires PotCovers(cfg, s, |accounts| + 1)
    ensures Accepted(cfg, t, ClaimFor(next))
    ensures PaidEach(cfg, s, accounts + [next], Step(cfg, t, ClaimFor(next)))
  {
    ClaimPays(cfg, t, next);
    ClaimedByOthers(cfg, t.faucet, t.block, next);
  }

  /** Running on: one accepted claim more. */
  lemma PaidSnoc(cfg: Config, s: Chain, events: seq<Event>, next: Account)
    requires AllAccepted(cfg, s, events) && Accepted(cfg, Run(cfg, s, events), ClaimFor(next))
    ensures AllAccepted(cfg, s, events + [ClaimFor(next)])
    ensures Run(cfg, s, events + [ClaimFor(next)]) == Step(cfg, Run(cfg, s, events), ClaimFor(next))
    ensures Inflow(cfg, s, events + [ClaimFor(next)]) == Inflow(cfg, s, events)
  {
    assert Init(events + [ClaimFor(next)]) == events && Last(events + [ClaimFor(next)]) == ClaimFor(next);
  }

  /** The bound is attained: as long as the pot can spare it, every fresh account is paid. */
  lemma {:induction false} DrainAttained(cfg: Config, s: Chain, accounts: seq<Account>)
    requires LedgerInv(s.ledger) && Fresh(cfg, s.faucet, accounts)
    requires cfg.dripAmount >= cfg.existentialDeposit && cfg.maxClaimsPerAccount > 0
    requires PotCovers(cfg, s, |accounts|)
    ensures AllAccepted(cfg, s, ClaimsFor(accounts))
    ensures PaidEach(cfg, s, accounts, Run(cfg, s, ClaimsFor(accounts)))
    ensures Inflow(cfg, s, ClaimsFor(accounts)) == 0
  {
    if accounts != [] {
      var n := |accounts| - 1;
      var init, last := accounts[..n], accounts[n];
      assert accounts == init + [last];
      PotCoversLess(cfg, s, n + 1);
      DrainAttained(cfg, s, init);
      assert last !in init;
      PayNext(cfg, s, init, Run(cfg, s, ClaimsFor(init)), last);
      PaidSnoc(cfg, s, ClaimsFor(init), last);
    }
  }

  // --------------------------------------------------- the rate bound is tight

  /** Block of the `k`-th claim when claiming as fast as allowed from `start` on. */
  function Slot(start: nat, cooldown: nat, k: nat): (block: nat)
    ensures start <= block
  {
    if k == 0 then start else Slot(start, cooldown, k - 1) + cooldown
  }

  lemma {:induction false} SlotProduct(start: nat, cooldown: nat, k: nat)
    ensures Slot(start, cooldown, k) == start + cooldown * k
  {
    if k > 0 {
      SlotProduct(start, cooldown, k - 1);
      Distribute(cooldown, k - 1, 1);
    }
  }

  /** One claim in each of the first `n` slots. */
  function Schedule(a: Account, start: nat, cooldown: nat, n: nat): seq<Event>
    requires n > 0 ==> Slot(start, cooldown, n - 1) <= U32_MAX
  {
    if n == 0 then []
    else
      Schedule(a, start, cooldown, n - 1) + [NewBlock(Slot(start, cooldown, n - 1))] + [ClaimFor(a)]
  }

  /** The state a schedule of `n` claims leads to. */
  ghost predicate OnSchedule(cfg: Config, s: Chain, a: Account, start: nat, n: nat, t: Chain) {
    && LedgerInv(t.ledger)
    && Free(t.ledger, cfg.faucetPot) == Free(s.ledger, cfg.faucetPot) - Drips(cfg, n)
    && t.faucet.Count(a) == n
    && (n == 0 ==> t.block <= start && a !in t.faucet.lastClaim)
    && (n > 0 ==> t.block == Slot(start, cfg.claimCooldown, n - 1)
                  && a in t.faucet.lastClaim && t.faucet.lastClaim[a] == t.block)
  }

  lemma OneMoreSlot(cfg: Config, s: Chain, a: Account, start: nat, n: nat, t: Chain)
    requires OnSchedule(cfg, s, a, start, n, t) && a != cfg.faucetPot
    requires Slot(start, cfg.claimCooldown, n) <= U32_MAX && n < cfg.maxClaimsPerAccount
    requires cfg.dripAmount >= cfg.existentialDeposit && PotCovers(cfg, s, n + 1)
    ensures var u := Step(cfg, t, NewBlock(Slot(start, cfg.claimCooldown, n)));
            && u.block == Slot(start, cfg.claimCooldown, n)
            && Accepted(cfg, u, ClaimFor(a))
            && OnSchedule(cfg, s, a, start, n + 1, Step(cfg, u, ClaimFor(a)))
  {
    var u := Step(cfg, t, NewBlock(Slot(start, cfg.claimCooldown, n)));
    assert u == t.(block := Slot(start, cfg.claimCooldown, n));
    ClaimPays(cfg, u, a);
  }

  /** A run that has made `n` claims on schedule. */
  ghost predicate Punctual(cfg: Config, s: Chain, a: Account, start: nat, n: nat, events: seq<Event>) {
    && OnSchedule(cfg, s, a, start, n, Run(cfg, s, events))
    && |ClaimsOf(cfg, s, events, a)| == n
    && (n > 0 ==> Between(ClaimsOf(cfg, s, events, a), start, Slot(start, cfg.claimCooldown, n - 1)))
  }

  ghost predicate Between(blocks: seq<u32>, lo: int, hi: int) {
    forall x <- blocks :: lo <= x <= hi
  }

  lemma BetweenExtends(blocks: seq<u32>, lo: int, hi: int, block: u32)
    requires Between(blocks, lo, hi) && hi <= block && lo <= block
    ensures Between(blocks + [block], lo, block)
  {
  }

  /** Running on: a block begins and `a` claims in it. */
  lemma ClaimAt(cfg: Config, s: Chain, events: seq<Event>, block: u32, a: Account)
    requires Step(cfg, Run(cfg, s, events), NewBlock(block)).block == block
    requires Accepted(cfg, Step(cfg, Run(cfg, s, events), NewBlock(block)), ClaimFor(a))
    ensures var on := events + [NewBlock(block)] + [ClaimFor(a)];
            && Run(cfg, s, on) == Step(cfg, Step(cfg, Run(cfg, s, events), NewBlock(block)), ClaimFor(a))
            && ClaimsOf(cfg, s, on, a) == ClaimsOf(cfg, s, events, a) + [block]
  {
    ClaimsSnoc(cfg, s, events, NewBlock(block), a);
    ClaimsSnoc(cfg, s, events + [NewBlock(block)], ClaimFor(a), a);
  }

  lemma StaysPunctual(cfg: Config, s: Chain, a: Account, start: nat, n: nat, events: seq<Event>)
    requires Punctual(cfg, s, a, start, n, events) && a != cfg.faucetPot
    requires Slot(start, cfg.claimCooldown, n) <= U32_MAX && n < cfg.maxClaimsPerAccount
    requires cfg.dripAmount >= cfg.existentialDeposit && PotCovers(cfg, s, n + 1)
    ensures Punctual(cfg, s, a, start, n + 1,
                     events + [NewBlock(Slot(start, cfg.claimCooldown, n))] + [ClaimFor(a)])
  {
    var slot := Slot(start, cfg.claimCooldown, n);
    var claims := ClaimsOf(cfg, s, events, a);
    OneMoreSlot(cfg, s, a, start, n, Run(cfg, s, events));
    ClaimAt(cfg, s, events, slot, a);
    BetweenExtends(claims, start, if n > 0 then Slot(start, cfg.claimCooldown, n - 1) else start, slot);
  }

  lemma StartsPunctual(cfg: Config, s: Chain, a: Account, start: nat)
    requires LedgerInv(s.ledger) && a !in s.faucet.lastClaim && s.faucet.Count(a) == 0 && s.block <= start
    ensures Punctual(cfg, s, a, start, 0, [])
  {
  }

  lemma {:induction false} ScheduleRuns(cfg: Config, s: Chain, a: Account, start: nat, n: nat)
    requires LedgerInv(s.ledger) && a != cfg.faucetPot && a !in s.faucet.lastClaim && s.faucet.Count(a) == 0
    requires s.block <= start && n <= cfg.maxClaimsPerAccount
    requires n > 0 ==> Slot(start, cfg.claimCooldown, n - 1) <= U32_MAX
    requires cfg.dripAmount >= cfg.existentialDeposit && PotCovers(cfg, s, n)
    ensures Punctual(cfg, s, a, start, n, Schedule(a, start, cfg.claimCooldown, n))
  {
    if n == 0 {
      StartsPunctual(cfg, s, a, start);
    } else {
      PotCoversLess(cfg, s, n);
      ScheduleRuns(cfg, s, a, start, n - 1);
      StaysPunctual(cfg, s, a, start, n - 1, Schedule(a, start, cfg.claimCooldown, n - 1));
    }
  }

  lemma ClaimsSnoc(cfg: Config, s: Chain, events: seq<Event>, e: Event, a: Account)
    ensures Run(cfg, s, events + [e]) == Step(cfg, Run(cfg, s, events), e)
    ensures ClaimsOf(cfg, s, events + [e], a) == ClaimsOf(cfg, s, events, a) +
            Claiming(cfg, Run(cfg, s, events), e, a)
  {
    assert Init(events + [e]) == events && Last(events + [e]) == e;
  }

  lemma {:induction false} AllWithin(blocks: seq<u32>, lo: int, hi: int)
    requires forall x <- blocks :: lo <= x < hi
    ensures Within(blocks, lo, hi) == blocks
  {
    if blocks != [] {
      var init, last := blocks[..|blocks| - 1], blocks[|blocks| - 1];
      assert blocks == init + [last];
      assert last in blocks && forall x <- init :: x in blocks;
      AllWithin(init, lo, hi);
    }
  }

  /** An account that has never claimed, in a state where the pot can spare it `n` drips. */
  ghost predicate ReadyFor(cfg: Config, s: Chain, a: Account, n: nat) {
    && LedgerInv(s.ledger)
    && a != cfg.faucetPot && a !in s.faucet.lastClaim && s.faucet.Count(a) == 0
    && cfg.dripAmount >= cfg.existentialDeposit && PotCovers(cfg, s, n)
  }

  lemma ScheduleFillsWindow(cfg: Config, s: Chain, a: Account, start: nat, end: nat, n: nat)
    returns (events: seq<Event>)
    requires ReadyFor(cfg, s, a, n) && n <= cfg.maxClaimsPerAccount && s.block <= start && end <= U32_MAX
    requires n > 0 ==> Slot(start, cfg.claimCooldown, n - 1) < end
    ensures |Within(ClaimsOf(cfg, s, events, a), start, end)| == n
  {
    events := Schedule(a, start, cfg.claimCooldown, n);
    ScheduleRuns(cfg, s, a, start, n);
    AllWithin(ClaimsOf(cfg, s, events, a), start, end);
  }

  /**
   The rate bound is attained: a fresh account can claim any number of times up to both caps
   within the window, if the pot holds out.
   */
  lemma RateBoundAttained(cfg: Config, s: Chain, a: Account, start: nat, length: nat, n: nat)
    returns (events: seq<Event>)
    requires ReadyFor(cfg, s, a, n) && n <= cfg.maxClaimsPerAccount && s.block <= start
    requires cfg.claimCooldown > 0 && length > 0 && start + length <= U32_MAX
    requires n <= CeilDiv(length, cfg.claimCooldown)
    ensures |Within(ClaimsOf(cfg, s, events, a), start, start + length)| == n
  {
    if n > 0 {
      LastSlotFits(start, length, cfg.claimCooldown, n);
    }
    events := ScheduleFillsWindow(cfg, s, a, start, start + length, n);
  }

  lemma LastSlotFits(start: nat, length: nat, cooldown: nat, n: nat)
    requires cooldown > 0 && length > 0 && 0 < n <= CeilDiv(length, cooldown)
    ensures Slot(start, cooldown, n - 1) < start + length
  {
    var q := CeilDiv(length, cooldown);
    assert cooldown * q <= length + cooldown - 1;
    Distribute(cooldown, q - 1, 1);
    ProductGrows(cooldown, n - 1, q - 1);
    SlotProduct(start, cooldown, n - 1);
  }

  // ------------------------------------------- where the rate bound ends

  /** `n` claims by one account at the last block number. */
  function Burst(a: Account, n: nat): seq<Event> {
    if n == 0 then [NewBlock(U32_MAX)] else Burst(a, n - 1) + [ClaimFor(a)]
  }

  ghost predicate Bursting(cfg: Config, s: Chain, a: Account, n: nat, t: Chain) {
    && t.block == U32_MAX && LedgerInv(t.ledger)
    && Free(t.ledger, cfg.faucetPot) == Free(s.ledger, cfg.faucetPot) - Drips(cfg, n)
    && t.faucet.Count(a) == n
    && (n == 0 ==> a !in t.faucet.lastClaim)
  }

  /** At the last block number a cooldown never runs: the saturated sum is that block itself. */
  lemma NoCooldownAtLastBlock(cfg: Config, f: Faucet, a: Account)
    ensures !f.Cooling(cfg, U32_MAX, a)
  {
  }

  lemma BurstNext(cfg: Config, s: Chain, a: Account, n: nat, t: Chain)
    requires Bursting(cfg, s, a, n, t) && a != cfg.faucetPot && n < cfg.maxClaimsPerAccount
    requires cfg.dripAmount >= cfg.existentialDeposit && PotCovers(cfg, s, n + 1)
    ensures Accepted(cfg, t, ClaimFor(a))
    ensures Bursting(cfg, s, a, n + 1, Step(cfg, t, ClaimFor(a)))
  {
    NoCooldownAtLastBlock(cfg, t.faucet, a);
    ClaimPays(cfg, t, a);
  }

  lemma BurstStarts(cfg: Config, s: Chain, a: Account, n: nat)
    requires ReadyFor(cfg, s, a, n) && n == 0
    ensures Bursting(cfg, s, a, n, Run(cfg, s, Burst(a, n)))
    ensures ClaimsOf(cfg, s, Burst(a, n), a) == []
  {
    LastBlockBegins(cfg, s, a, Burst(a, n));
  }

  lemma LastBlockBegins(cfg: Config, s: Chain, a: Account, events: seq<Event>)
    requires events == [NewBlock(U32_MAX)]
    ensures Run(cfg, s, events) == s.(block := U32_MAX)
    ensures ClaimsOf(cfg, s, events, a) == []
  {
    assert events == [] + [NewBlock(U32_MAX)];
    ClaimsSnoc(cfg, s, [], NewBlock(U32_MAX), a);
  }

  lemma {:induction false} BurstRuns(cfg: Config, s: Chain, a: Account, n: nat)
    requires ReadyFor(cfg, s, a, n) && n <= cfg.maxClaimsPerAccount
    ensures Bursting(cfg, s, a, n, Run(cfg, s, Burst(a, n)))
    ensures |ClaimsOf(cfg, s, Burst(a, n), a)| == n
    ensures Between(ClaimsOf(cfg, s, Burst(a, n), a), U32_MAX, U32_MAX)
  {
    if n == 0 {
      BurstStarts(cfg, s, a, n);
    } else {
      PotCoversLess(cfg, s, n);
      BurstRuns(cfg, s, a, n - 1);
      BurstNext(cfg, s, a, n - 1, Run(cfg, s, Burst(a, n - 1)));
      ClaimsSnoc(cfg, s, Burst(a, n - 1), ClaimFor(a), a);
      BetweenExtends(ClaimsOf(cfg, s, Burst(a, n - 1), a), U32_MAX, U32_MAX, U32_MAX);
    }
  }

  lemma BurstFillsWindow(cfg: Config, s: Chain, a: Account, start: nat, end: nat, n: nat) returns (events: seq<Event>)
    requires ReadyFor(cfg, s, a, n) && n <= cfg.maxClaimsPerAccount && start <= U32_MAX < end
    ensures |Within(ClaimsOf(cfg, s, events, a), start, end)| == n
  {
    events := Burst(a, n);
    BurstRuns(cfg, s, a, n);
    AllWithin(ClaimsOf(cfg, s, events, a), start, end);
  }

  lemma UnsafeWindow(cfg: Config, start: nat, length: nat)
    requires cfg.claimCooldown > 0 && !SafeWindow(cfg, start, length)
    ensures start <= U32_MAX < start + length
    ensures CeilDiv(length, cfg.claimCooldown) + 1 <= cfg.maxClaimsPerAccount
  {
  }

  /** In every window that is not safe, some run of a ready account makes one claim more than the bound allows. */
  lemma RateBoundFailsAtLastBlock(cfg: Config, s: Chain, a: Account, start: nat, length: nat)
    returns (events: seq<Event>)
    requires cfg.claimCooldown > 0 && length > 0 && !SafeWindow(cfg, start, length)
    requires ReadyFor(cfg, s, a, CeilDiv(length, cfg.claimCooldown) + 1)
    ensures |Within(ClaimsOf(cfg, s, events, a), start, start + length)| == CeilDiv(length, cfg.claimCooldown) + 1
  {
    UnsafeWindow(cfg, start, length);
    events := BurstFillsWindow(cfg, s, a, start, start + length, CeilDiv(length, cfg.claimCooldown) + 1);
  }

  /** Every run keeps the rate bound in this window. */
  ghost predicate RateBounded(cfg: Config, s: Chain, a: Account, start: nat, length: nat)
    requires cfg.claimCooldown > 0
  {
    forall events ::
      |Within(ClaimsOf(cfg, s, events, a), start, start + length)| <= CeilDiv(length, cfg.claimCooldown)
  }

  /** The rate bound holds for all runs in exactly the safe windows. */
  lemma RateBoundIffSafeWindow(cfg: Config, s: Chain, a: Account, start: nat, length: nat)
    requires FaucetInv(cfg, s.faucet, s.block)
    requires cfg.claimCooldown > 0 && length > 0
    requires ReadyFor(cfg, s, a, CeilDiv(length, cfg.claimCooldown) + 1)
    ensures RateBounded(cfg, s, a, start, length) <==> SafeWindow(cfg, start, length)
  {
    if SafeWindow(cfg, start, length) {
      forall events
        ensures |Within(ClaimsOf(cfg, s, events, a), start, start + length)| <= CeilDiv(length, cfg.claimCooldown)
      {
        RateBound(cfg, s, events, a, start, length);
      }
    } else {
      var events := RateBoundFailsAtLastBlock(cfg, s, a, start, length);
    }
  }

  // ------------------------------------------------------------------ mainnet

  /** The mainnet genesis: the faucet pot holds a million tokens, the sudo account a thousandth of that. */
  ghost function MainnetGenesis(sudo: Account): Chain {
    Chain(0, Kilts.Kilt(map[], map[], map[], DidIdentifier(seq(32, _ => 0))),
          Ais.Ai(0, 0, map[], map[], map[], map[], map[]),
          Faucet(map[], map[]),
          map[sudo := 1_000_000_000_000_000, FaucetPotAccount() := 1_000_000_000_000_000_000])
  }

  lemma MainnetGenesisInv(sudo: Account)
    requires sudo != FaucetPotAccount()
    ensures Genesis(MainnetGenesis(sudo))
  {
    var one: Ledger := map[sudo := 1_000_000_000_000_000];
    MapSums.SumUpdate(map[], sudo, 1_000_000_000_000_000);
    assert one == map[][sudo := 1_000_000_000_000_000];
    MapSums.SumUpdate(one, FaucetPotAccount(), 1_000_000_000_000_000_000);
    assert MainnetGenesis(sudo).ledger == one[FaucetPotAccount() := 1_000_000_000_000_000_000];
  }

  /** From the mainnet genesis no run into which less than an existential deposit comes pays out over 99,999 claims. */
  lemma MainnetDrainBound(hash: Account -> Bytes, sudo: Account, events: seq<Event>)
    requires sudo != FaucetPotAccount()
    requires Inflow(QxConfig(hash), MainnetGenesis(sudo), events) < EXISTENTIAL_DEPOSIT
    ensures ClaimsByOthers(QxConfig(hash), Run(QxConfig(hash), MainnetGenesis(sudo), events).faucet) <= 99_999
  {
    var cfg := QxConfig(hash);
    DrainBound(cfg, MainnetGenesis(sudo), events);
    NoClaimsAtGenesis(cfg, sudo);
  }

  lemma NoClaimsAtGenesis(cfg: Config, sudo: Account)
    ensures ClaimsByOthers(cfg, MainnetGenesis(sudo).faucet) == 0
  {
    assert MainnetGenesis(sudo).faucet.claimCount - {cfg.faucetPot} == map[];
  }

  /**
   After 99,999 claims by others, in any run in which as much left the pot as came in, exactly one
   drip is left and no other account is paid any more. For a rested account with claims left the
   query still says yes and the pool lets it in; only the keep-alive transfer refuses it.
   */
  lemma MainnetDrained(hash: Account -> Bytes, sudo: Account, events: seq<Event>, next: Account)
    requires sudo != FaucetPotAccount() && next != FaucetPotAccount()
    requires var cfg, g := QxConfig(hash), MainnetGenesis(sudo);
             && ClaimsByOthers(cfg, Run(cfg, g, events).faucet) == 99_999
             && FundedByOthers(cfg, g, events) + Drift(cfg, g, events, cfg.faucetPot) == 0
    ensures var cfg := QxConfig(hash);
            var t := Run(cfg, MainnetGenesis(sudo), events);
            && Free(t.ledger, cfg.faucetPot) == FAUCET_DRIP_AMOUNT
            && Apply(cfg, t, Unsigned, Claim(next)).Err?
            && (Rested(cfg, t.faucet, t.block, next) && HasClaimsLeft(cfg, t.faucet, next) ==>
                  && t.faucet.CanClaim(cfg, t.ledger, t.block, next)
                  && t.faucet.ValidateUnsigned(cfg, t.ledger, t.block, next) == Valid
                  && Apply(cfg, t, Unsigned, Claim(next)) == Err(NotExpendable))
  {
    var cfg := QxConfig(hash);
    OneDripLeft(hash, sudo, events);
    LastDripStays(cfg, Run(cfg, MainnetGenesis(sudo), events), next);
  }

  lemma OneDripLeft(hash: Account -> Bytes, sudo: Account, events: seq<Event>)
    requires sudo != FaucetPotAccount()
    requires var cfg, g := QxConfig(hash), MainnetGenesis(sudo);
             && ClaimsByOthers(cfg, Run(cfg, g, events).faucet) == 99_999
             && FundedByOthers(cfg, g, events) + Drift(cfg, g, events, cfg.faucetPot) == 0
    ensures Free(Run(QxConfig(hash), MainnetGenesis(sudo), events).ledger, FaucetPotAccount()) == FAUCET_DRIP_AMOUNT
  {
    var cfg := QxConfig(hash);
    FaucetLedger(cfg, MainnetGenesis(sudo), events);
    NoClaimsAtGenesis(cfg, sudo);
  }

  /** A pot of exactly one drip pays nobody but itself, though the query counts it as enough. */
  lemma LastDripStays(cfg: Config, s: Chain, a: Account)
    requires Free(s.ledger, cfg.faucetPot) == cfg.dripAmount > 0 && cfg.existentialDeposit > 0
    requires a != cfg.faucetPot
    ensures Apply(cfg, s, Unsigned, Claim(a)).Err?
    ensures Rested(cfg, s.faucet, s.block, a) && HasClaimsLeft(cfg, s.faucet, a) ==>
      && s.faucet.CanClaim(cfg, s.ledger, s.block, a)
      && s.faucet.ValidateUnsigned(cfg, s.ledger, s.block, a) == Valid
      && Apply(cfg, s, Unsigned, Claim(a)) == Err(NotExpendable)
  {
  }

  /** Distinct 32-byte accounts, numbered in their first three bytes. */
  function Numbered(n: nat): Account
    requires n < 0x100_0000
  {
    var high := n / 0x100;
    AccountId32([high / 0x100, high % 0x100, n % 0x100] + seq(29, _ => 0))
  }

  lemma NumberedInjective(m: nat, n: nat)
    requires m < 0x100_0000 && n < 0x100_0000 && Numbered(m) == Numbered(n)
    ensures m == n
  {
    var p, q := Numbered(m).bytes, Numbered(n).bytes;
    assert p[0] == q[0] && p[1] == q[1] && p[2] == q[2];
    assert m / 0x100 == n / 0x100;
  }

  function FirstAccounts(count: nat): (accounts: seq<Account>)
    requires count <= 0x71_0000
    ensures |accounts| == count
  {
    seq(count, k requires 0 <= k < count => Numbered(k))
  }

  lemma FirstAccountsFresh(hash: Account -> Bytes, count: nat)
    requires count <= 0x71_0000
    ensures Fresh(QxConfig(hash), Faucet(map[], map[]), FirstAccounts(count))
  {
    var accounts := FirstAccounts(count);
    forall k | 0 <= k < count ensures accounts[k] != FaucetPotAccount() {
      assert accounts[k].bytes[0] == k / 0x100 / 0x100 < 0x71 == FaucetPotAccount().bytes[0];
    }
    forall i, j | 0 <= i < j < count ensures accounts[i] != accounts[j] {
      if accounts[i] == accounts[j] {
        NumberedInjective(i, j);
      }
    }
  }

  /** The mainnet bound is attained: some run of nothing but accepted claims makes 99,999 of them. */
  lemma MainnetDrainAttained(hash: Account -> Bytes, sudo: Account) returns (events: seq<Event>)
    requires sudo != FaucetPotAccount()
    ensures AllAccepted(QxConfig(hash), MainnetGenesis(sudo), events)
    ensures ClaimsByOthers(QxConfig(hash), Run(QxConfig(hash), MainnetGenesis(sudo), events).faucet) == 99_999
    ensures Inflow(QxConfig(hash), MainnetGenesis(sudo), events) == 0
  {
    var cfg := QxConfig(hash);
    MainnetGenesisInv(sudo);
    FirstAccountsFresh(hash, 99_999);
    DripsProduct(cfg, |FirstAccounts(99_999)|);
    DrainAttained(cfg, MainnetGenesis(sudo), FirstAccounts(99_999));
    NoClaimsAtGenesis(cfg, sudo);
    events := ClaimsFor(FirstAccounts(99_999));
  }

  // ------------------------------------------------------------- in QX terms

  /** A day, in milliseconds. */
  const DAY_MS := 86_400_000

  /** What one account draws in its life comes to at most 50 QX of 10^12 units each, in any run. */
  lemma QxLifetimeDraw(hash: Account -> Bytes, s: Chain, events: seq<Event>, a: Account)
    requires FaucetInv(QxConfig(hash), s.faucet, s.block)
    ensures FAUCET_DRIP_AMOUNT * (s.faucet.Count(a) + |ClaimsOf(QxConfig(hash), s, events, a)|) <= 50_000_000_000_000
  {
    ClaimHistory(QxConfig(hash), s, events, a);
    CountBelowCap(QxConfig(hash), Run(QxConfig(hash), s, events).faucet, Run(QxConfig(hash), s, events).block, a);
  }

  /** And within any day's worth of blocks below the last block number it draws at most one drip. */
  lemma QxDailyDraw(hash: Account -> Bytes, s: Chain, events: seq<Event>, a: Account, start: nat, length: nat)
    requires FaucetInv(QxConfig(hash), s.faucet, s.block)
    requires 0 < length && length * MILLI_SECS_PER_BLOCK <= DAY_MS && start + length <= U32_MAX
    ensures |Within(ClaimsOf(QxConfig(hash), s, events, a), start, start + length)| <= 1
  {
    RateBound(QxConfig(hash), s, events, a, start, length);
    assert CeilDiv(length, FAUCET_CLAIM_COOLDOWN) <= 1;
  }

  /** Both bounds are attained: a fresh account can draw five drips, one every 14,400 blocks. */
  lemma QxDrawAttained(hash: Account -> Bytes, s: Chain, a: Account, start: nat) returns (events: seq<Event>)
    requires ReadyFor(QxConfig(hash), s, a, 5) && s.block <= start && start + 4 * 14400 + 1 <= U32_MAX
    ensures |Within(ClaimsOf(QxConfig(hash), s, events, a), start, start + 4 * 14400 + 1)| == 5
  {
    SlotProduct(start, 14400, 4);
    events := ScheduleFillsWindow(QxConfig(hash), s, a, start, start + 4 * 14400 + 1, 5);
  }
}
