/** Account balances, as far as the pallets use them: `Currency::free_balance` and a keep-alive `transfer`. */
module Balances {
  import opened Primitives
  import MapSums

  type Ledger = map<Account, u128>

  function Free(ledger: Ledger, a: Account): u128 {
    if a in ledger then ledger[a] else 0
  }

  /** Moving nothing, or to oneself, does nothing; otherwise both sides must end at or above the existential deposit. */
  function Transfer(cfg: Config, ledger: Ledger, from: Account, to: Account, amount: u128): Result<Ledger> {
    if amount == 0 || from == to then Ok(ledger)
    else if Free(ledger, from) < amount then Err(FundsUnavailable)
    else if Free(ledger, from) - amount < cfg.existentialDeposit then Err(NotExpendable)
    else if Free(ledger, to) + amount > U128_MAX then Err(BalanceOverflow)
    else if Free(ledger, to) + amount < cfg.existentialDeposit then Err(BelowMinimum)
    else Ok(ledger[from := Free(ledger, from) - amount][to := Free(ledger, to) + amount])
  }

  /** The issuance fits the balance type. */
  ghost predicate LedgerInv(ledger: Ledger) {
    MapSums.Sum(ledger) <= U128_MAX
  }

  /** A transfer conserves the issuance. */
  lemma TransferConserves(cfg: Config, ledger: Ledger, from: Account, to: Account, amount: u128)
    requires Transfer(cfg, ledger, from, to, amount).Ok?
    ensures MapSums.Sum(Transfer(cfg, ledger, from, to, amount).value) == MapSums.Sum(ledger)
  {
    if amount != 0 && from != to {
      var less := Free(ledger, from) - amount;
      MapSums.SumUpdate(ledger, from, less);
      MapSums.SumUpdate(ledger[from := less], to, Free(ledger, to) + amount);
    }
  }

  /** A transfer moves exactly the amount, and touches nobody else's balance. */
  lemma TransferMoves(cfg: Config, ledger: Ledger, from: Account, to: Account, amount: u128, a: Account)
    requires Transfer(cfg, ledger, from, to, amount).Ok?
    ensures Free(Transfer(cfg, ledger, from, to, amount).value, a) ==
            Free(ledger, a) + (if a == to then amount else 0) - (if a == from then amount else 0)
  {
  }

  /** With the issuance in range a receiver never overflows. */
  lemma NoOverflow(ledger: Ledger, from: Account, to: Account)
    requires LedgerInv(ledger) && from != to
    ensures Free(ledger, from) + Free(ledger, to) <= U128_MAX
  {
    MapSums.TwoWithinSum(ledger, from, to);
  }

  class Bank {
    var ledger: Ledger

    constructor (initial: Ledger)
      ensures ledger == initial
    {
      ledger := initial;
    }

    method Set(saved: Ledger)
      modifies this
      ensures ledger == saved
    {
      ledger := saved;
    }

    method Pay(cfg: Config, from: Account, to: Account, amount: u128) returns (r: Result<()>)
      modifies this
      ensures r == Report(Transfer(cfg, old(ledger), from, to, amount))
      ensures ledger == After(old(ledger), Transfer(cfg, old(ledger), from, to, amount))
    {
      var outcome := Transfer(cfg, ledger, from, to, amount);
      ledger := After(ledger, outcome);
      return Report(outcome);
    }
  }
}
