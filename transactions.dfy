/**
 * The token's public mutating interface as one dispatch over calls, and
 * what holds of every ledger that a sequence of calls can reach from a
 * deployment: calls are applied one at a time, and a reverted call
 * leaves the ledger as it was.
 */
module Transactions {
  import opened Accounts
  import opened Token
  import Erc20
  import Burnable
  import Pausable

  /** A mutating call of the token, with the account that sent it. */
  datatype Call =
    | Transfer(caller: Addr, to: Addr, amount: Amount)
    | Approve(caller: Addr, spender: Addr, amount: Amount)
    | TransferFrom(caller: Addr, from: Addr, to: Addr, amount: Amount)
    | IncreaseAllowance(caller: Addr, spender: Addr, amount: Amount)
    | DecreaseAllowance(caller: Addr, spender: Addr, amount: Amount)
    | Burn(caller: Addr, amount: Amount)
    | BurnFrom(caller: Addr, account: Addr, amount: Amount)
    | Pause(caller: Addr)
    | Unpause(caller: Addr)
  {
    /** The calls ERC20Pausable puts behind the pause gate. */
    predicate Gated()
    {
      Transfer? || Approve? || TransferFrom? || IncreaseAllowance? || DecreaseAllowance?
    }
  }

  /** The outcome of call c on ledger s. */
  function Apply(s: State, c: Call): Result<Effect>
  {
    match c
    case Transfer(caller, to, amount) => Pausable.Transfer(s, caller, to, amount)
    case Approve(caller, spender, amount) => Pausable.Approve(s, caller, spender, amount)
    case TransferFrom(caller, from, to, amount) => Pausable.TransferFrom(s, caller, from, to, amount)
    case IncreaseAllowance(caller, spender, amount) => Pausable.IncreaseAllowance(s, caller, spender, amount)
    case DecreaseAllowance(caller, spender, amount) => Pausable.DecreaseAllowance(s, caller, spender, amount)
    case Burn(caller, amount) => Burnable.Burn(s, caller, amount)
    case BurnFrom(caller, account, amount) => Burnable.BurnFrom(s, caller, account, amount)
    case Pause(caller) => Pausable.Pause(s, caller)
    case Unpause(caller) => Pausable.Unpause(s, caller)
  }

  /** The ledger after call c: the call's new state, or s when it reverted. */
  function Next(s: State, c: Call): State
  {
    match Apply(s, c)
    case Ok(e) => e.post
    case Err(_) => s
  }

  /** The ledger after the calls in order. */
  function Run(s: State, calls: seq<Call>): State
    decreases |calls|
  {
    if calls == [] then s else Run(Next(s, calls[0]), calls[1..])
  }

  /** Every call keeps the invariant: balances add up to the supply, the
      null identifier holds nothing and no allowance names it. */
  lemma ApplyPreservesInv(s: State, c: Call)
    requires Inv(s)
    ensures Inv(Next(s, c))
  {
    match c
    case Transfer(caller, to, amount) =>
      Erc20.TransferTokensPreservesInv(s, caller, to, amount);
    case Approve(caller, spender, amount) =>
      Erc20.SetAllowancePreservesInv(s, caller, spender, amount);
    case TransferFrom(caller, from, to, amount) =>
      Erc20.TransferFromPreservesInv(s, caller, from, to, amount);
    case IncreaseAllowance(caller, spender, amount) =>
      Erc20.SetAllowancePreservesInv(s, caller, spender, Allowance(s, caller, spender) + amount);
    case DecreaseAllowance(caller, spender, amount) =>
      if amount <= Allowance(s, caller, spender) {
        Erc20.SetAllowancePreservesInv(s, caller, spender, Allowance(s, caller, spender) - amount);
      }
    case Burn(caller, amount) =>
      Burnable.BurnTokensPreservesInv(s, caller, amount);
    case BurnFrom(caller, account, amount) =>
      Burnable.BurnFromPreservesInv(s, caller, account, amount);
    case Pause(caller) =>
    case Unpause(caller) =>
  }

  /** Every call leaves the total supply where it was, except a burn,
      which lowers it by the amount burnt: nothing ever mints. */
  lemma ApplyNeverMints(s: State, c: Call)
    ensures Next(s, c).totalSupply <= s.totalSupply
    ensures !(c.Burn? || c.BurnFrom?) ==> Next(s, c).totalSupply == s.totalSupply
    ensures (c.Burn? || c.BurnFrom?) && Apply(s, c).Ok? ==> Next(s, c).totalSupply == s.totalSupply - c.amount
  {
  }

  /** Every ledger reachable from one that keeps the invariant keeps it. */
  lemma {:induction false} RunPreservesInv(s: State, calls: seq<Call>)
    requires Inv(s)
    ensures Inv(Run(s, calls))
    decreases |calls|
  {
    if calls != [] {
      ApplyPreservesInv(s, calls[0]);
      RunPreservesInv(Next(s, calls[0]), calls[1..]);
    }
  }

  /** A sequence of calls never raises the total supply. */
  lemma {:induction false} RunNeverMints(s: State, calls: seq<Call>)
    ensures Run(s, calls).totalSupply <= s.totalSupply
    decreases |calls|
  {
    if calls != [] {
      ApplyNeverMints(s, calls[0]);
      RunNeverMints(Next(s, calls[0]), calls[1..]);
    }
  }

  /** Conservation on every reachable ledger: after any calls on a fresh
      deployment, the balances add up to the total supply, which is at most
      the minted supply, and the null identifier holds nothing. */
  lemma Conservation(deployer: Addr, holder: Addr, supply: Amount, calls: seq<Call>)
    requires holder != Zero
    ensures var s := Run(Init(deployer, holder, supply), calls);
            && Sum(s.balances) == s.totalSupply
            && s.totalSupply <= supply
            && BalanceOf(s, Zero) == 0
  {
    InitInv(deployer, holder, supply);
    RunPreservesInv(Init(deployer, holder, supply), calls);
    RunNeverMints(Init(deployer, holder, supply), calls);
  }
}
