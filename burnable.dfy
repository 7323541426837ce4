/**
 * The burn extension (OpenZeppelin's ERC20Burnable): destroying tokens
 * lowers a balance and the total supply together. Burns are not behind
 * the pause gate.
 */
module Burnable {
  import opened Accounts
  import opened Token
  import Erc20

  /** `_burn`: debit `account`, then lower the total supply (a checked
      subtraction), then log a Transfer to the null identifier. */
  function BurnTokens(s: State, account: Addr, amount: Amount): Result<Effect>
  {
    if account == Zero then Err(BurnFromZero)
    else if BalanceOf(s, account) < amount then Err(BurnExceedsBalance)
    else if s.totalSupply < amount then Err(SubtractionOverflow)
    else
      Ok(Effect(
        s.(balances := s.balances[account := BalanceOf(s, account) - amount],
           totalSupply := s.totalSupply - amount),
        [Event.Transfer(account, Zero, amount)]))
  }

  /** `burn(amount)` sent by `caller`. */
  function Burn(s: State, caller: Addr, amount: Amount): (r: Result<Effect>)
    ensures r.Ok? <==> caller != Zero && amount <= BalanceOf(s, caller) && amount <= s.totalSupply
    ensures caller == Zero ==> r == Err(BurnFromZero)
    ensures caller != Zero && amount > BalanceOf(s, caller) ==> r == Err(BurnExceedsBalance)
    ensures caller != Zero && amount <= BalanceOf(s, caller) && amount > s.totalSupply ==> r == Err(SubtractionOverflow)
    ensures r.Ok? ==>
              && BalancesBurned(s, r.value.post, caller, amount)
              && r.value.post.totalSupply == s.totalSupply - amount
              && r.value.post.allowances == s.allowances
              && r.value.post.paused == s.paused && r.value.post.pauser == s.pauser
              && r.value.events == [Event.Transfer(caller, Zero, amount)]
  {
    BurnTokens(s, caller, amount)
  }

  /** `burnFrom(account, amount)` sent by `caller` (`_burnFrom`): the burn
      comes first, then the allowance of (account, caller) is charged
      through `_approve`. */
  function BurnFrom(s: State, caller: Addr, account: Addr, amount: Amount): (r: Result<Effect>)
    ensures r.Ok? <==>
              && account != Zero && caller != Zero
              && amount <= BalanceOf(s, account) && amount <= s.totalSupply
              && amount <= Allowance(s, account, caller)
    ensures account == Zero ==> r == Err(BurnFromZero)
    ensures account != Zero && amount > BalanceOf(s, account) ==> r == Err(BurnExceedsBalance)
    ensures account != Zero && amount <= BalanceOf(s, account) && amount > s.totalSupply ==> r == Err(SubtractionOverflow)
    ensures (account != Zero && amount <= BalanceOf(s, account) && amount <= s.totalSupply &&
             amount > Allowance(s, account, caller)) ==> r == Err(BurnExceedsAllowance)
    ensures (account != Zero && amount <= BalanceOf(s, account) && amount <= s.totalSupply &&
             amount <= Allowance(s, account, caller) && caller == Zero) ==> r == Err(ApproveToZero)
    ensures r.Ok? ==>
              var left := Allowance(s, account, caller) - amount;
              && BalancesBurned(s, r.value.post, account, amount)
              && r.value.post.totalSupply == s.totalSupply - amount
              && AllowanceSet(s, r.value.post, account, caller, left)
              && r.value.post.paused == s.paused && r.value.post.pauser == s.pauser
              && r.value.events == [Event.Transfer(account, Zero, amount), Approval(account, caller, left)]
  {
    var burned :- BurnTokens(s, account, amount);
    var current := Allowance(burned.post, account, caller);
    if current < amount then Err(BurnExceedsAllowance)
    else
      var spent :- Erc20.SetAllowance(burned.post, account, caller, current - amount);
      Ok(Effect(spent.post, burned.events + spent.events))
  }

  /** `_burn` keeps the invariant: the balances and the supply drop by the same amount. */
  lemma BurnTokensPreservesInv(s: State, account: Addr, amount: Amount)
    requires Inv(s)
    ensures BurnTokens(s, account, amount).Ok? ==> Inv(BurnTokens(s, account, amount).value.post)
  {
    if BurnTokens(s, account, amount).Ok? {
      SumUpdate(s.balances, account, BalanceOf(s, account) - amount);
    }
  }

  /** `burnFrom` keeps the invariant: `_burn` and `_approve` each do. */
  lemma BurnFromPreservesInv(s: State, caller: Addr, account: Addr, amount: Amount)
    requires Inv(s)
    ensures BurnFrom(s, caller, account, amount).Ok? ==> Inv(BurnFrom(s, caller, account, amount).value.post)
  {
    BurnTokensPreservesInv(s, account, amount);
    if BurnFrom(s, caller, account, amount).Ok? {
      var burned := BurnTokens(s, account, amount).value.post;
      Erc20.SetAllowancePreservesInv(burned, account, caller, Allowance(burned, account, caller) - amount);
    }
  }

  /** On a ledger that keeps the invariant the supply check of `_burn` never
      fires: a burn succeeds exactly when the account is real and holds the amount. */
  lemma BurnSucceedsWhenCovered(s: State, caller: Addr, amount: Amount)
    requires Inv(s)
    ensures Burn(s, caller, amount).Ok? <==> caller != Zero && amount <= BalanceOf(s, caller)
  {
    BalanceAtMostSupply(s, caller);
  }
}
