/**
 * The EIP-20 operations of the token (OpenZeppelin's ERC20 contract, as the
 * revert reasons of the tests name it), without the pause gate: each is a
 * function from the state before the call to its outcome.
 */
module Erc20 {
  import opened Accounts
  import opened Token

  /** `_transfer`: debit `from`, then credit `to`, then log a Transfer. */
  function TransferTokens(s: State, from: Addr, to: Addr, amount: Amount): Result<Effect>
  {
    if from == Zero then Err(TransferFromZero)
    else if to == Zero then Err(TransferToZero)
    else if BalanceOf(s, from) < amount then Err(TransferExceedsBalance)
    else
      var debited := s.balances[from := BalanceOf(s, from) - amount];
      var credited := debited[to := Get(debited, to) + amount];
      Ok(Effect(s.(balances := credited), [Event.Transfer(from, to, amount)]))
  }

  /** `_approve`: overwrite the allowance of (owner, spender), then log an Approval. */
  function SetAllowance(s: State, owner: Addr, spender: Addr, value: Amount): Result<Effect>
  {
    if owner == Zero then Err(ApproveFromZero)
    else if spender == Zero then Err(ApproveToZero)
    else
      Ok(Effect(s.(allowances := s.allowances[(owner, spender) := value]), [Approval(owner, spender, value)]))
  }

  /** `transfer(to, amount)` sent by `caller`. */
  function Transfer(s: State, caller: Addr, to: Addr, amount: Amount): (r: Result<Effect>)
    ensures r.Ok? <==> caller != Zero && to != Zero && amount <= BalanceOf(s, caller)
    ensures caller == Zero ==> r == Err(TransferFromZero)
    ensures caller != Zero && to == Zero ==> r == Err(TransferToZero)
    ensures caller != Zero && to != Zero && amount > BalanceOf(s, caller) ==> r == Err(TransferExceedsBalance)
    ensures r.Ok? ==>
              && BalancesMoved(s, r.value.post, caller, to, amount)
              && r.value.post.allowances == s.allowances
              && SupplyAndPauseKept(s, r.value.post)
              && r.value.events == [Event.Transfer(caller, to, amount)]
  {
    TransferTokens(s, caller, to, amount)
  }

  /** `approve(spender, amount)` sent by `caller`. */
  function Approve(s: State, caller: Addr, spender: Addr, amount: Amount): (r: Result<Effect>)
    ensures r.Ok? <==> caller != Zero && spender != Zero
    ensures caller == Zero ==> r == Err(ApproveFromZero)
    ensures caller != Zero && spender == Zero ==> r == Err(ApproveToZero)
    ensures r.Ok? ==>
              && AllowanceSet(s, r.value.post, caller, spender, amount)
              && r.value.post.balances == s.balances
              && SupplyAndPauseKept(s, r.value.post)
              && r.value.events == [Approval(caller, spender, amount)]
  {
    SetAllowance(s, caller, spender, amount)
  }

  /** `transferFrom(from, to, amount)` sent by `caller`: `_transfer` first,
      then the allowance of (from, caller) is charged through `_approve`. */
  function TransferFrom(s: State, caller: Addr, from: Addr, to: Addr, amount: Amount): (r: Result<Effect>)
    ensures r.Ok? <==>
              && from != Zero && to != Zero && caller != Zero
              && amount <= BalanceOf(s, from) && amount <= Allowance(s, from, caller)
    ensures from == Zero ==> r == Err(TransferFromZero)
    ensures from != Zero && to == Zero ==> r == Err(TransferToZero)
    ensures from != Zero && to != Zero && amount > BalanceOf(s, from) ==> r == Err(TransferExceedsBalance)
    ensures from != Zero && to != Zero && amount <= BalanceOf(s, from) && amount > Allowance(s, from, caller) ==>
              r == Err(TransferExceedsAllowance)
    ensures (from != Zero && to != Zero && caller == Zero &&
             amount <= BalanceOf(s, from) && amount <= Allowance(s, from, caller)) ==> r == Err(ApproveToZero)
    ensures r.Ok? ==>
              var left := Allowance(s, from, caller) - amount;
              && BalancesMoved(s, r.value.post, from, to, amount)
              && AllowanceSet(s, r.value.post, from, caller, left)
              && SupplyAndPauseKept(s, r.value.post)
              && r.value.events == [Event.Transfer(from, to, amount), Approval(from, caller, left)]
  {
    var moved :- TransferTokens(s, from, to, amount);
    var current := Allowance(moved.post, from, caller);
    if current < amount then Err(TransferExceedsAllowance)
    else
      var spent :- SetAllowance(moved.post, from, caller, current - amount);
      Ok(Effect(spent.post, moved.events + spent.events))
  }

  /** `increaseAllowance(spender, added)` sent by `caller`. */
  function IncreaseAllowance(s: State, caller: Addr, spender: Addr, added: Amount): (r: Result<Effect>)
    ensures r.Ok? <==> caller != Zero && spender != Zero
    ensures caller == Zero ==> r == Err(ApproveFromZero)
    ensures caller != Zero && spender == Zero ==> r == Err(ApproveToZero)
    ensures r.Ok? ==>
              var total := Allowance(s, caller, spender) + added;
              && AllowanceSet(s, r.value.post, caller, spender, total)
              && r.value.post.balances == s.balances
              && SupplyAndPauseKept(s, r.value.post)
              && r.value.events == [Approval(caller, spender, total)]
  {
    SetAllowance(s, caller, spender, Allowance(s, caller, spender) + added)
  }

  /** `decreaseAllowance(spender, subtracted)` sent by `caller`: the
      subtraction is checked before `_approve` looks at the spender. */
  function DecreaseAllowance(s: State, caller: Addr, spender: Addr, subtracted: Amount): (r: Result<Effect>)
    ensures r.Ok? <==> subtracted <= Allowance(s, caller, spender) && caller != Zero && spender != Zero
    ensures subtracted > Allowance(s, caller, spender) ==> r == Err(DecreasedBelowZero)
    ensures subtracted <= Allowance(s, caller, spender) && caller == Zero ==> r == Err(ApproveFromZero)
    ensures subtracted <= Allowance(s, caller, spender) && caller != Zero && spender == Zero ==>
              r == Err(ApproveToZero)
    ensures r.Ok? ==>
              var left := Allowance(s, caller, spender) - subtracted;
              && AllowanceSet(s, r.value.post, caller, spender, left)
              && r.value.post.balances == s.balances
              && SupplyAndPauseKept(s, r.value.post)
              && r.value.events == [Approval(caller, spender, left)]
  {
    var current := Allowance(s, caller, spender);
    if current < subtracted then Err(DecreasedBelowZero)
    else SetAllowance(s, caller, spender, current - subtracted)
  }

  /** `_transfer` keeps the invariant: the sum of the balances is unchanged
      and the null identifier is never credited. */
  lemma TransferTokensPreservesInv(s: State, from: Addr, to: Addr, amount: Amount)
    requires Inv(s)
    ensures TransferTokens(s, from, to, amount).Ok? ==> Inv(TransferTokens(s, from, to, amount).value.post)
  {
    if TransferTokens(s, from, to, amount).Ok? {
      var debited := s.balances[from := BalanceOf(s, from) - amount];
      SumUpdate(s.balances, from, BalanceOf(s, from) - amount);
      SumUpdate(debited, to, Get(debited, to) + amount);
    }
  }

  /** `_approve` keeps the invariant: it never records an allowance naming the null identifier. */
  lemma SetAllowancePreservesInv(s: State, owner: Addr, spender: Addr, value: Amount)
    requires Inv(s)
    ensures SetAllowance(s, owner, spender, value).Ok? ==> Inv(SetAllowance(s, owner, spender, value).value.post)
  {
  }

  /** `transferFrom` keeps the invariant: `_transfer` and `_approve` each do. */
  lemma TransferFromPreservesInv(s: State, caller: Addr, from: Addr, to: Addr, amount: Amount)
    requires Inv(s)
    ensures TransferFrom(s, caller, from, to, amount).Ok? ==> Inv(TransferFrom(s, caller, from, to, amount).value.post)
  {
    TransferTokensPreservesInv(s, from, to, amount);
    if TransferFrom(s, caller, from, to, amount).Ok? {
      var moved := TransferTokens(s, from, to, amount).value.post;
      SetAllowancePreservesInv(moved, from, caller, Allowance(moved, from, caller) - amount);
    }
  }
}
