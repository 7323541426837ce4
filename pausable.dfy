/**
 * The pause switch (OpenZeppelin's Pausable with its PauserRole) and the
 * token's gated operations (ERC20Pausable): while the switch is on,
 * transfer, approve, transferFrom, increaseAllowance and decreaseAllowance
 * revert before any other check.
 */
module Pausable {
  import opened Accounts
  import opened Token
  import Erc20

  /** `pause()` sent by `caller`: only the pauser, and only while running. */
  function Pause(s: State, caller: Addr): (r: Result<Effect>)
    ensures r.Ok? <==> caller == s.pauser && !s.paused
    ensures caller != s.pauser ==> r == Err(NotPauser)
    ensures caller == s.pauser && s.paused ==> r == Err(Error.Paused)
    ensures r.Ok? ==> r.value.post.paused && r.value.post.(paused := false) == s
    ensures r.Ok? ==> r.value.events == [Event.Paused(caller)]
  {
    if caller != s.pauser then Err(NotPauser)
    else if s.paused then Err(Error.Paused)
    else Ok(Effect(s.(paused := true), [Event.Paused(caller)]))
  }

  /** `unpause()` sent by `caller`: only the pauser, and only while paused. */
  function Unpause(s: State, caller: Addr): (r: Result<Effect>)
    ensures r.Ok? <==> caller == s.pauser && s.paused
    ensures caller != s.pauser ==> r == Err(NotPauser)
    ensures caller == s.pauser && !s.paused ==> r == Err(NotPaused)
    ensures r.Ok? ==> !r.value.post.paused && r.value.post.(paused := true) == s
    ensures r.Ok? ==> r.value.events == [Event.Unpaused(caller)]
  {
    if caller != s.pauser then Err(NotPauser)
    else if !s.paused then Err(NotPaused)
    else Ok(Effect(s.(paused := false), [Event.Unpaused(caller)]))
  }

  /** `transfer` behind the gate. */
  function Transfer(s: State, caller: Addr, to: Addr, amount: Amount): (r: Result<Effect>)
    ensures s.paused ==> r == Err(Error.Paused)
    ensures !s.paused ==> r == Erc20.Transfer(s, caller, to, amount)
  {
    if s.paused then Err(Error.Paused) else Erc20.Transfer(s, caller, to, amount)
  }

  /** `approve` behind the gate. */
  function Approve(s: State, caller: Addr, spender: Addr, amount: Amount): (r: Result<Effect>)
    ensures s.paused ==> r == Err(Error.Paused)
    ensures !s.paused ==> r == Erc20.Approve(s, caller, spender, amount)
  {
    if s.paused then Err(Error.Paused) else Erc20.Approve(s, caller, spender, amount)
  }

  /** `transferFrom` behind the gate. */
  function TransferFrom(s: State, caller: Addr, from: Addr, to: Addr, amount: Amount): (r: Result<Effect>)
    ensures s.paused ==> r == Err(Error.Paused)
    ensures !s.paused ==> r == Erc20.TransferFrom(s, caller, from, to, amount)
  {
    if s.paused then Err(Error.Paused) else Erc20.TransferFrom(s, caller, from, to, amount)
  }

  /** `increaseAllowance` behind the gate. */
  function IncreaseAllowance(s: State, caller: Addr, spender: Addr, added: Amount): (r: Result<Effect>)
    ensures s.paused ==> r == Err(Error.Paused)
    ensures !s.paused ==> r == Erc20.IncreaseAllowance(s, caller, spender, added)
  {
    if s.paused then Err(Error.Paused) else Erc20.IncreaseAllowance(s, caller, spender, added)
  }

  /** `decreaseAllowance` behind the gate. */
  function DecreaseAllowance(s: State, caller: Addr, spender: Addr, subtracted: Amount): (r: Result<Effect>)
    ensures s.paused ==> r == Err(Error.Paused)
    ensures !s.paused ==> r == Erc20.DecreaseAllowance(s, caller, spender, subtracted)
  {
    if s.paused then Err(Error.Paused) else Erc20.DecreaseAllowance(s, caller, spender, subtracted)
  }
}
