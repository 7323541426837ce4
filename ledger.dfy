/**
 * The WholeEarthCoin token as one mutable object: each call checks its
 * conditions in the order the contract does, then updates the balance and
 * allowance tables in place, and returns the logs or the revert reason.
 * Every method is proved to do exactly what the corresponding function of
 * the Erc20, Burnable and Pausable modules specifies, and to keep the
 * ledger invariant.
 */
module WholeEarthCoin {
  import opened Accounts
  import opened Token
  import Erc20
  import Burnable
  import Pausable
  import Transactions

  class Ledger {
    var balances: map<Addr, Amount>
    var allowances: map<(Addr, Addr), Amount>
    var totalSupply: Amount
    var paused: bool
    /** The account holding the pauser role: the deployer. */
    const pauser: Addr

    /** The token's descriptive metadata. */
    const name: string := "WholeEarthCoin"
    const symbol: string := "WEC"
    const decimals: nat := 18

    /** The ledger's fields as a value. */
    function Snapshot(): State
      reads this
    {
      State(balances, allowances, totalSupply, paused, pauser)
    }

    ghost predicate Valid()
      reads this
    {
      Inv(Snapshot())
    }

    /** Deployment by `deployer` of `new(holder, supply)`: the whole supply is
        minted to holder. Minting to the null identifier reverts the deployment. */
    constructor (deployer: Addr, holder: Addr, supply: Amount)
      requires holder != Zero
      ensures Valid() && Snapshot() == Init(deployer, holder, supply)
    {
      balances := map[holder := supply];
      allowances := map[];
      totalSupply := supply;
      paused := false;
      pauser := deployer;
      new;
      InitInv(deployer, holder, supply);
    }

    /** `balanceOf(account)`. */
    function BalanceOf(account: Addr): (b: Amount)
      reads this
      ensures b == Token.BalanceOf(Snapshot(), account)
    {
      Get(balances, account)
    }

    /** `allowance(owner, spender)`. */
    function Allowance(owner: Addr, spender: Addr): (a: Amount)
      reads this
      ensures a == Token.Allowance(Snapshot(), owner, spender)
    {
      Get(allowances, (owner, spender))
    }

    /** `transfer(to, amount)` sent by `caller`. */
    method Transfer(caller: Addr, to: Addr, amount: Amount) returns (r: Result<seq<Event>>)
      requires Valid()
      modifies this
      ensures Valid()
      ensures Realizes(Pausable.Transfer(old(Snapshot()), caller, to, amount), r, old(Snapshot()), Snapshot())
    {
      if paused { return Err(Error.Paused); }
      if caller == Zero { return Err(TransferFromZero); }
      if to == Zero { return Err(TransferToZero); }
      var held := BalanceOf(caller);
      if held < amount { return Err(TransferExceedsBalance); }
      ghost var before := Snapshot();
      balances := balances[caller := held - amount];
      balances := balances[to := Get(balances, to) + amount];
      r := Ok([Event.Transfer(caller, to, amount)]);
      Transactions.ApplyPreservesInv(before, Transactions.Transfer(caller, to, amount));
    }

    /** `approve(spender, amount)` sent by `caller`. */
    method Approve(caller: Addr, spender: Addr, amount: Amount) returns (r: Result<seq<Event>>)
      requires Valid()
      modifies this
      ensures Valid()
      ensures Realizes(Pausable.Approve(old(Snapshot()), caller, spender, amount), r, old(Snapshot()), Snapshot())
    {
      if paused { return Err(Error.Paused); }
      if caller == Zero { return Err(ApproveFromZero); }
      if spender == Zero { return Err(ApproveToZero); }
      ghost var before := Snapshot();
      allowances := allowances[(caller, spender) := amount];
      r := Ok([Approval(caller, spender, amount)]);
      Transactions.ApplyPreservesInv(before, Transactions.Approve(caller, spender, amount));
    }

    /** `transferFrom(from, to, amount)` sent by `caller`. */
    method TransferFrom(caller: Addr, from: Addr, to: Addr, amount: Amount) returns (r: Result<seq<Event>>)
      requires Valid()
      modifies this
      ensures Valid()
      ensures Realizes(Pausable.TransferFrom(old(Snapshot()), caller, from, to, amount), r, old(Snapshot()), Snapshot())
    {
      if paused { return Err(Error.Paused); }
      if from == Zero { return Err(TransferFromZero); }
      if to == Zero { return Err(TransferToZero); }
      var held := BalanceOf(from);
      if held < amount { return Err(TransferExceedsBalance); }
      var current := Allowance(from, caller);
      if current < amount { return Err(TransferExceedsAllowance); }
      if caller == Zero { return Err(ApproveToZero); }
      ghost var before := Snapshot();
      balances := balances[from := held - amount];
      balances := balances[to := Get(balances, to) + amount];
      allowances := allowances[(from, caller) := current - amount];
      r := Ok([Event.Transfer(from, to, amount), Approval(from, caller, current - amount)]);
      Transactions.ApplyPreservesInv(before, Transactions.TransferFrom(caller, from, to, amount));
    }

    /** `increaseAllowance(spender, added)` sent by `caller`. */
    method IncreaseAllowance(caller: Addr, spender: Addr, added: Amount) returns (r: Result<seq<Event>>)
      requires Valid()
      modifies this
      ensures Valid()
      ensures Realizes(Pausable.IncreaseAllowance(old(Snapshot()), caller, spender, added), r, old(Snapshot()), Snapshot())
    {
      if paused { return Err(Error.Paused); }
      var total := Allowance(caller, spender) + added;
      if caller == Zero { return Err(ApproveFromZero); }
      if spender == Zero { return Err(ApproveToZero); }
      ghost var before := Snapshot();
      allowances := allowances[(caller, spender) := total];
      r := Ok([Approval(caller, spender, total)]);
      Transactions.ApplyPreservesInv(before, Transactions.IncreaseAllowance(caller, spender, added));
    }

    /** `decreaseAllowance(spender, subtracted)` sent by `caller`. */
    method DecreaseAllowance(caller: Addr, spender: Addr, subtracted: Amount) returns (r: Result<seq<Event>>)
      requires Valid()
      modifies this
      ensures Valid()
      ensures Realizes(Pausable.DecreaseAllowance(old(Snapshot()), caller, spender, subtracted), r, old(Snapshot()), Snapshot())
    {
      if paused { return Err(Error.Paused); }
      var current := Allowance(caller, spender);
      if current < subtracted { return Err(DecreasedBelowZero); }
      if caller == Zero { return Err(ApproveFromZero); }
      if spender == Zero { return Err(ApproveToZero); }
      ghost var before := Snapshot();
      allowances := allowances[(caller, spender) := current - subtracted];
      r := Ok([Approval(caller, spender, current - subtracted)]);
      Transactions.ApplyPreservesInv(before, Transactions.DecreaseAllowance(caller, spender, subtracted));
    }

    /** `burn(amount)` sent by `caller`. */
    method Burn(caller: Addr, amount: Amount) returns (r: Result<seq<Event>>)
      requires Valid()
      modifies this
      ensures Valid()
      ensures Realizes(Burnable.Burn(old(Snapshot()), caller, amount), r, old(Snapshot()), Snapshot())
    {
      if caller == Zero { return Err(BurnFromZero); }
      var held := BalanceOf(caller);
      if held < amount { return Err(BurnExceedsBalance); }
      if totalSupply < amount { return Err(SubtractionOverflow); }
      ghost var before := Snapshot();
      balances := balances[caller := held - amount];
      totalSupply := totalSupply - amount;
      r := Ok([Event.Transfer(caller, Zero, amount)]);
      Transactions.ApplyPreservesInv(before, Transactions.Burn(caller, amount));
    }

    /** `burnFrom(account, amount)` sent by `caller`. */
    method BurnFrom(caller: Addr, account: Addr, amount: Amount) returns (r: Result<seq<Event>>)
      requires Valid()
      modifies this
      ensures Valid()
      ensures Realizes(Burnable.BurnFrom(old(Snapshot()), caller, account, amount), r, old(Snapshot()), Snapshot())
    {
      if account == Zero { return Err(BurnFromZero); }
      var held := BalanceOf(account);
      if held < amount { return Err(BurnExceedsBalance); }
      if totalSupply < amount { return Err(SubtractionOverflow); }
      var current := Allowance(account, caller);
      if current < amount { return Err(BurnExceedsAllowance); }
      if caller == Zero { return Err(ApproveToZero); }
      ghost var before := Snapshot();
      balances := balances[account := held - amount];
      totalSupply := totalSupply - amount;
      allowances := allowances[(account, caller) := current - amount];
      r := Ok([Event.Transfer(account, Zero, amount), Approval(account, caller, current - amount)]);
      Transactions.ApplyPreservesInv(before, Transactions.BurnFrom(caller, account, amount));
    }

    /** `pause()` sent by `caller`. */
    method Pause(caller: Addr) returns (r: Result<seq<Event>>)
      requires Valid()
      modifies this
      ensures Valid()
      ensures Realizes(Pausable.Pause(old(Snapshot()), caller), r, old(Snapshot()), Snapshot())
    {
      if caller != pauser { return Err(NotPauser); }
      if paused { return Err(Error.Paused); }
      paused := true;
      r := Ok([Event.Paused(caller)]);
    }

    /** `unpause()` sent by `caller`. */
    method Unpause(caller: Addr) returns (r: Result<seq<Event>>)
      requires Valid()
      modifies this
      ensures Valid()
      ensures Realizes(Pausable.Unpause(old(Snapshot()), caller), r, old(Snapshot()), Snapshot())
    {
      if caller != pauser { return Err(NotPauser); }
      if !paused { return Err(NotPaused); }
      paused := false;
      r := Ok([Event.Unpaused(caller)]);
    }
  }
}
