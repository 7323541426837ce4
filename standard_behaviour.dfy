/**
 * What the standard test suite of the token (test/WECToken.test.js) pins
 * down, stated for every ledger and not only for the amounts the suite
 * picks, together with scenarios that drive fresh Ledger objects through the
 * suite's own sequences of calls.
 */
module StandardBehaviour {
  import opened Accounts
  import opened Token
  import Erc20
  import Pausable
  import opened WholeEarthCoin

  /** The supply every scenario of the suites mints: 10^27 base units. */
  const InitialBalance: Amount := 1_000_000_000_000_000_000_000_000_000

  /** A transfer is undone by the opposite transfer: every balance, and the
      rest of the ledger, is back where it started. */
  lemma TransferThenBack(s: State, a: Addr, b: Addr, amount: Amount)
    requires a != Zero && b != Zero && amount <= BalanceOf(s, a)
    ensures Erc20.Transfer(s, a, b, amount).Ok?
    ensures var t := Erc20.Transfer(s, a, b, amount).value.post;
            && Erc20.Transfer(t, b, a, amount).Ok?
            && var u := Erc20.Transfer(t, b, a, amount).value.post;
            && (forall x :: BalanceOf(u, x) == BalanceOf(s, x))
            && u.allowances == s.allowances && SupplyAndPauseKept(s, u)
  {
  }

  /** `approve` overwrites: approving `first` and then `second` leaves the
      same ledger as approving `second` alone. */
  lemma ApproveOverwrites(s: State, caller: Addr, spender: Addr, first: Amount, second: Amount)
    requires caller != Zero && spender != Zero
    ensures Erc20.Approve(s, caller, spender, first).Ok?
    ensures Erc20.Approve(Erc20.Approve(s, caller, spender, first).value.post, caller, spender, second)
            == Erc20.Approve(s, caller, spender, second)
  {
    var t := Erc20.Approve(s, caller, spender, first).value.post;
    assert t.allowances[(caller, spender) := second] == s.allowances[(caller, spender) := second];
  }

  /** `transferFrom` is `transfer` from the owner's account combined with
      `approve` of what is left of the caller's allowance: it succeeds
      exactly when both would and the allowance covers the amount, and then
      its ledger has the balances of the one and the allowances of the other. */
  lemma TransferFromIsTransferAndApprove(s: State, caller: Addr, from: Addr, to: Addr, amount: Amount)
    ensures Erc20.TransferFrom(s, caller, from, to, amount).Ok? <==>
              && Erc20.Transfer(s, from, to, amount).Ok?
              && amount <= Allowance(s, from, caller)
              && Erc20.Approve(s, from, caller, Allowance(s, from, caller) - amount).Ok?
    ensures Erc20.TransferFrom(s, caller, from, to, amount).Ok? ==>
              var post := Erc20.TransferFrom(s, caller, from, to, amount).value.post;
              && post.balances == Erc20.Transfer(s, from, to, amount).value.post.balances
              && post.allowances == Erc20.Approve(s, from, caller, Allowance(s, from, caller) - amount).value.post.allowances
              && SupplyAndPauseKept(s, post)
  {
  }

  /** `increaseAllowance` is `approve` of the current allowance plus the
      added amount, whatever the caller's balance. */
  lemma IncreaseIsApproveOfSum(s: State, caller: Addr, spender: Addr, added: Amount)
    ensures Erc20.IncreaseAllowance(s, caller, spender, added)
            == Erc20.Approve(s, caller, spender, Allowance(s, caller, spender) + added)
  {
  }

  /** `decreaseAllowance` within the allowance is `approve` of the difference. */
  lemma DecreaseIsApproveOfDifference(s: State, caller: Addr, spender: Addr, subtracted: Amount)
    requires subtracted <= Allowance(s, caller, spender)
    ensures Erc20.DecreaseAllowance(s, caller, spender, subtracted)
            == Erc20.Approve(s, caller, spender, Allowance(s, caller, spender) - subtracted)
  {
  }

  /** Decreasing an allowance by what was just added undoes the increase:
      every allowance and every balance is back where it started. */
  lemma IncreaseThenDecrease(s: State, caller: Addr, spender: Addr, amount: Amount)
    requires caller != Zero && spender != Zero
    ensures Erc20.IncreaseAllowance(s, caller, spender, amount).Ok?
    ensures var t := Erc20.IncreaseAllowance(s, caller, spender, amount).value.post;
            && Erc20.DecreaseAllowance(t, caller, spender, amount).Ok?
            && var u := Erc20.DecreaseAllowance(t, caller, spender, amount).value.post;
            && (forall o, sp :: Allowance(u, o, sp) == Allowance(s, o, sp))
            && u.balances == s.balances && SupplyAndPauseKept(s, u)
  {
  }

  /** No allowance can be granted to the null identifier, so decreasing one
      reports "decreased allowance below zero" for any positive amount, and
      decreasing one by 0 reports the null spender: it never succeeds. */
  lemma DecreaseForZeroSpender(s: State, caller: Addr, amount: Amount)
    requires Inv(s) && !s.paused
    ensures amount > 0 ==> Pausable.DecreaseAllowance(s, caller, Zero, amount) == Err(DecreasedBelowZero)
    ensures Pausable.DecreaseAllowance(s, caller, Zero, amount).Err?
  {
    NoZeroAllowance(s, caller, Zero);
  }

  /** A fresh deployment: the total supply and the holder's balance are the
      minted amount; another account holds nothing. */
  method FreshDeployment(deployer: Addr, owner: Addr, anotherAccount: Addr)
    returns (supply: Amount, ownerBalance: Amount, otherBalance: Amount)
    requires owner != Zero && anotherAccount != owner
    ensures supply == InitialBalance && ownerBalance == InitialBalance && otherBalance == 0
  {
    var token := new Ledger(deployer, owner, InitialBalance);
    supply := token.totalSupply;
    ownerBalance := token.BalanceOf(owner);
    otherBalance := token.BalanceOf(anotherAccount);
  }

  /** Transferring one unit more than the whole supply reverts and moves
      nothing; transferring the whole supply empties the sender, credits the
      recipient and logs exactly one Transfer. */
  method TransferScenario(deployer: Addr, owner: Addr, recipient: Addr)
    returns (tooMuch: Result<seq<Event>>, all: Result<seq<Event>>, ownerBalance: Amount, recipientBalance: Amount)
    requires owner != Zero && recipient != Zero && owner != recipient
    ensures tooMuch == Err(TransferExceedsBalance)
    ensures all == Ok([Event.Transfer(owner, recipient, InitialBalance)])
    ensures ownerBalance == 0 && recipientBalance == InitialBalance
  {
    var token := new Ledger(deployer, owner, InitialBalance);
    tooMuch := token.Transfer(owner, recipient, InitialBalance + 1);
    all := token.Transfer(owner, recipient, InitialBalance);
    ownerBalance := token.BalanceOf(owner);
    recipientBalance := token.BalanceOf(recipient);
  }

  /** With an allowance one short of the amount and a balance one short
      too, transferFrom reports the balance; with the balance covered it
      reports the allowance. */
  method TransferFromShortScenario(deployer: Addr, owner: Addr, spender: Addr, to: Addr)
    returns (bothShort: Result<seq<Event>>, allowanceShort: Result<seq<Event>>)
    requires owner != Zero && spender != Zero && to != Zero
    ensures bothShort == Err(TransferExceedsBalance)
    ensures allowanceShort == Err(TransferExceedsAllowance)
  {
    var token := new Ledger(deployer, owner, InitialBalance);
    var approved := token.Approve(owner, spender, InitialBalance - 1);
    bothShort := token.TransferFrom(spender, owner, to, InitialBalance + 1);
    allowanceShort := token.TransferFrom(spender, owner, to, InitialBalance);
  }

  /** A spender allowed the whole supply moves all of it: the owner is
      emptied, the recipient credited, and the allowance used up, with a
      Transfer and then an Approval of the remaining 0 logged. */
  method TransferFromScenario(deployer: Addr, owner: Addr, spender: Addr, to: Addr)
    returns (r: Result<seq<Event>>, ownerBalance: Amount, toBalance: Amount, left: Amount)
    requires owner != Zero && spender != Zero && to != Zero && owner != to
    ensures r == Ok([Event.Transfer(owner, to, InitialBalance), Approval(owner, spender, 0)])
    ensures ownerBalance == 0 && toBalance == InitialBalance && left == 0
  {
    var token := new Ledger(deployer, owner, InitialBalance);
    var approved := token.Approve(owner, spender, InitialBalance);
    r := token.TransferFrom(spender, owner, to, InitialBalance);
    ownerBalance := token.BalanceOf(owner);
    toBalance := token.BalanceOf(to);
    left := token.Allowance(owner, spender);
  }
}
