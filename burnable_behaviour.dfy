/**
 * What the burn test suite of the token (test/BurnableToken.test.js) pins
 * down, stated for every ledger that keeps the invariant, with scenarios
 * that drive fresh Ledger objects through the suite's sequences of calls.
 */
module BurnableBehaviour {
  import opened Accounts
  import opened Token
  import Burnable
  import opened WholeEarthCoin
  import StandardBehaviour

  /** Burning at most one's balance, 0 included, succeeds: the balance and
      the total supply both drop by exactly the amount, and one Transfer to
      the null identifier is logged. */
  lemma BurnWithinBalance(s: State, caller: Addr, amount: Amount)
    requires Inv(s) && caller != Zero && amount <= BalanceOf(s, caller)
    ensures Burnable.Burn(s, caller, amount).Ok?
    ensures var e := Burnable.Burn(s, caller, amount).value;
            && BalanceOf(e.post, caller) == BalanceOf(s, caller) - amount
            && e.post.totalSupply == s.totalSupply - amount
            && e.events == [Event.Transfer(caller, Zero, amount)]
  {
    BalanceAtMostSupply(s, caller);
  }

  /** burnFrom with an allowance of three times the amount lowers the
      owner's balance by the amount, leaves two times the amount allowed,
      and logs the burn as a Transfer to the null identifier. */
  lemma BurnFromTripleAllowance(s: State, caller: Addr, account: Addr, amount: Amount)
    requires Inv(s) && caller != Zero && account != Zero
    requires amount <= BalanceOf(s, account) && Allowance(s, account, caller) == 3 * amount
    ensures Burnable.BurnFrom(s, caller, account, amount).Ok?
    ensures var e := Burnable.BurnFrom(s, caller, account, amount).value;
            && BalanceOf(e.post, account) == BalanceOf(s, account) - amount
            && Allowance(e.post, account, caller) == 2 * amount
            && e.events[0] == Event.Transfer(account, Zero, amount)
  {
    BalanceAtMostSupply(s, account);
  }

  /** burnFrom with the balance covered but not the allowance reports the
      allowance (the supply check of `_burn` never fires under the invariant). */
  lemma BurnFromBeyondAllowance(s: State, caller: Addr, account: Addr, amount: Amount)
    requires Inv(s) && account != Zero
    requires amount <= BalanceOf(s, account) && amount > Allowance(s, account, caller)
    ensures Burnable.BurnFrom(s, caller, account, amount) == Err(BurnExceedsAllowance)
  {
    BalanceAtMostSupply(s, account);
  }

  /** burnFrom is `burn` by the owner combined with charging the caller's
      allowance: it succeeds exactly when that burn does and the allowance
      covers the amount, and then has that burn's balances and supply. */
  lemma BurnFromIsBurnAndCharge(s: State, caller: Addr, account: Addr, amount: Amount)
    ensures Burnable.BurnFrom(s, caller, account, amount).Ok? <==>
              && Burnable.Burn(s, account, amount).Ok?
              && amount <= Allowance(s, account, caller) && caller != Zero
    ensures Burnable.BurnFrom(s, caller, account, amount).Ok? ==>
              var post := Burnable.BurnFrom(s, caller, account, amount).value.post;
              var burnt := Burnable.Burn(s, account, amount).value.post;
              && post.balances == burnt.balances && post.totalSupply == burnt.totalSupply
              && Allowance(post, account, caller) == Allowance(s, account, caller) - amount
  {
  }

  /** On fresh deployments of the whole supply to `owner`: burning 0 and
      burning 100 each log one Transfer to the null identifier and lower the
      balance by the amount; burning one unit more than the balance reverts. */
  method BurnScenario(owner: Addr)
    returns (zero: Result<seq<Event>>, zeroBalance: Amount,
             hundred: Result<seq<Event>>, hundredBalance: Amount,
             tooMuch: Result<seq<Event>>)
    requires owner != Zero
    ensures zero == Ok([Event.Transfer(owner, Zero, 0)]) && zeroBalance == StandardBehaviour.InitialBalance
    ensures hundred == Ok([Event.Transfer(owner, Zero, 100)])
    ensures hundredBalance == StandardBehaviour.InitialBalance - 100
    ensures tooMuch == Err(BurnExceedsBalance)
  {
    var token := new Ledger(owner, owner, StandardBehaviour.InitialBalance);
    zero := token.Burn(owner, 0);
    zeroBalance := token.BalanceOf(owner);

    token := new Ledger(owner, owner, StandardBehaviour.InitialBalance);
    hundred := token.Burn(owner, 100);
    hundredBalance := token.BalanceOf(owner);

    token := new Ledger(owner, owner, StandardBehaviour.InitialBalance);
    tooMuch := token.Burn(owner, StandardBehaviour.InitialBalance + 1);
  }

  /** A burner allowed 300 burns 100 of the owner's tokens: the owner's
      balance drops by 100, 200 stays allowed, and the burn is logged. */
  method BurnFromScenario(owner: Addr, burner: Addr)
    returns (r: Result<seq<Event>>, balance: Amount, left: Amount)
    requires owner != Zero && burner != Zero
    ensures r == Ok([Event.Transfer(owner, Zero, 100), Approval(owner, burner, 200)])
    ensures balance == StandardBehaviour.InitialBalance - 100 && left == 200
  {
    var token := new Ledger(owner, owner, StandardBehaviour.InitialBalance);
    var a := token.Approve(owner, burner, 300);
    r := token.BurnFrom(burner, owner, 100);
    balance := token.BalanceOf(owner);
    left := token.Allowance(owner, burner);
  }

  /** burnFrom of one unit more than the balance, with that much allowed,
      reports the balance; burnFrom of 101 with 100 allowed reports the
      allowance. */
  method BurnFromFailureScenario(owner: Addr, burner: Addr)
    returns (beyondBalance: Result<seq<Event>>, beyondAllowance: Result<seq<Event>>)
    requires owner != Zero && burner != Zero
    ensures beyondBalance == Err(BurnExceedsBalance)
    ensures beyondAllowance == Err(BurnExceedsAllowance)
  {
    var token := new Ledger(owner, owner, StandardBehaviour.InitialBalance);
    var a := token.Approve(owner, burner, StandardBehaviour.InitialBalance + 1);
    beyondBalance := token.BurnFrom(burner, owner, StandardBehaviour.InitialBalance + 1);

    token := new Ledger(owner, owner, StandardBehaviour.InitialBalance);
    a := token.Approve(owner, burner, 100);
    beyondAllowance := token.BurnFrom(burner, owner, 101);
  }
}
