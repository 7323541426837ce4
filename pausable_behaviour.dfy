/**
 * What the pause test suite of the token (test/PausableToken.test.js)
 * pins down, stated for every ledger, with scenarios that drive fresh Ledger
 * objects through the suite's sequences of calls.
 */
module PausableBehaviour {
  import opened Accounts
  import opened Token
  import Pausable
  import opened Transactions
  import opened WholeEarthCoin
  import StandardBehaviour

  /** The pauser can pause a running ledger and unpause it again; pausing
      changes nothing but the flag, and unpausing restores the very ledger
      that was paused. */
  lemma PauseThenUnpause(s: State)
    requires !s.paused
    ensures Pausable.Pause(s, s.pauser).Ok? && Pausable.Pause(s, s.pauser).value.post.paused
    ensures var t := Pausable.Pause(s, s.pauser).value.post;
            Pausable.Unpause(t, s.pauser) == Ok(Effect(s, [Event.Unpaused(s.pauser)]))
  {
  }

  /** While paused, each of the five gated calls reverts with Paused and
      leaves the ledger as it was. */
  lemma PausedRejects(s: State, c: Call)
    requires s.paused && c.Gated()
    ensures Apply(s, c) == Err(Error.Paused) && Next(s, c) == s
  {
  }

  /** After pause then unpause by the pauser, every call has exactly the
      outcome it has on the ledger that was never paused. */
  lemma PauseUnpauseTransparent(s: State, c: Call)
    requires !s.paused
    ensures Apply(Next(Next(s, Pause(s.pauser)), Unpause(s.pauser)), c) == Apply(s, c)
  {
  }

  /** Pausing twice leaves the same ledger as pausing once: the second
      `pause()` reverts with Paused. */
  lemma PauseTwice(s: State, caller: Addr)
    ensures Next(Next(s, Pause(caller)), Pause(caller)) == Next(s, Pause(caller))
  {
  }

  /** A fresh ledger is not paused; it is paused after `pause()`, and not
      paused after `pause()` then `unpause()`, both sent by the deployer. */
  method PausedFlagScenario(deployer: Addr, owner: Addr)
    returns (initially: bool, afterPause: bool, afterUnpause: bool)
    requires owner != Zero
    ensures !initially && afterPause && !afterUnpause
  {
    var token := new Ledger(deployer, owner, StandardBehaviour.InitialBalance);
    initially := token.paused;
    var p := token.Pause(deployer);
    afterPause := token.paused;
    var u := token.Unpause(deployer);
    afterUnpause := token.paused;
  }

  /** A transfer reverts with Paused while paused, and once unpaused the
      same transfer moves the whole supply. */
  method TransferAcrossPauseScenario(deployer: Addr, owner: Addr, recipient: Addr)
    returns (whilePaused: Result<seq<Event>>, ownerBalance: Amount, recipientBalance: Amount)
    requires owner != Zero && recipient != Zero && owner != recipient
    ensures whilePaused == Err(Error.Paused)
    ensures ownerBalance == 0 && recipientBalance == StandardBehaviour.InitialBalance
  {
    var token := new Ledger(deployer, owner, StandardBehaviour.InitialBalance);
    var p := token.Pause(deployer);
    whilePaused := token.Transfer(owner, recipient, StandardBehaviour.InitialBalance);
    var u := token.Unpause(deployer);
    var r := token.Transfer(owner, recipient, StandardBehaviour.InitialBalance);
    ownerBalance := token.BalanceOf(owner);
    recipientBalance := token.BalanceOf(recipient);
  }

  /** After pause and unpause, a spender allowed 40 moves all 40: the
      recipient holds 40 and the owner the supply less 40. */
  method TransferFromAllowanceScenario(deployer: Addr, owner: Addr, recipient: Addr, anotherAccount: Addr)
    returns (recipientBalance: Amount, ownerBalance: Amount)
    requires owner != Zero && recipient != Zero && anotherAccount != Zero && owner != recipient
    ensures recipientBalance == 40 && ownerBalance == StandardBehaviour.InitialBalance - 40
  {
    var token := new Ledger(deployer, owner, StandardBehaviour.InitialBalance);
    var a := token.Approve(owner, anotherAccount, 40);
    var p := token.Pause(deployer);
    var u := token.Unpause(deployer);
    var r := token.TransferFrom(anotherAccount, owner, recipient, 40);
    recipientBalance := token.BalanceOf(recipient);
    ownerBalance := token.BalanceOf(owner);
  }

  /** On an allowance of the whole supply, after pause and unpause,
      increasing it by 40 gives the supply plus 40 and, on a second
      deployment, decreasing it by 40 gives the supply less 40; while
      paused, both revert. */
  method AllowanceAcrossPauseScenario(deployer: Addr, owner: Addr, anotherAccount: Addr)
    returns (increasedWhilePaused: Result<seq<Event>>, decreasedWhilePaused: Result<seq<Event>>,
             increased: Amount, decreased: Amount)
    requires owner != Zero && anotherAccount != Zero
    ensures increasedWhilePaused == Err(Error.Paused) && decreasedWhilePaused == Err(Error.Paused)
    ensures increased == StandardBehaviour.InitialBalance + 40
    ensures decreased == StandardBehaviour.InitialBalance - 40
  {
    var token := new Ledger(deployer, owner, StandardBehaviour.InitialBalance);
    var a := token.Approve(owner, anotherAccount, StandardBehaviour.InitialBalance);
    var p := token.Pause(deployer);
    increasedWhilePaused := token.IncreaseAllowance(owner, anotherAccount, 40);
    decreasedWhilePaused := token.DecreaseAllowance(owner, anotherAccount, 40);
    var u := token.Unpause(deployer);
    var i := token.IncreaseAllowance(owner, anotherAccount, 40);
    increased := token.Allowance(owner, anotherAccount);

    var other := new Ledger(deployer, owner, StandardBehaviour.InitialBalance);
    a := other.Approve(owner, anotherAccount, StandardBehaviour.InitialBalance);
    p := other.Pause(deployer);
    u := other.Unpause(deployer);
    var d := other.DecreaseAllowance(owner, anotherAccount, 40);
    decreased := other.Allowance(owner, anotherAccount);
  }
}
