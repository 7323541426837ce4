/**
 * The state of the WholeEarthCoin ledger, the errors a call can revert
 * with, the events a successful call logs, and the invariant every
 * reachable state keeps.
 */
module Token {
  import opened Accounts

  /** One constructor per revert reason. */
  datatype Error =
    | TransferFromZero          // "ERC20: transfer from the zero address"
    | TransferToZero            // "ERC20: transfer to the zero address"
    | TransferExceedsBalance    // "ERC20: transfer amount exceeds balance"
    | TransferExceedsAllowance  // "ERC20: transfer amount exceeds allowance"
    | ApproveFromZero           // "ERC20: approve from the zero address"
    | ApproveToZero             // "ERC20: approve to the zero address"
    | DecreasedBelowZero        // "ERC20: decreased allowance below zero"
    | BurnFromZero              // "ERC20: burn from the zero address"
    | BurnExceedsBalance        // "ERC20: burn amount exceeds balance"
    | BurnExceedsAllowance      // "ERC20: burn amount exceeds allowance"
    | SubtractionOverflow       // "SafeMath: subtraction overflow" (total supply below a burn)
    | Paused                    // "Pausable: paused"
    | NotPaused                 // "Pausable: not paused"
    | NotPauser                 // "PauserRole: caller does not have the Pauser role"

  /** The logs of EIP-20 ("Transfer", "Approval") and of the pause switch. */
  datatype Event =
    | Transfer(from: Addr, to: Addr, value: Amount)
    | Approval(owner: Addr, spender: Addr, value: Amount)
    | Paused(account: Addr)
    | Unpaused(account: Addr)

  /** The outcome of a call: a value, or the error it reverted with. */
  datatype Result<T> = Ok(value: T) | Err(error: Error) {
    predicate IsFailure() {
      Err?
    }

    function PropagateFailure<U>(): Result<U>
      requires Err?
    {
      Err(error)
    }

    function Extract(): T
      requires Ok?
    {
      value
    }
  }

  /** Everything a call can read or change. */
  datatype State = State(
    balances: map<Addr, Amount>,
    allowances: map<(Addr, Addr), Amount>,
    totalSupply: Amount,
    paused: bool,
    pauser: Addr)

  /** What a successful call leaves behind: the new state and its logs, in order. */
  datatype Effect = Effect(post: State, events: seq<Event>)

  /** `balanceOf(account)`. */
  function BalanceOf(s: State, account: Addr): Amount
  {
    Get(s.balances, account)
  }

  /** `allowance(owner, spender)`: what spender may still move out of owner's balance. */
  function Allowance(s: State, owner: Addr, spender: Addr): Amount
  {
    Get(s.allowances, (owner, spender))
  }

  /** The ledger that deployment by `deployer` of `new(holder, supply)` leaves. */
  function Init(deployer: Addr, holder: Addr, supply: Amount): (s: State)
    ensures s.totalSupply == supply && BalanceOf(s, holder) == supply
    ensures forall a :: a != holder ==> BalanceOf(s, a) == 0
    ensures forall owner, spender :: Allowance(s, owner, spender) == 0
    ensures !s.paused && s.pauser == deployer
  {
    State(map[holder := supply], map[], supply, false, deployer)
  }

  /** The ledger invariant: the balances add up to the total supply, the
      null identifier holds nothing, and no allowance names it. */
  ghost predicate Inv(s: State)
  {
    && Sum(s.balances) == s.totalSupply
    && BalanceOf(s, Zero) == 0
    && forall k :: k in s.allowances ==> k.0 != Zero && k.1 != Zero
  }

  /** A fresh ledger satisfies the invariant, provided the supply was minted
      to a real account (minting to address(0) reverts the deployment). */
  lemma InitInv(deployer: Addr, holder: Addr, supply: Amount)
    requires holder != Zero
    ensures Inv(Init(deployer, holder, supply))
  {
    SumUpdate(map[], holder, supply);
  }

  /** Under the invariant no account holds more than the total supply. */
  lemma BalanceAtMostSupply(s: State, account: Addr)
    requires Inv(s)
    ensures BalanceOf(s, account) <= s.totalSupply
  {
    GetAtMostSum(s.balances, account);
  }

  /** Under the invariant every allowance to or from the null identifier is 0. */
  lemma NoZeroAllowance(s: State, owner: Addr, spender: Addr)
    requires Inv(s) && (owner == Zero || spender == Zero)
    ensures Allowance(s, owner, spender) == 0
  {
  }

  /** In t, `amount` has moved from `from` to `to`; every other balance is as in s. */
  ghost predicate BalancesMoved(s: State, t: State, from: Addr, to: Addr, amount: Amount)
  {
    forall a :: BalanceOf(t, a) ==
      BalanceOf(s, a) - (if a == from then amount else 0) + (if a == to then amount else 0)
  }

  /** In t, `amount` has left `account`; every other balance is as in s. */
  ghost predicate BalancesBurned(s: State, t: State, account: Addr, amount: Amount)
  {
    forall a :: BalanceOf(t, a) == BalanceOf(s, a) - (if a == account then amount else 0)
  }

  /** In t, the allowance of (owner, spender) is `value`; every other allowance is as in s. */
  ghost predicate AllowanceSet(s: State, t: State, owner: Addr, spender: Addr, value: Amount)
  {
    forall o, sp :: Allowance(t, o, sp) == if o == owner && sp == spender then value else Allowance(s, o, sp)
  }

  /** t has the total supply, pause flag and pauser of s. */
  ghost predicate SupplyAndPauseKept(s: State, t: State)
  {
    t.totalSupply == s.totalSupply && t.paused == s.paused && t.pauser == s.pauser
  }

  /** A call that returned r and went from `before` to `after` did what `spec`
      says: on success it left the specified state and returned the specified
      logs; on failure it reported the specified error and changed nothing. */
  ghost predicate Realizes(spec: Result<Effect>, r: Result<seq<Event>>, before: State, after: State)
  {
    match spec
    case Ok(e) => r == Ok(e.events) && after == e.post
    case Err(err) => r == Err(err) && after == before
  }
}
