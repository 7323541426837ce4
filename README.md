# WholeEarthCoin token ledger in Dafny

This project models WholeEarthCoin (WEC), a fungible token. It is an EIP-20 (ERC-20 Token Standard) ledger with two extensions:

- burning, which destroys tokens and lowers the total supply;
- a pause switch held by the deploying account, which halts transfers and approvals.

The repository ships the token's test suites, not its Solidity contract. The revert reasons those tests expect come from OpenZeppelin's `ERC20`, `ERC20Burnable`, `ERC20Pausable` and `Pausable` with `PauserRole`. They show that approvals are behind the pause switch. That only happens in the 2.x line of that library, so where the tests say nothing the model follows those contracts: the order of the checks inside `_transfer`, `_approve`, `_burn` and `_burnFrom`, and the logs each call emits.

The ledger holds:

- the balance table;
- the allowance table (what a spender may still move out of an owner's balance);
- the total supply;
- the paused flag;
- the pauser.

Each mutating call either reverts with one error and changes nothing, or it updates the ledger and returns its logs in order.

Layout, one module per file:

- `Accounts` (accounts.dfy): account identifiers (`Zero` is address(0)), unbounded amounts, and the sum of a balance table with its update lemma.
- `Token` (token.dfy): the ledger state, errors, events, deployment (`Init`) and the ledger invariant `Inv`. `Inv` says the balances add up to the total supply, address(0) holds nothing, and no allowance names address(0).
- `Erc20` (erc20.dfy): transfer, approve, transferFrom, increaseAllowance and decreaseAllowance, without the pause switch. Each is a function from the ledger to the call's outcome.
- `Burnable` (burnable.dfy): burn and burnFrom.
- `Pausable` (pausable.dfy): pause, unpause, and the five operations behind the pause switch.
- `Transactions` (transactions.dfy): every mutating call as one datatype. It proves that the invariant holds on every ledger that any sequence of calls reaches from a deployment, and that nothing ever mints.
- `WholeEarthCoin` (ledger.dfy): the class `Ledger`. It holds the balance and allowance maps, the total supply and the paused flag as fields. Its methods update these fields in place. Each method is proved to do exactly what the matching function specifies (`Realizes`: on success the specified state and logs, on failure the specified error with every field unchanged) and to keep `Inv`.
- `StandardBehaviour`, `PausableBehaviour`, `BurnableBehaviour`: one module per test file. Each holds the general lemmas behind that file's tests and client methods that replay its scenarios on fresh `Ledger` objects.

Three choices follow the tests and the OpenZeppelin 2.x contracts they name, not the generic ERC-20 description:

- `transferFrom` checks the balance before the allowance (test/WECToken.test.js:266-275).
- `decreaseAllowance` checks the subtraction before the spender (test/WECToken.test.js:360-371).
- Burns are not behind the pause switch (see "Left out").

## Model

| member | source | states |
|---|---|---|
| `Token.Init` | test/WECToken.test.js:8-34 | A fresh ledger has total supply = minted supply and holder's balance = minted supply. Every other balance and every allowance is 0. It is not paused and the deployer is the pauser. |
| `Token.InitInv` | test/WECToken.test.js:13-34 | A deployment minting to a real account satisfies the invariant: balances sum to the total supply, address(0) holds nothing, no allowance names address(0). |
| `Token.NoZeroAllowance` | test/WECToken.test.js:171-181 | Under the invariant, every allowance granted by or to address(0) is 0. |
| `Erc20.Transfer` | test/WECToken.test.js:36-88 | Succeeds exactly when sender and recipient are non-zero and the amount is at most the sender's balance. A zero recipient gives TransferToZero; an amount over the balance gives TransferExceedsBalance. On success, amount moves from sender to recipient, every other balance and all allowances, supply and pause state are kept, and exactly one Transfer(caller, to, amount) is logged. Zero amounts are included. |
| `Erc20.Approve` | test/WECToken.test.js:90-182 | Succeeds for any non-zero spender from a non-zero caller, whatever the caller's balance; a zero spender gives ApproveToZero. On success, allowance(caller, spender) becomes exactly the amount (replacing any earlier value), nothing else changes, and exactly one Approval(caller, spender, amount) is logged. |
| `Erc20.TransferFrom` | test/WECToken.test.js:184-294 | Succeeds exactly when from, to and caller are non-zero and both balance and allowance(from, caller) cover the amount. Error precedence: TransferToZero, then TransferExceedsBalance (even when the allowance is also short), then TransferExceedsAllowance. On success, amount moves from `from` to `to`, allowance(from, caller) drops by amount, and Transfer then Approval(from, caller, remaining allowance) are logged. |
| `Erc20.IncreaseAllowance` | test/WECToken.test.js:374-456 | Succeeds for any non-zero spender from a non-zero caller, independent of balance; a zero spender gives ApproveToZero. On success the allowance becomes the previous allowance plus the amount (the amount when none was approved), and Approval with the new total is logged. |
| `Erc20.DecreaseAllowance` | test/WECToken.test.js:296-372 | Fails with DecreasedBelowZero exactly when the amount exceeds the current allowance, including with no prior approval and a zero spender. That check comes before the spender check. Otherwise the allowance becomes the difference (0 when all is removed), and Approval with the new value is logged. |
| `Erc20.TransferTokensPreservesInv` | test/WECToken.test.js:51-62 | A transfer keeps the sum of the balances equal to the total supply and never credits address(0). |
| `Erc20.SetAllowancePreservesInv` | test/WECToken.test.js:171-181 | Setting an allowance keeps the invariant: no allowance naming address(0) is ever recorded. |
| `Erc20.TransferFromPreservesInv` | test/WECToken.test.js:195-213 | transferFrom keeps the invariant. |
| `Burnable.Burn` | test/BurnableToken.test.js:13-52 | Burn succeeds exactly when the caller is non-zero and the amount is covered by the balance (and the supply). An amount over the balance gives BurnExceedsBalance, and one over the supply SubtractionOverflow. On success the caller's balance and the total supply both drop by the amount, and Transfer(caller, address(0), amount) is logged, amount 0 included. |
| `Burnable.BurnFrom` | test/BurnableToken.test.js:54-112 | Succeeds exactly when account and caller are non-zero and both balance and allowance(account, caller) cover the amount (and the supply). An amount over the balance gives BurnExceedsBalance, checked first; with the balance covered, an amount over the supply gives SubtractionOverflow, then one over the allowance BurnExceedsAllowance, then a zero caller ApproveToZero. On success the balance and the supply drop by amount, the allowance drops by amount, and Transfer(account, address(0), amount) then Approval are logged. |
| `Burnable.BurnTokensPreservesInv` | test/BurnableToken.test.js:13-31 | A burn keeps the balances summing to the total supply. |
| `Burnable.BurnFromPreservesInv` | test/BurnableToken.test.js:64-79 | burnFrom keeps the invariant. |
| `Burnable.BurnSucceedsWhenCovered` | test/BurnableToken.test.js:13-52 | On a ledger keeping the invariant, burn succeeds exactly when the caller is non-zero and holds the amount: the supply check never decides. |
| `Pausable.Pause` | test/PausableToken.test.js:13-21 | Succeeds exactly when the pauser calls it on a running ledger. It sets the flag, changes nothing else and logs Paused. A second pause reverts with Paused (chosen rule, see Left out). |
| `Pausable.Unpause` | test/PausableToken.test.js:23-27 | Succeeds exactly when the pauser calls it on a paused ledger. It clears the flag and changes nothing else. |
| `Pausable.Transfer` | test/PausableToken.test.js:30-55 | While paused, fails with Paused before any other check; otherwise has exactly the outcome of `Erc20.Transfer`. |
| `Pausable.TransferFrom` | test/PausableToken.test.js:57-88 | While paused, fails with Paused before any other check; otherwise `Erc20.TransferFrom`. |
| `Pausable.Approve` | test/PausableToken.test.js:90-114 | While paused, fails with Paused before any other check; otherwise `Erc20.Approve`. |
| `Pausable.IncreaseAllowance` | test/PausableToken.test.js:116-146 | While paused, fails with Paused before any other check; otherwise `Erc20.IncreaseAllowance`. |
| `Pausable.DecreaseAllowance` | test/PausableToken.test.js:148-178 | While paused, fails with Paused before any other check; otherwise `Erc20.DecreaseAllowance`. |
| `Transactions.ApplyPreservesInv` | test/WECToken.test.js:51-62 | Every mutating call, successful or reverted, leaves a ledger that keeps the invariant. |
| `Transactions.ApplyNeverMints` | test/BurnableToken.test.js:13-31 | No call raises the total supply. Only burn and burnFrom lower it, by exactly the amount burnt. |
| `Transactions.RunPreservesInv` | test/WECToken.test.js:8-11 | After any sequence of calls, a ledger that kept the invariant still keeps it. |
| `Transactions.RunNeverMints` | test/WECToken.test.js:13-18 | After any sequence of calls, the total supply is at most what it was. |
| `Transactions.Conservation` | test/WECToken.test.js:8-34 | On every ledger reachable from a deployment, the balances sum to the total supply, the supply is at most the minted amount, and address(0) holds nothing. |
| `WholeEarthCoin.Ledger.constructor` | test/WECToken.test.js:9-11 | Deploying `new(holder, supply)` builds the `Init` ledger, pauser = deployer, and establishes the invariant. |
| `WholeEarthCoin.Ledger.BalanceOf` | test/WECToken.test.js:20-34 | Returns the balance recorded for the account, 0 for an account never credited. |
| `WholeEarthCoin.Ledger.Allowance` | test/WECToken.test.js:109-128 | Returns the recorded allowance for (owner, spender), 0 when none was approved. |
| `WholeEarthCoin.Ledger.Transfer` | test/WECToken.test.js:36-88 | Updates the balance map in place exactly as `Pausable.Transfer` specifies. On error, every field is unchanged. It keeps the invariant. |
| `WholeEarthCoin.Ledger.Approve` | test/WECToken.test.js:90-182 | Updates the allowance map in place exactly as `Pausable.Approve` specifies; unchanged on error; keeps the invariant. |
| `WholeEarthCoin.Ledger.TransferFrom` | test/WECToken.test.js:184-294 | Updates both maps in place exactly as `Pausable.TransferFrom` specifies; unchanged on error; keeps the invariant. |
| `WholeEarthCoin.Ledger.IncreaseAllowance` | test/WECToken.test.js:374-456 | Updates the allowance map exactly as `Pausable.IncreaseAllowance` specifies; unchanged on error; keeps the invariant. |
| `WholeEarthCoin.Ledger.DecreaseAllowance` | test/WECToken.test.js:296-372 | Updates the allowance map exactly as `Pausable.DecreaseAllowance` specifies; unchanged on error; keeps the invariant. |
| `WholeEarthCoin.Ledger.Burn` | test/BurnableToken.test.js:13-52 | Updates the balance map and the supply exactly as `Burnable.Burn` specifies; unchanged on error; keeps the invariant. |
| `WholeEarthCoin.Ledger.BurnFrom` | test/BurnableToken.test.js:54-112 | Updates the balance map, supply and allowance map exactly as `Burnable.BurnFrom` specifies; unchanged on error; keeps the invariant. |
| `WholeEarthCoin.Ledger.Pause` | test/PausableToken.test.js:18-21 | Sets the paused field exactly as `Pausable.Pause` specifies; unchanged on error. |
| `WholeEarthCoin.Ledger.Unpause` | test/PausableToken.test.js:23-27 | Clears the paused field exactly as `Pausable.Unpause` specifies; unchanged on error. |
| `StandardBehaviour.TransferThenBack` | test/WECToken.test.js:51-62 | A transfer followed by the opposite transfer of the same amount succeeds and restores every balance and the rest of the ledger. |
| `StandardBehaviour.ApproveOverwrites` | test/WECToken.test.js:118-129 | Approving one amount then another gives the same ledger as approving only the second: approve replaces, it does not add. |
| `StandardBehaviour.TransferFromIsTransferAndApprove` | test/WECToken.test.js:195-233 | transferFrom succeeds exactly when the owner's own transfer would succeed, the allowance covers the amount and the caller is non-zero (so the approve of the remainder succeeds). Its ledger then has that transfer's balances and the allowances of approving the remaining allowance. |
| `StandardBehaviour.IncreaseIsApproveOfSum` | test/WECToken.test.js:399-409 | increaseAllowance equals approve of current allowance + amount, for every caller, spender and balance. |
| `StandardBehaviour.DecreaseIsApproveOfDifference` | test/WECToken.test.js:310-336 | Within the allowance, decreaseAllowance equals approve of current allowance - amount. |
| `StandardBehaviour.IncreaseThenDecrease` | test/WECToken.test.js:327-336 | Decreasing by the amount just added succeeds and restores every allowance and balance. |
| `StandardBehaviour.DecreaseForZeroSpender` | test/WECToken.test.js:360-371 | On a running ledger keeping the invariant, decreaseAllowance for address(0) reports DecreasedBelowZero for every positive amount and never succeeds. |
| `StandardBehaviour.FreshDeployment` | test/WECToken.test.js:13-34 | After deploying 10^27 to owner: total supply and owner's balance are 10^27, another account's is 0. |
| `StandardBehaviour.TransferScenario` | test/WECToken.test.js:36-75 | Transferring 10^27 + 1 reverts with TransferExceedsBalance. Transferring 10^27 then logs exactly Transfer(owner, recipient, 10^27) and leaves balances 0 and 10^27. |
| `StandardBehaviour.TransferFromShortScenario` | test/WECToken.test.js:248-276 | With 10^27 - 1 approved, transferFrom of 10^27 + 1 reports TransferExceedsBalance and of 10^27 reports TransferExceedsAllowance. |
| `StandardBehaviour.TransferFromScenario` | test/WECToken.test.js:195-234 | With the whole supply approved, transferFrom of it logs Transfer then Approval of 0, empties the owner, credits the recipient and uses up the allowance. |
| `PausableBehaviour.PauseThenUnpause` | test/PausableToken.test.js:18-27 | The pauser can pause a running ledger (flag set) and then unpause it, which gives back exactly the original ledger. |
| `PausableBehaviour.PausedRejects` | test/PausableToken.test.js:48-54 | While paused, each of transfer, transferFrom, approve, increaseAllowance and decreaseAllowance fails with Paused and changes nothing. |
| `PausableBehaviour.PauseUnpauseTransparent` | test/PausableToken.test.js:38-46 | After pause then unpause by the pauser, every call has exactly the outcome it has on the never-paused ledger. |
| `PausableBehaviour.PauseTwice` | test/PausableToken.test.js:18-21 | Pausing twice leaves the same ledger as pausing once (chosen rule, see Left out: the second pause reverts). |
| `PausableBehaviour.PausedFlagScenario` | test/PausableToken.test.js:13-28 | A fresh ledger is not paused. It is paused after pause(), and not paused after pause() then unpause(), both sent by the deployer. |
| `PausableBehaviour.TransferAcrossPauseScenario` | test/PausableToken.test.js:30-55 | transfer reverts with Paused while paused; after unpause the same transfer moves the whole supply. |
| `PausableBehaviour.TransferFromAllowanceScenario` | test/PausableToken.test.js:57-79 | After pause and unpause, transferFrom of the full allowance of 40 leaves the recipient 40 and the owner the supply - 40. |
| `PausableBehaviour.AllowanceAcrossPauseScenario` | test/PausableToken.test.js:116-178 | On an allowance of the supply: while paused, increase and decrease revert with Paused. After unpause, increaseAllowance(40) gives supply + 40, and on a second deployment decreaseAllowance(40) gives supply - 40. |
| `BurnableBehaviour.BurnWithinBalance` | test/BurnableToken.test.js:13-39 | On a ledger keeping the invariant, burning at most one's balance (0 included) succeeds. Balance and supply drop by exactly the amount, and one Transfer to address(0) is logged. |
| `BurnableBehaviour.BurnFromTripleAllowance` | test/BurnableToken.test.js:64-87 | With allowance 3 x amount and the balance covering it, burnFrom succeeds. It lowers the balance by amount, leaves 2 x amount allowed, and logs Transfer(account, address(0), amount) first. |
| `BurnableBehaviour.BurnFromBeyondAllowance` | test/BurnableToken.test.js:102-111 | On a ledger keeping the invariant, burnFrom with the balance covered but not the allowance reports BurnExceedsAllowance. |
| `BurnableBehaviour.BurnFromIsBurnAndCharge` | test/BurnableToken.test.js:64-79 | burnFrom succeeds exactly when the owner's own burn would and the allowance covers the amount (caller non-zero). It then has that burn's balances and supply, and the allowance lowered by the amount. |
| `BurnableBehaviour.BurnScenario` | test/BurnableToken.test.js:13-52 | On fresh deployments, burn(0) and burn(100) each log one Transfer to address(0) and lower the balance by the amount; burn(10^27 + 1) reverts with BurnExceedsBalance. |
| `BurnableBehaviour.BurnFromScenario` | test/BurnableToken.test.js:64-88 | With 300 approved, burnFrom(100) logs Transfer to address(0) then Approval of 200, leaves the balance 100 lower and 200 allowed. |
| `BurnableBehaviour.BurnFromFailureScenario` | test/BurnableToken.test.js:91-111 | burnFrom beyond the balance (allowance sufficient) reports BurnExceedsBalance; burnFrom(101) with 100 allowed reports BurnExceedsAllowance. |

## Left out

- Burns and the pause switch: burn and burnFrom are not behind the pause switch. The 2.x `ERC20Pausable` wraps only the five ERC20 functions transfer, transferFrom, approve, increaseAllowance and decreaseAllowance, and no test burns while paused. This is a chosen rule, not tested behaviour.
- Pause while paused reverts with `Paused`, and unpause while running reverts with `NotPaused`, as the library's `whenNotPaused`/`whenPaused` modifiers do. No test exercises either.
- Pauser role management (`addPauser`, `renouncePauser`, `isPauser`): not modelled. The deployer is the single, fixed pauser. A call from anyone else reverts with `NotPauser`, which no test exercises.
- The 2^256 bound of uint256: amounts are unbounded naturals. The checked additions (SafeMath `add`) in increaseAllowance and in crediting a recipient can therefore never overflow here. The checked subtraction of the total supply in `_burn` is kept as `SubtractionOverflow`, which the invariant makes unreachable.
- Calls sent from address(0) (`TransferFromZero`, `ApproveFromZero`, the `ApproveToZero` of a transferFrom or burnFrom by address(0)) are modelled as the library checks them, though no EVM transaction can be sent from address(0).
- EVM mechanics: `msg.sender` is the explicit `caller` parameter. Gas, log delivery and the boolean return value of transfer, approve and transferFrom are not modelled. Revert messages become `Error` constructors.
- The deployment's own log (the mint's Transfer from address(0)) is not returned: constructors return nothing. Minting to address(0), which reverts the deployment, is excluded by the constructor's precondition.
- `WholeEarthCoin.Ledger.constructor`: only the deployment the suites perform is modelled. There is no `mint` operation, since the token exposes none.
- Metadata (name "WholeEarthCoin", symbol "WEC", 18 decimals; test/DetailedToken.test.js) are constant fields of `Ledger`. No property is stated about them.
- Concurrency and transaction ordering: calls are applied one at a time, as the sequencer of the chain does.
