# PROTON token sale and multi-signature wallet, modelled in Dafny

This project models three parts of the PROTON repository:

- **The call-data encoder** (`Encoding`, encoding.dfy). It builds wallet transactions. The function selector is the first 10 characters (`0x` and 4 bytes) of the Keccak-256 hash of the signature, after every space is removed. Each argument's hex digits follow, left-padded with `'0'` to a multiple of 64 characters. Keccak-256 (`web3.sha3`) and the number-to-hex conversion (`web3.toHex`) are library calls. They enter as function parameters `sha3` and `toHex`, and nothing is assumed about them.
- **The multi-signature custody wallet** (`MultiSig`, wallet.dfy). It holds an ordered owner list, a required confirmation count, and a log of transactions, each with a confirmation set and an executed flag. Submitting counts as the submitter's confirmation. A transaction runs in the call that first brings its confirmations up to the current requirement. It is marked executed whether it succeeds (Execution) or fails (ExecutionFailure). Only a confirmation of a transaction that has not run can be revoked. `addOwner`, `removeOwner` and `changeRequirement` are transactions the wallet sends to itself. `finalize` is one it sends to the token sale. The call data is a tagged variant (`Call`).
- **The token sale** (`Token`, token.dfy). Construction mints 5·5500·10^18 tokens to the owner. A contribution of v wei inside the inclusive block window [start, end] mints 5500·v tokens to the sender. `finalize` may be called only by the wallet, only after the window, and only once the funding goal is met. It then sweeps the held wei to the wallet. Otherwise it reverts. When the window has passed and the goal was missed, each contributor can take their wei back once. This also clears their tokens.

The contract sources (`MultiSigWallet.sol`, `ProtonToken.sol`) are not part of this model. The two contracts are modelled from what test/MultiSigWallet.js and test/ProtonToken.js assert. Where the tests leave a rule open, the model picks one; each such choice is listed under "## Left out". Block heights are explicit parameters. The token requires that they never decrease (ghost `lastBlock`). Ether is integer wei, and tokens are integer base units. The minimum funding goal is a constructor parameter, because the tests only bound it: 0.5 ether fails and 1 ether succeeds. The scenarios that replay those tests carry these bounds as preconditions.

`Scenarios` (scenarios.dfy) replays each test as client code on fresh objects. Each replay returns what the test reads back, and its postcondition is what the test asserts.

Invariants kept by every method (`Valid()`):
- Wallet: the owners are distinct, 1 ≤ required ≤ number of owners, and there is one confirmation set per transaction.
- Token: `totalSupply == Sum(balances) + refundedTokens`, so issuance is conserved. `raised == held + paidOut`, so wei is conserved. Before finalization the held wei is the sum of the open contributions. After it, nothing is held, the goal was met and the window has passed.

Rules the tests leave open, with the choice the model makes:
- A refund could also lower `totalSupply`. No test reads the supply after a refund, so the model leaves it unchanged and records the cleared tokens in the ghost `refundedTokens`.
- A refund could also require a finalize that failed first. The model requires only that the window has passed and the goal was missed. In ProtonToken.js:164-182 and 217 the wallet's `finalize` ends in ExecutionFailure (it reverts), and the refund succeeds right after; no finalize ever succeeded.
- One could expect "fewer confirmations than required implies not executed" to be an invariant. It is not: in MultiSigWallet.js:104-140, transaction 0 runs with 2 confirmations, and then the requirement becomes 3. `Scenarios.AllowsChangeOfRequirements` shows the executed transaction with 2 of 3.

## Model

| member | source | states |
|---|---|---|
| `Encoding.StripSpaces` | test/helpers/utils.js:3-4 | the stripped signature contains no space and is no longer than the input |
| `Encoding.StripSpacesConcat` | test/helpers/utils.js:4 | stripping a concatenation is the concatenation of the stripped parts |
| `Encoding.StripSpacesNoSpaces` | test/helpers/utils.js:4 | a signature without spaces is left unchanged (stripping is idempotent) |
| `Encoding.Selector` | test/helpers/utils.js:2-6 | the selector is a prefix of the hash of the space-free signature, at most 10 characters, and exactly 10 when the hash has at least 10 |
| `Encoding.SelectorIgnoresSpaces` | test/helpers/utils.js:4-5 | inserting a space anywhere in a signature leaves its selector unchanged |
| `Encoding.SelectorIsFourBytes` | test/helpers/utils.js:5 | on a well-formed hash ("0x" and 64 hex digits) the selector is "0x" and 8 hex digits |
| `Encoding.PaddedIsMinimalZeroPadding` | test/helpers/utils.js:13-15 | a padded argument's length is the least multiple of 64 that holds the digits, fewer than 64 characters are added, all of them '0', the original digits come last, and already aligned input (also empty) is unchanged |
| `Encoding.PadArgument` | test/helpers/utils.js:12-15 | the prepend-'0' loop ends with exactly the reference padding of the argument's digits |
| `Encoding.EncodedArgsConcat` | test/helpers/utils.js:11-17 | the argument section of a split argument list is the two sections one after the other (argument order is kept) |
| `Encoding.EncodedArgsLength` | test/helpers/utils.js:11-17 | the argument section is as long as the padded arguments together, a multiple of 64 |
| `Encoding.WordsLength` | test/helpers/utils.js:11-17 | with 1 to 64 hex digits per argument the section is 64 characters per argument |
| `Encoding.EncodedArgsWords` | test/helpers/utils.js:11-17 | with 1 to 64 hex digits per argument, argument i occupies exactly characters 64i to 64i+64 (one 32-byte ABI word) |
| `Encoding.FunctionEncoding` | test/helpers/utils.js:8-19 | the encoding is the selector followed by the padded arguments in order; with no arguments it is the selector; its length is the selector's (10 for a hash of 10 or more characters) plus the padded lengths |
| `Token.SumUpdate` | test/ProtonToken.js:82-83 | setting one ledger entry changes the ledger total by exactly the difference (the step behind supply conservation) |
| `Token.ProtonToken.constructor` | test/ProtonToken.js:41-52 | the owner holds the premint 5·5500·10^18, the supply equals it, every other balance is 0, and nothing is raised or held |
| `Token.ProtonToken.BalanceOf` | test/ProtonToken.js:45-51 | balanceOf: the tokens credited to an account, 0 for an account never credited, and never more than the total supply |
| `Token.ProtonToken.Contribute` | test/ProtonToken.js:75-87 | inside [start, end] the sender gains 5500·v tokens, the supply grows by 5500·v, and held, raised and the sender's contribution grow by v; outside the window it fails and nothing changes |
| `Token.ProtonToken.Finalize` | test/ProtonToken.js:100-112 | it succeeds exactly when the caller is the wallet, the sale is not finalized, the window has passed and the goal is met; it then returns the whole held balance, leaves 0 held and leaves token balances and supply unchanged; otherwise it fails with Unauthorized, AlreadyFinalized, SaleNotOver or GoalNotReached and nothing changes |
| `Token.ProtonToken.Refund` | test/ProtonToken.js:204-240 | it succeeds exactly for a contributor with an open contribution after a missed goal and a passed window; it returns that contribution, zeroes it and the contributor's tokens, and lowers held by it; otherwise it fails with nothing changed, so a second refund fails |
| `MultiSig.Without` | test/MultiSigWallet.js:35-36 | the list without an owner holds exactly the other owners |
| `MultiSig.WithoutAt` | test/MultiSigWallet.js:27-36 | removing the owner at position i closes the gap and keeps the others in order |
| `MultiSig.WithoutAbsent` | test/MultiSigWallet.js:35-36 | removing an absent owner leaves the list unchanged |
| `MultiSig.AddThenRemove` | test/MultiSigWallet.js:16-36 | appending a new owner and removing it again gives back the original list |
| `MultiSig.SelfCall` | test/MultiSigWallet.js:16-36 | addOwner succeeds exactly for a non-owner and adds exactly it; removeOwner succeeds exactly for an owner when the requirement stays below the owner count and removes exactly it; both keep the requirement; changeRequirement(n) (MultiSigWallet.js:104-120) succeeds exactly for 1 ≤ n ≤ owners and keeps the owners; finalize is not a self-call |
| `MultiSig.WithoutDistinct` | test/MultiSigWallet.js:27-36 | removing an owner from a list without duplicates leaves a list without duplicates, one shorter |
| `MultiSig.SelfCallKeepsValid` | test/MultiSigWallet.js:104-120 | every successful addOwner, removeOwner or changeRequirement keeps the owners distinct and 1 ≤ required ≤ owners |
| `MultiSig.OwnerChangesKeepOrder` | test/MultiSigWallet.js:16-36 | addOwner of a new account appends it at the end and fails for an existing owner; removeOwner of the owner at position i keeps the others in order, and fails when it would leave fewer owners than required |
| `MultiSig.AddOwnerThenRemoveOwner` | test/MultiSigWallet.js:16-36 | addOwner followed by removeOwner of the same account restores the configuration |
| `MultiSig.MatchingIsFilter` | test/MultiSigWallet.js:66-71 | the listed ids are exactly the pending (or executed) transaction ids, each once, ascending |
| `MultiSig.MatchingSingle` | test/MultiSigWallet.js:66-71 | a log holding one transaction lists id 0 exactly when the filter selects it, and nothing otherwise |
| `MultiSig.MultiSigWallet.constructor` | test/MultiSigWallet.js:10-14 | the wallet keeps the given owner list in its given order, with the given requirement |
| `MultiSig.MultiSigWallet.Execute` | test/MultiSigWallet.js:17-22 | the transaction is marked executed whatever its outcome; a self-call changes owners or requirement or fails; a finalize sent to the token sweeps the token's wei into the wallet or fails and changes nothing |
| `MultiSig.MultiSigWallet.Submit` | test/MultiSigWallet.js:44-57 | a new transaction with exactly one confirmation, the submitter's; it runs in the same call exactly when one confirmation meets the requirement |
| `MultiSig.MultiSigWallet.Confirm` | test/MultiSigWallet.js:73-99 | it adds the sender's confirmation; the transaction runs in this call exactly when the count reaches the current requirement; it fails with nothing changed for an unknown, executed or already confirmed transaction |
| `MultiSig.MultiSigWallet.Revoke` | test/MultiSigWallet.js:59-71 | it removes the sender's confirmation without running anything; it fails with nothing changed for an unknown or executed transaction, or when the sender had not confirmed |
| `MultiSig.MultiSigWallet.GetConfirmations` | test/MultiSigWallet.js:53-63 | getConfirmations: the owners that confirmed transaction id, none for an unknown id |
| `MultiSig.MultiSigWallet.GetConfirmationCount` | test/MultiSigWallet.js:54-57 | getConfirmationCount: 0 exactly when nobody confirmed, and 0 for an unknown id |
| `MultiSig.MultiSigWallet.IsConfirmed` | test/MultiSigWallet.js:80-99 | isConfirmed: true exactly when the confirmations reach the current requirement, whether or not the transaction has run; never for an unconfirmed or unknown transaction |
| `MultiSig.MultiSigWallet.GetTransactionCount` | test/MultiSigWallet.js:66-67 | the loop counts exactly the selected transactions |
| `MultiSig.MultiSigWallet.GetTransactionIds` | test/MultiSigWallet.js:69-71 | the loop returns positions from..to of the selected ids, and fails when the range exceeds them |
| `Scenarios.AllowsOwnershipChanges` | test/MultiSigWallet.js:9-37 | with requirement 1, addOwner runs on submit and the owners become accounts 0..4; removeOwner runs on submit and the owners are accounts 0..3 again |
| `Scenarios.SubmitAndRevoke` | test/MultiSigWallet.js:44-71 | after submit there is 1 confirmation; after revoking it there are 0; the transaction is the one pending transaction, id list [0] |
| `Scenarios.ConfirmTwice` | test/MultiSigWallet.js:73-99 | with two required and no confirmation left, the first confirmation leaves the transaction pending at 1 confirmation with isConfirmed false; the second runs it and applies the self-call |
| `Scenarios.RequiresMultipleConfirmations` | test/MultiSigWallet.js:39-102 | at 1 of 2 confirmations nothing runs and isConfirmed is false; the second confirmation runs addOwner; then the count is 2, one transaction is executed, isConfirmed is true, and revoking fails |
| `Scenarios.RaiseRequirement` | test/MultiSigWallet.js:104-120 | changeRequirement(3) is pending after submit and runs on the second confirmation; the owners stay and the requirement becomes 3 |
| `Scenarios.AllowsChangeOfRequirements` | test/MultiSigWallet.js:104-142 | changeRequirement(3) runs on the second confirmation; the next transaction stays pending at 2 confirmations and runs at the third |
| `Scenarios.BeforeCrowdsale` | test/ProtonToken.js:10-53 | before the start block contributing, refunding and a finalize by a non-wallet fail; the supply and the owner's balance are the premint, other balances 0 |
| `Scenarios.FinalizeThroughWallet` | test/ProtonToken.js:89-104 | a finalize transaction proposed by one owner and confirmed by a second runs on the confirmation, and its outcome is the token's finalize outcome |
| `Scenarios.FinalizeSuccessful` | test/ProtonToken.js:73-113 | with a goal of at most 1 ether, 1 ether mints 5500·10^18 tokens (supply 6·5500·10^18), and the wallet's finalize runs (Execution), leaving the token 0 wei and the wallet 1 ether |
| `Scenarios.FinalizeFailed` | test/ProtonToken.js:115-154 | with a goal above 0.5 ether, the wallet's finalize ends in ExecutionFailure; the token keeps 0.5 ether, the wallet gets nothing, the supply is unchanged |
| `Scenarios.FailedSale` | test/ProtonToken.js:164-182 | after the failed finalize the sale is not finalized and the token holds the single 0.5 ether contribution and its tokens |
| `Scenarios.AfterFailedCrowdsale` | test/ProtonToken.js:157-245 | the supply is 5.5·5500·10^18; contributing fails; the refund returns 0.5 ether, leaves the token 0 wei, the wallet 0 and the contributor 0 tokens; a second refund, a non-contributor's refund and a non-wallet finalize fail |
| `Scenarios.SuccessfulSale` | test/ProtonToken.js:253-274 | after contributions of 1 and 2 ether and the wallet's finalize, the sale is finalized, the wallet holds 3 ether and the balances are the premint and 1 and 2 ·5500·10^18 tokens |
| `Scenarios.AfterSuccessfulCrowdsale` | test/ProtonToken.js:247-306 | after 1 and 2 ether and the sweep, the supply is 8·5500·10^18 with balances 5, 1 and 2 ·5500·10^18; the wallet holds 3 ether; contributing, refunding and a non-wallet finalize fail |

## Left out

- Keccak-256 (`web3.sha3`) and `web3.toHex` are foreign library calls. They are the parameters `sha3` and `toHex`. Nothing about hex-digit validity or sign handling is assumed. The padding always uses `'0'`, so a negative value is not sign-extended, exactly as the encoder does.
- The encoder pads to a multiple of 64 characters, not to exactly 64. An argument of more than 64 hex digits takes several words (`Encoding.PaddedIsMinimalZeroPadding`). The contract ABI's exact one-word layout is stated only for arguments of 1 to 64 digits (`Encoding.EncodedArgsWords`).
- `mineOneBlock` and `mineToBlockHeight` (test/helpers/utils.js:21-33) are JSON-RPC I/O against a node. Block height is a parameter instead.
- Deployment (migrations/2_deploy_contracts.js) is not modelled.
- Event logs are not modelled. Only the Execution / ExecutionFailure outcome of running a transaction is kept, as the `Status` result. Gas and the floating-point `toNumber`/`fromWei` conversions are not modelled either: amounts are integers.
- uint256 bounds and the revert on overflow (the contracts use SafeMath) are not modelled. Amounts are unbounded, so `Token.ProtonToken.Contribute` never fails for a huge value, and neither `totalSupply + RATE * value`, `raised + value` nor the wallet's `balance` plus the swept wei can overflow. Every tested amount is far below 2^256.
- A transaction stays executed after ExecutionFailure. No test reads the flag after a failed run, so this is a choice the tests leave open.
- `MultiSig.MultiSigWallet.Confirm` fails with UnknownTransaction or AlreadyConfirmed, and `MultiSig.MultiSigWallet.Revoke` fails with UnknownTransaction or NotConfirmed. These are choices the tests leave open. The only failing wallet call in the tests is the revoke at MultiSigWallet.js:101, on an executed transaction; the model answers AlreadyExecuted because that check comes first.
- A second finalize by the wallet fails with AlreadyFinalized. No test makes that call.
- Removing an owner at an inner position keeps the others in order (`MultiSig.WithoutAt`, `MultiSig.OwnerChangesKeepOrder`). The tests only remove the last owner (MultiSigWallet.js:27, 35-36), so this order is a choice the tests leave open.
- Owner-only checks on submit, confirm and revoke are not modelled, because no test exercises them. Any account's confirmation counts.
- The validation of self-calls is not exercised by the tests. The model uses the checks that keep the configuration valid: addOwner of an existing owner, removeOwner of a non-owner or below the requirement, and changeRequirement outside [1, owners] fail. The wallet constructor requires a valid configuration instead of modelling a reverted deployment.
- A transaction's `value` is recorded but moves no wei. Every test submits 0 wei.
- A call the wallet makes to an address other than itself and the token runs with no effect in the model. Any other call to the wallet or the token than the ones listed (for example finalize sent to the wallet) ends in ExecutionFailure.
- The public `executeTransaction` entry point, `replaceOwner` and the order of `getConfirmations` are not asserted by any test and are not modelled. Confirmations are a set, and their count is its size.
- `getTransactionIds(from, to, …)` is modelled as positions from up to to of the matching ids, failing outside that range. The tests only call it with (0, 1).
- The token constructor does not check that start < end, because no test relies on it. A contribution of 0 wei is accepted.
- Re-entrant calls into `finalize` during the sweep are not modelled: every call is one atomic step. The finalized flag is still set before the balance is moved.
- test/MultiSigWallet.js:144-179 expects ExecutionFailure after 1 ether is raised, while test/ProtonToken.js:73-113 expects Execution for the same setup. The two tests contradict each other. Neither outcome is stated as a property. With the goal as a parameter, the model gives Execution for any goal up to 1 ether.
