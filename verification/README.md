# DeFi dashboard — a Dafny model of its session, contract client, forms and views

The dashboard is a React front end over two smart contracts: a bank (deposit, withdraw, transfer,
balances, transaction history, top holders) and a governance contract (proposals and votes). This
project models the logic that sits between the wallet and the screen:

- the session hook (`hooks/useBlockchain.ts`). It keeps the connected account, the loaded lists,
  the balance-history window, the ids this session has voted on and the last error. It connects and
  disconnects the wallet, follows account switches, runs deposits, withdrawals and transfers, votes,
  creates proposals and loads proposals. Module `Session`, class `Session.Session`.
- the `PIP-NNN` proposal labels and their decoding (module `ProposalLabels`).
- the contract client (`services/web3Service.ts`). It is a singleton whose nullable provider, signer,
  address and contract fields are filled in by `initialize`. It has a guard on every call, the 20%
  gas buffer, address resolution (manifest, then environment, then defaults), the chain table and the
  switch-network rule. Module `Web3`, classes `Web3.ServiceModule` and `Web3.Web3Service`.
- the two forms, `TransactionModal` and `CreateProposalModal`. Each has ordered checks where the
  first failure wins, and field resets. Modules `TransactionForm` and `ProposalForm`.
- the analytics page (`Transactions.tsx`, module `AnalyticsView`) and the governance page
  (`Governance.tsx`, module `GovernanceView`).

The JavaScript built-ins the logic relies on are written out in `JsText`:

- `trim`, `slice`, `startsWith`, `includes`, `padStart`
- `toString(radix)`, `parseInt`, `split('-')[1]`

`Types` holds the records of `types.ts`. `Outcomes` holds Option, Result and the thrown-error record.

Wallet, provider and contract round trips are inputs to the operations. These inputs are:

- the outcome of an access request, the signer, the imported manifest
- a gas estimate, a send outcome, a receipt status
- the result of each balance read, a value or the error it threw
- the result of each list read, with `None` where the read threw

An operation that would send something returns what it sends. So "refused before any call" is
stated as an empty request. Amounts and balances are exact reals. Wei becomes ether by exact
division by 10^18.

## Model

| member | source | states |
|---|---|---|
| JsText.BlankIffAllWhitespace | components/CreateProposalModal.tsx:17-24 | `!s.trim()` holds exactly when every character of s is ECMAScript whitespace |
| JsText.PadStart | hooks/useBlockchain.ts:36 | padding gives length max(width, \|s\|): fill characters and then s itself, never truncated |
| JsText.TakeLast | hooks/useBlockchain.ts:258 | `slice(-n)` is the last min(n, \|s\|) elements of s |
| JsText.Take | components/Transactions.tsx:40 | `slice(0, n)` is the first min(n, \|s\|) elements of s |
| JsText.ToRadix | hooks/useBlockchain.ts:66 | `toString(radix)` is non-empty, made of the radix's lowercase digits, with no leading zero |
| JsText.RadixRoundTrip | hooks/useBlockchain.ts:66 | reading the digits of `toString(radix)` back gives the number |
| JsText.LeadingZeros | hooks/useBlockchain.ts:36 | zeros put in front of a numeral do not change its value |
| JsText.SplitSecond | hooks/useBlockchain.ts:288 | `split(sep)[1]` is undefined exactly when sep does not occur; otherwise it is the text that starts right after the first sep and runs to the next sep or to the end |
| JsText.ParseDecimal | hooks/useBlockchain.ts:288 | `parseInt` of a non-empty decimal numeral, zero-padded or not, is its value |
| JsText.HexLiteral | services/web3Service.ts:369 | `` `0x${n.toString(16)}` `` starts with `0x` and is followed only by hex digits |
| JsText.HexLiteralRoundTrip | hooks/useBlockchain.ts:66 | `parseInt` reads a rendered `0x` literal back as its number |
| JsText.TrimStart | components/CreateProposalModal.tsx:17-24 | `trimStart` drops exactly the leading whitespace: what is left is a suffix not starting with whitespace |
| JsText.TrimEnd | components/CreateProposalModal.tsx:17-24 | `trimEnd` drops exactly the trailing whitespace: what is left is a prefix not ending with whitespace |
| JsText.Trim | components/CreateProposalModal.tsx:17-24 | a trimmed non-empty string neither starts nor ends with whitespace |
| JsText.IndexOf | hooks/useBlockchain.ts:288 | the position of the first occurrence of c, and -1 exactly when c does not occur |
| JsText.ContainsAt | components/Transactions.tsx:18-19 | `includes` holds when the needle occurs at some position |
| JsText.DigitPrefix | hooks/useBlockchain.ts:288 | the longest run of digits in front: all digits, a prefix, and the whole string when it is all digits |
| JsText.DigitPrefixOf | hooks/useBlockchain.ts:288 | the digit run of digits followed by a non-digit is exactly those digits |
| JsText.LeadingNumber | hooks/useBlockchain.ts:288 | a non-empty numeral reads as its value |
| JsText.LeadingNumberStops | hooks/useBlockchain.ts:288 | `parseInt` reads the digits up to the first non-digit and ignores what follows |
| JsText.ParseIntSkipsWhitespace | hooks/useBlockchain.ts:288 | leading whitespace is skipped: `parseInt` of whitespace and t is `parseInt` of t |
| JsText.ParseIntNegation | hooks/useBlockchain.ts:288 | a leading minus negates the numeral's value, and NaN stays NaN |
| JsText.HexPrefixSwitchesRadix | hooks/useBlockchain.ts:288 | a `0x` or `0X` prefix reads the rest in radix 16 |
| JsText.MissingFirstChar | components/Transactions.tsx:18-19 | a needle whose first character is absent is not included |
| Outcomes.MessageOr | hooks/useBlockchain.ts:268 | `err.message \|\| fallback`: the message unless it is empty |
| ProposalLabels.Number | hooks/useBlockchain.ts:36 | the number part is at least three characters long |
| ProposalLabels.NumberValue | hooks/useBlockchain.ts:36 | the number part is all decimal digits and its value is i + 1, padded or not |
| ProposalLabels.Label | hooks/useBlockchain.ts:36 | a label starts with `PIP-` and is at least seven characters long |
| ProposalLabels.Decode | hooks/useBlockchain.ts:288 | an id with no `-` decodes to NaN |
| ProposalLabels.SplitAfterPrefix | hooks/useBlockchain.ts:288 | `split('-')[1]` of `PIP-` and a numeral is that numeral |
| ProposalLabels.DecodeLabel | hooks/useBlockchain.ts:288 | decoding the label of index i gives i, also from i = 999 on, where the number outgrows the padding |
| ProposalLabels.LabelInjective | hooks/useBlockchain.ts:47 | two indices share a label only when they are equal, so the voted set tells proposals apart |
| Session.ConnectErrorMessage | hooks/useBlockchain.ts:167-177 | code 4001 wins, then code -32002, then "not installed" in the message, then "Contracts not initialized"; otherwise the message or the fallback, and never empty |
| Session.NotInstalledMessage | hooks/useBlockchain.ts:102-106 | the error thrown for a missing wallet is shown as the install hint |
| Session.WeiToEther | services/web3Service.ts:480-482 | the ether amount times 10^18 is the wei amount, and it is non-negative |
| Session.ToTransaction | hooks/useBlockchain.ts:65-73 | the id is the `0x` hex literal of the on-chain id; the date, parties and action are the chain's; the amount is the wei amount in ether; the status is Completed exactly when the entry is complete and never Failed |
| Session.TransactionIdRoundTrip | hooks/useBlockchain.ts:66 | a row id parses back to the on-chain id |
| Session.ToHolder | hooks/useBlockchain.ts:84-87 | a holder row keeps the address; its balance is the wei balance in ether |
| Session.ToProposal | hooks/useBlockchain.ts:35-44 | the id is the label of the index; title, description, proposer, end date, status and vote counts are the chain's |
| Session.TransactionList | hooks/useBlockchain.ts:64-75 | one row per entry, in the contract's order |
| Session.HolderList | hooks/useBlockchain.ts:83-89 | one row per holder, in the contract's order |
| Session.Assemble | hooks/useBlockchain.ts:27-54 | the assembled list is never longer than the number of indices |
| Session.LoadedIndices | hooks/useBlockchain.ts:29-52 | every index is in range and names an entry that loaded |
| Session.LoadedIndicesOrdered | hooks/useBlockchain.ts:29-52 | the indices increase strictly, and every entry that loaded is among them |
| Session.AssembleLength | hooks/useBlockchain.ts:29-54 | one proposal is assembled per loaded index |
| Session.AssembleAt | hooks/useBlockchain.ts:35-48 | the k-th proposal of the list is made from the k-th loaded index |
| Session.AssembleIsLoadedIndices | hooks/useBlockchain.ts:29-54 | the list is exactly the loaded indices, in order, each made into its proposal; failed indices are skipped |
| Session.AssembledIdsInOrder | hooks/useBlockchain.ts:29-54 | every listed id decodes to its index, and the ids come in increasing index order |
| Session.VotedLabels | hooks/useBlockchain.ts:46-48 | without an account a pass marks nothing as voted |
| Session.VotedLabelsMembers | hooks/useBlockchain.ts:33-48 | a pass adds a label exactly when the account is known, the entry loaded and it records a vote |
| Session.PreSend | hooks/useBlockchain.ts:215-243 | a passing check sends the requested type with the requested amount |
| Session.PreSendReadsOwnBalance | hooks/useBlockchain.ts:215-237 | a deposit's verdict does not depend on the bank read, nor a withdrawal's or a transfer's on the wallet read |
| Session.StoredError | hooks/useBlockchain.ts:266-268 | a thrown message is stored unless empty, when the fallback is; the two balance refusals are stored as they are |
| Session.PreSendChecks | hooks/useBlockchain.ts:215-243 | deposit refused iff the wallet read throws or ETH < amount; withdraw refused iff the bank read throws or bank < amount; transfer: a missing or empty recipient first, then no `0x`, then a bank read that throws, then bank < amount; a throwing read fails with its own message |
| Session.NextHistory | hooks/useBlockchain.ts:257-260 | the last ten points kept, then one named `T+<previous length>` holding the new balance; length min(\|prev\|,10)+1 ≤ 11 |
| Session.Session.constructor | hooks/useBlockchain.ts:6-13 | the session starts with no account, empty lists, an empty voted set and no error |
| Session.Session.LoadProposals | hooks/useBlockchain.ts:24-58 | a failed count read changes nothing; otherwise the list is the assembled one and the voted set grows by the pass's voted labels |
| Session.Session.LoadTransactions | hooks/useBlockchain.ts:60-79 | with an account and a successful read the list is replaced; otherwise it is kept |
| Session.Session.LoadTokenHolders | hooks/useBlockchain.ts:81-93 | a successful read replaces the holders, whether or not there is an account; a failed one keeps them |
| Session.Session.ConnectWallet | hooks/useBlockchain.ts:95-184 | succeeds iff a wallet is there and every step succeeds, and then the account is set and no error is left; otherwise the account is kept and the error is the mapped message; not loading afterwards |
| Session.Session.DisconnectWallet | hooks/useBlockchain.ts:186-197 | account, transactions, history, holders, voted set and error cleared; proposals kept |
| Session.Session.AccountsChanged | hooks/useBlockchain.ts:137-148 | an empty list disconnects; otherwise the first account with its bank balance, and the lists, history and voted set are kept |
| Session.Session.PerformTransaction | hooks/useBlockchain.ts:199-272 | no account: refused with nothing changed; a failed check or a throwing balance read is stored and nothing is sent; success iff sent, confirmed with status 1 and the new bank balance read, and then the balance, lists and history are refreshed; a throwing read after the receipt fails with its message; on any failure account, history and lists are unchanged |
| Session.Session.SubmitTransaction | hooks/useBlockchain.ts:245-271 | success iff the send is confirmed with status 1 and the new bank balance is read, and then the balance, lists and history are refreshed; a throwing send or read stores its message or the fallback; a bad receipt stores "Transaction failed"; not loading afterwards |
| Session.Session.VoteOnProposal | hooks/useBlockchain.ts:274-312 | no account, then an id already voted: refused with nothing sent or changed; the request carries the decoded index; the id is added only on a status-1 receipt; the voted set never shrinks |
| Session.Session.SubmitVote | hooks/useBlockchain.ts:291-311 | success iff the vote is confirmed with status 1, and then the proposals are reloaded and the id added; on failure the list and the voted set are unchanged and the message or the fallback is stored |
| Session.Session.CreateProposal | hooks/useBlockchain.ts:314-343 | no account: refused with nothing changed; otherwise sent as typed; a confirmed creation reloads the proposals and adds the labels that pass finds voted, and a failed count read keeps list and set; a failure keeps both and stores the message or the fallback; the voted set never shrinks |
| Session.Session.SubmitProposal | hooks/useBlockchain.ts:322-341 | success iff the creation is confirmed with status 1, and then the proposals are reloaded; on failure the list and the voted set are unchanged and the message or the fallback is stored |
| Session.VoteSendsIndex | hooks/useBlockchain.ts:287-292 | a vote on a listed proposal sends that proposal's on-chain index |
| Web3.GasLimit | services/web3Service.ts:223 | the limit is ⌊estimate·120/100⌋ and never below the estimate |
| Web3.GasLimitCoversEstimate | services/web3Service.ts:242 | the buffer over the estimate is exactly ⌊estimate/5⌋ |
| Web3.EnvOr | services/web3Service.ts:121-125 | a set, non-empty variable is used; an unset or empty one gives way to the default |
| Web3.ResolveAddresses | services/web3Service.ts:103-135 | a manifest with `contracts` is used as listed, with bankMock iff listed; no `contracts`: environment or defaults; an entry missing from the manifest throws and both defaults are used |
| Web3.GetNetworkConfig | services/web3Service.ts:393-427 | succeeds iff the id is 31337, 1337 or 11155111; chainId is the `0x` hex literal, ETH with 18 decimals, named Sepolia or Localhost 8545; any other id fails with "Unsupported chain ID: " and the decimal id |
| Web3.KnownChainIds | services/web3Service.ts:397-411 | the three ids render as 0x7a69, 0x539 and 0xaa36a7 |
| Web3.ServiceModule.GetInstance | services/web3Service.ts:52-57 | the first call creates an empty service; every later call returns that same object |
| Web3.Web3Service.constructor | services/web3Service.ts:44-50 | every field starts null |
| Web3.Web3Service.Initialize | services/web3Service.ts:69-88 | no wallet: throws, nothing changes; a refused access request leaves only the provider set; otherwise provider, signer, cached addresses and both contracts are set |
| Web3.Web3Service.LoadContractAddresses | services/web3Service.ts:93-136 | the manifest is imported only while none is cached, and the addresses are resolved from the cache |
| Web3.Web3Service.InitializeContracts | services/web3Service.ts:143-172 | no signer, then no addresses: throws with nothing changed; otherwise both contracts are bound to the addresses and signer |
| Web3.Web3Service.GetAddress | services/web3Service.ts:177-182 | fails iff there is no signer; otherwise the signer's account |
| Web3.Web3Service.GetBalance | services/web3Service.ts:187-194 | fails iff the provider or the signer is missing; otherwise reads for the signer's account |
| Web3.Web3Service.UserAddress | services/web3Service.ts:203 | a given address is used; an empty one falls back to the signer's |
| Web3.Web3Service.GetBankBalance | services/web3Service.ts:199-206 | the bank guard comes first, then the address fallback; the call is `balances(address)` |
| Web3.Web3Service.GetUserTransactions | services/web3Service.ts:273-279 | the bank guard, then the address fallback |
| Web3.Web3Service.GetTopHolders | services/web3Service.ts:284-289 | fails iff there is no bank contract |
| Web3.Web3Service.GetProposal | services/web3Service.ts:332-337 | fails iff there is no governance contract |
| Web3.Web3Service.GetProposalCount | services/web3Service.ts:342-348 | fails iff there is no governance contract |
| Web3.Web3Service.HasVoted | services/web3Service.ts:353-359 | the governance guard comes before the address fallback |
| Web3.Web3Service.RequireProvider | services/web3Service.ts:432-449 | `getChainId` and `waitForTransaction` fail iff there is no provider |
| Web3.Web3Service.GetContractAddresses | services/web3Service.ts:453-458 | fails iff no addresses are loaded |
| Web3.Web3Service.GetBankContract | services/web3Service.ts:463-468 | fails iff there is no bank contract |
| Web3.Web3Service.GetGovernanceContract | services/web3Service.ts:470-475 | fails iff there is no governance contract |
| Web3.Web3Service.Deposit | services/web3Service.ts:212-226 | succeeds iff there is a bank contract and the estimate succeeds, and then sends the value with the buffered gas limit |
| Web3.Web3Service.Withdraw | services/web3Service.ts:231-245 | as for deposit, with `withdraw(amount)` |
| Web3.Web3Service.Transfer | services/web3Service.ts:250-268 | a recipient that is not an address is refused before any estimate; success iff contract, address and estimate all succeed |
| Web3.Web3Service.CreateProposal | services/web3Service.ts:294-308 | succeeds iff there is a governance contract and the estimate succeeds; buffered gas |
| Web3.Web3Service.Vote | services/web3Service.ts:313-327 | succeeds iff there is a governance contract and the estimate succeeds; buffered gas |
| Web3.Web3Service.SwitchNetwork | services/web3Service.ts:364-388 | a switch request first; an add-chain request is made iff the switch failed with code 4902 and the chain is in the table; any other failure is rethrown unchanged |
| TransactionForm.FirstFailure | components/TransactionModal.tsx:20-39 | a failure is one of the four messages of the form |
| TransactionForm.FailureMessages | components/TransactionModal.tsx:20-39 | each message fires exactly when every earlier check passes and its own fails: amount, then balance (not for deposits), then blank recipient, then `0x` with length 42 |
| TransactionForm.AcceptedRequests | components/TransactionModal.tsx:20-39 | all checks pass iff the amount is positive, within the balance unless depositing, and a transfer's recipient is address-shaped |
| TransactionForm.DepositIgnoresBalance | components/TransactionModal.tsx:26 | a deposit's verdict depends on neither the balance nor the recipient |
| TransactionForm.RequestsAreChecked | components/TransactionModal.tsx:30-39 | a request that passes carries a positive amount and, for a transfer, a `0x` recipient of 42 characters |
| TransactionForm.TransactionModal.constructor | components/TransactionModal.tsx:13-16 | empty fields, no error, not processing |
| TransactionForm.TransactionModal.Render | components/TransactionModal.tsx:18-109 | nothing while closed; the recipient field only for a transfer; the error line only with an error; confirm disabled and "Processing..." exactly while processing |
| TransactionForm.TransactionModal.Edit | components/TransactionModal.tsx:69 | the typed text is kept as typed |
| TransactionForm.TransactionModal.HandleConfirm | components/TransactionModal.tsx:20-54 | a failed check sets its message and leaves everything else; otherwise exactly one request with the untouched recipient; success closes and clears both fields; a throw keeps them and stores the message or the fallback; not processing afterwards |
| ProposalForm.FirstFailure | components/CreateProposalModal.tsx:16-24 | a blank title is reported first, then a blank description; passes iff both hold a non-whitespace character |
| ProposalForm.CreateProposalModal.constructor | components/CreateProposalModal.tsx:10-12 | empty fields and no error |
| ProposalForm.CreateProposalModal.Render | components/CreateProposalModal.tsx:14-61 | nothing at all while closed; the fields as typed; the error line only with an error |
| ProposalForm.CreateProposalModal.Edit | components/CreateProposalModal.tsx:43 | the typed text is kept as typed |
| ProposalForm.CreateProposalModal.HandleConfirm | components/CreateProposalModal.tsx:16-30 | a refusal keeps both fields and submits nothing; a pass submits the untrimmed title and description once, clears the error and both fields |
| AnalyticsView.StatusBadge | components/Transactions.tsx:6-15 | every status has a non-empty badge |
| AnalyticsView.StatusBadgeInjective | components/Transactions.tsx:6-15 | the three statuses have three different badges |
| AnalyticsView.ActionColor | components/Transactions.tsx:17-21 | one of green, red or grey |
| AnalyticsView.ActionColors | components/Transactions.tsx:17-21 | Deposit and Transfer In are green, Withdrawal and Transfer Out are red, and no action is grey |
| AnalyticsView.Participants | components/Transactions.tsx:36 | at most two addresses per transaction |
| AnalyticsView.ActiveParticipants | components/Transactions.tsx:36 | the count is at most twice the number of transactions |
| AnalyticsView.ParticipantsAreSendersAndReceivers | components/Transactions.tsx:36 | the participants are the senders joined with the receivers |
| AnalyticsView.TotalValueLocked | components/Transactions.tsx:37 | 0 for no holders, and non-negative when every balance is |
| AnalyticsView.TotalValueLockedAppend | components/Transactions.tsx:37 | the total of two lists joined is the sum of their totals |
| AnalyticsView.FormattedTokenHolders | components/Transactions.tsx:39-42 | same length, order and balances; each name is the first six characters of the address and `...` |
| AnalyticsView.Reverse | components/Transactions.tsx:44-47 | `reverse` keeps the length and puts element k at position \|s\|-1-k |
| AnalyticsView.TransactionVolume | components/Transactions.tsx:44-47 | same length; point k is the date and amount of the k-th transaction from the end |
| GovernanceView.VoteShares | components/Governance.tsx:13-15 | both shares 0 with no votes; otherwise each is its count's share of 100, both within [0,100], and they sum to 100 |
| GovernanceView.SharesFollowVotes | components/Governance.tsx:14-15 | the "for" bar is at least as wide as the "against" bar iff there are at least as many votes for |
| GovernanceView.StatusInfoOf | components/Governance.tsx:17-23 | the badge text is the status name |
| GovernanceView.StatusInfoInjective | components/Governance.tsx:17-23 | different statuses have different colours and different backgrounds |
| GovernanceView.EndDateLabel | components/Governance.tsx:57 | "Voting ends: d" while active, "Ended: d" otherwise |
| GovernanceView.ShortAddress | components/Governance.tsx:58 | the first min(6,\|a\|) characters, `...`, then the last min(4,\|a\|) characters of a |
| GovernanceView.ShortAddressOfFullAddress | components/Governance.tsx:58 | a 42-character `0x` address shortens to 13 characters that still start with `0x` |
| GovernanceView.CardOf | components/Governance.tsx:60-82 | the buttons show iff the proposal is active and a wallet is connected, and are disabled iff this session voted on it |
| GovernanceView.Governance | components/Governance.tsx:101-113 | the create button shows iff connected; one card per proposal, in list order, told whether its id is in the voted set |
| GovernanceView.LoadedVotesDisableButtons | components/Governance.tsx:111-112 | after a load pass with an account, an active proposal the account voted on has its buttons disabled, and one nobody in the session voted on has them enabled |

## Left out

- Wallet, provider and contract I/O, and `ethers.isAddress`. These are inputs: outcomes, a signer, estimates, receipts, read results and an address verdict.
- Async sequencing, React re-renders and the `useEffect` that reloads the three lists when the account changes are not modelled. The loads are operations of their own for the caller to run. The loads `connectWallet` starts without waiting are not part of `Session.Session.ConnectWallet`.
- `parseFloat`, `formatEther`, `parseEther`, `toFixed`, `toLocaleString` and Date rendering are not modelled. Amounts are exact reals, and dates are the already-rendered strings.
- The two insufficient-balance messages keep the numbers they interpolate (`Session.HookError`) instead of the `toFixed(4)` text.
- VoteShares: `Governance.tsx` divides in floating point; the model divides exact reals, so the two shares sum to exactly 100 only in the model, where the source may be off by rounding.
- `Session.ToTransaction` takes the contract's `action` as one of the four known actions. The source casts whatever string arrives, unchecked.
- `Session.ToProposal` takes the status the same way, as one of the three known statuses.
- `Session.ToProposal`: `votesFor` and `votesAgainst` are natural numbers. `Number(...)` above 2^53 loses precision, and that is not modelled.
- `ProposalLabels.Decode` does not model the loss of precision `parseInt` has past 2^53.
- Event-listener registration and removal, `window.location.reload` on a chain change, the `alert`s and console logging are not modelled.
- `Web3.Web3Service.SwitchNetwork` and `Web3.GetNetworkConfig` take the chain id as a natural number. The source's `Number(chainId)` on an arbitrary string is not modelled. The failure message prints the id in decimal, which is the source's string for any canonical decimal id.
- `Web3.ResolveAddresses` takes a listed manifest entry with its address. An entry present without an `address` field (which gives `undefined`) is not modelled.
- `Web3.Web3Service.InitializeContracts` does not model the `ethers.Contract` constructor throwing (the "Failed to initialize contracts" wrap).
- `Web3.Web3Service.GetBalance` returns the account whose balance would be read, not the balance.
- `isMetaMaskInstalled` is the boolean input `installed`, and the source's string length is counted in characters rather than UTF-16 code units.
- `getChainId`, `waitForTransaction`, `weiToEther` and `etherToWei` are reduced to their provider guard (`Web3.Web3Service.RequireProvider`) or to exact division (`Session.WeiToEther`).
- The deployment script and Hardhat configuration, mock data, the purely presentational components and the charts are not part of this model. Neither are the Bank and Governance contracts themselves, which are not in the repository.
- `Session.Session.AccountsChanged` keeps the voted set across an account switch, as the source does. The next load pass only adds to it, so the new account's buttons stay disabled for the previous account's votes.
