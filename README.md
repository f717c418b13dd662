# Donation page: session and transaction state machine

This project models the state machine inside the `HomePage` React component
of a small donation dApp (`index.js`). The component connects a browser
wallet, binds an ATM ledger contract, and runs three validated operations
against it: deposit, withdraw, and donate-to-a-campaign. It also keeps a local
donation history and a notification log. All the logic that changes state
lives in its event handlers. Each handler is modelled twice:

- **`HomeState`** (`home_state.dfy`): the component's whole state as one value
  (`Snapshot`), with one function per handler. Each function's `ensures`
  gives the handler's guards, the order of its checks, the ledger call it
  makes, and what it appends, clears or leaves alone.
- **`HomePage`** (`home_page.dfy`): a class with one field per `useState`
  entry, except the three of the login gate (`isLoggedIn`, `accountNumber`,
  `pin`). Its methods update those fields in place, following the early
  returns of the source. Each method is proved to leave `Snap()` equal to the
  matching `HomeState` function applied to the old state. Every method
  requires and preserves `Valid()`: every donation record names a catalog
  campaign and is worth at least one ether. The part of `donate` after the
  lookup is its own method, and it requires what the source guarantees
  before it runs: the guard has passed and the campaign is in the catalog.
- **`Campaigns`** (`campaigns.dfy`): the fixed five-entry catalog; the lookup
  `campaigns.find(c => c.id === parseInt(selectedCampaignId))`; JavaScript's
  `parseInt` (ECMAScript section 19.2.5) and `String(n)`, which is how the
  select renders an id, both on exact integers rather than on JavaScript
  Numbers. It proves that every option of the select finds
  its own campaign.
- **`HomeTraces`** (`home_traces.dfy`): any sequence of user events, run one
  at a time. Along every such run four things hold. The donation history and
  the ledger log only grow. Binding and account are never lost. Every added
  donation record is matched by an added `atm.deposit` call. A page without
  a wallet never touches the ledger. This module also holds the worked
  scenarios.

The external collaborators are inputs, not code:

- The wallet's reply to `eth_requestAccounts` becomes `requestOk` plus an
  account list.
- The outcome of `atm.deposit`/`atm.withdraw` together with `tx.wait()`
  becomes `ledgerOk`.
- The balance read by `getBalance` becomes `reading`; `None` means the query
  failed.
- `ethers.utils.parseEther`, `formatEther` and `isAddress` become the three
  function fields of `Env`. `parseEther` returns `None` where it throws. It
  returns an `int`, because ethers also accepts negative values.

One ether is the constant `OneEther` = 10^18 wei. The calls the page sends to
the contract are recorded, in order, in the `ledger` field. In the class this
is a ghost field, because it observes the page's traffic and is not part of
the component's state. That is what lets
"no ledger call", "the same deposit call" and "exactly one balance refresh"
be stated.

The model follows the code, including three places where the code does something a reader might not expect. First,
`getATMContract` runs even when the wallet returns an empty account list. The
contract can therefore be bound with no account: `account` stays `undefined`,
and every operation is a no-op, because the guard `isAddress(account)` fails
(`HomeTraces.EmptyAccountListBindsWithoutAccount`). Second, the validation
errors of `donate` go to `donationError`, not to the notification log. Third,
a malformed amount is reported as the generic "Donation failed", "Deposit
failed" or "Withdrawal failed" notification.

## Model

| member | source | states |
|---|---|---|
| Campaigns.Catalog | index.js:19-25 | five campaigns with ids 1..5, pairwise distinct ids, the source's names and goals in wei |
| Campaigns.FindCampaign | index.js:91 | `find` by strict equality: the result is in the list, has the id, and is the first such entry; `None` exactly when no entry has the id (a `NaN` id matches nothing) |
| Campaigns.CatalogLookup | index.js:19-25 | the catalog lookup of `id` succeeds exactly for 1 <= id <= 5, and then returns the entry at position id - 1 |
| Campaigns.ParseInt | index.js:91 | `parseInt`: `NaN` for a string that is empty once leading white space is trimmed, for `"0x"` with no hex digits, and for one whose first character is neither a sign nor a digit; a number whenever the trimmed string starts with 1-9 (its value on digit strings is `Campaigns.ParseIntDigits`) |
| Campaigns.DecimalString | index.js:236 | `String(n)` on exact integers: for a natural number, a non-empty string of decimal digits |
| Campaigns.ParseIntDigits | index.js:91 | `parseInt` on exact integers: a non-empty decimal digit string gives the number the digits denote |
| Campaigns.ParseIntDecimalString | index.js:91 | on exact integers, `parseInt(String(n)) === n` for every natural number n |
| Campaigns.SelectOptionFindsCampaign | index.js:233-240 | every option value the select renders (`campaign.id`) makes the lookup in `donate` return that very campaign |
| HomeState.Initial | index.js:6-27 | the initial state: no account, no contract, no balance, the three inputs and the donation error empty, the balance shown, no selection, empty logs and history, catalog loaded |
| HomeState.ChosenCampaign | index.js:91-95 | the selected campaign is a catalog entry whose id is `parseInt` of the selection; `None` exactly when no catalog id equals it |
| HomeState.Ready | index.js:82 | the early-return guard of `donate`, `deposit` and `withdraw` (also index.js:120, 137), negated: false while unbound or with no account, and otherwise decided by `isAddress` |
| HomeState.NoCampaignChosen | index.js:86 | `!selectedCampaignId`: true for no selection and for the placeholder value `""`, false for any other option value |
| HomeState.DonatedMessage | index.js:112 | the success notification of `donate`: "Donated ", the amount, " ETH to " and then the campaign's name; never "Donation failed" |
| HomeState.DepositedMessage | index.js:129 | the success notification of `deposit`: "Deposited ", the amount, " ETH"; never "Deposit failed" |
| HomeState.WithdrawnMessage | index.js:146 | the success notification of `withdraw`: "Withdrawn ", the amount, " ETH"; never "Withdrawal failed" |
| HomeState.EnterDonationAmount | index.js:208 | the donation input becomes the typed value and nothing else changes |
| HomeState.EnterDepositAmount | index.js:217 | the deposit input becomes the typed value and nothing else changes |
| HomeState.EnterWithdrawAmount | index.js:225 | the withdraw input becomes the typed value and nothing else changes |
| HomeState.SelectCampaign | index.js:233 | the selection becomes the chosen option's value and nothing else changes; `donate` then sees no selection exactly when the placeholder `""` was chosen |
| HomeState.AddNotification | index.js:157-159 | appends exactly one entry, the message, at the end; earlier entries keep their order; nothing else changes |
| HomeState.ClearNotifications | index.js:161-163 | empties the log unconditionally and changes nothing else |
| HomeState.ToggleBalanceVisibility | index.js:153-155 | flips `isBalanceHidden`, never touches `balance`, changes nothing else |
| HomeState.GetBalance | index.js:74-79 | without a contract nothing happens; otherwise exactly one balance query is sent, and the balance becomes the formatted reading, or stays as it was if the query fails |
| HomeState.HandleAccount | index.js:43-50 | a non-empty list sets `account` to its first element; an empty list changes nothing |
| HomeState.GetATMContract | index.js:67-72 | binds the contract and changes nothing else |
| HomeState.ConnectAccount | index.js:52-65 | without a wallet, or when the request is rejected, nothing changes; when the request succeeds the contract is bound (even for an empty list), `account` becomes the first account if there is one and is otherwise kept; only `account` and the binding can change |
| HomeState.Deposit | index.js:119-134 | not bound or no address: no change at all; past the guard exactly one notification is appended. A malformed amount: "Deposit failed" and no ledger call. A ledger failure: one deposit call and "Deposit failed". Success: one deposit call, one balance refresh, deposit input cleared, "Deposited …". Donations, other inputs and `donationError` never change |
| HomeState.Withdraw | index.js:136-151 | the same as `Deposit`, with one withdraw call, the withdraw input and "Withdrawn …"/"Withdrawal failed"; no client-side funds check |
| HomeState.Donate | index.js:81-117 | not bound or no address: no change, not even `donationError`. Checks in order: no selection, then unknown campaign, then (amount parsed) below 1 ETH. Each sets its error message and nothing else: no ledger call, no record, no notification, whatever the amount. A malformed amount or a ledger failure: error cleared and exactly one "Donation failed". Success: one deposit call, one refresh, input cleared, exactly one record `{id, name, amount}` appended and one "Donated … ETH to <name>" |
| HomeState.SendDonation | index.js:97-116 | the part after the campaign is found: parse failure, minimum check, ledger failure and success, as above |
| HomeState.SendDonationKeepsConsistent | index.js:104-110 | sending a donation for a catalog campaign records only that campaign's id and name with an amount of at least 1 ETH, so every record stays tied to the catalog |
| HomeState.DonateKeepsConsistent | index.js:104-110 | `donate` only ever records a catalog campaign's id and name with an amount of at least 1 ETH |
| HomeState.DonateRecordsMatchDeposits | index.js:104-110 | `donate` only appends to the ledger log, and it adds a donation record only together with exactly one deposit of that record's amount followed by one balance query, and otherwise leaves the history unchanged |
| HomeState.ToggleTwice | index.js:153-155 | two toggles restore the state exactly |
| HomeState.ClearThenAdd | index.js:157-163 | a clear followed by one notification leaves exactly that one entry |
| HomeState.DonationIsDeposit | index.js:104-106 | a successful donation sends the same ledger calls and yields the same balance as a deposit of the same amount string |
| HomeState.DonationChecksSelectionFirst | index.js:86-97 | while the selection or catalog check fails, the outcome does not depend on the amount string, on how it parses, or on the ledger |
| HomeTraces.RunExtends | index.js:81-151 | along any run of events: the donation history and ledger log only grow; binding and account are never lost; the number of added donation records never exceeds the number of added `atm.deposit` calls; `Consistent` holds throughout |
| HomeTraces.NoWalletIsInert | index.js:52-56 | with no wallet, no run of events binds the contract, sets an account, calls the ledger, records a donation or changes the balance |
| HomeTraces.ConnectWithoutWalletScenario | index.js:53-56 | connecting with no wallet leaves the initial state unchanged |
| HomeTraces.DonateTwoEtherScenario | index.js:97-112 | connect, pick "1", type "2", donate: one record `{1, "Save the Children", 2·10^18}`, one "Donated … ETH to Save the Children", one deposit and one refresh |
| HomeTraces.DonateHalfEtherScenario | index.js:97-102 | the same with "0.5": the minimum-amount error, no record, no notification, no ledger call |
| HomeTraces.EmptyAccountListBindsWithoutAccount | index.js:58-61 | an accepted request with an empty account list binds the contract without an account, and a deposit afterwards is a no-op |
| HomePage.HomePage.constructor | index.js:6-27 | the new page's state is `HomeState.Initial` and `Valid()` holds |
| HomePage.HomePage.AddNotification | index.js:157-159 | the new state is `HomeState.AddNotification` of the old, and `Valid()` is kept |
| HomePage.HomePage.ClearNotifications | index.js:161-163 | the new state is `HomeState.ClearNotifications` of the old |
| HomePage.HomePage.ToggleBalanceVisibility | index.js:153-155 | the new state is `HomeState.ToggleBalanceVisibility` of the old |
| HomePage.HomePage.GetBalance | index.js:74-79 | the new state is `HomeState.GetBalance` of the old, and `Valid()` is kept |
| HomePage.HomePage.HandleAccount | index.js:43-50 | the new state is `HomeState.HandleAccount` of the old |
| HomePage.HomePage.GetATMContract | index.js:67-72 | the new state is `HomeState.GetATMContract` of the old |
| HomePage.HomePage.ConnectAccount | index.js:52-65 | the new state is `HomeState.ConnectAccount` of the old; the result says whether the "wallet required" alert fired |
| HomePage.HomePage.Deposit | index.js:119-134 | the new state is `HomeState.Deposit` of the old; `Valid()` is kept |
| HomePage.HomePage.Withdraw | index.js:136-151 | the new state is `HomeState.Withdraw` of the old; `Valid()` is kept |
| HomePage.HomePage.Donate | index.js:81-117 | the new state is `HomeState.Donate` of the old; `Valid()` is kept |
| HomePage.HomePage.SendDonation | index.js:97-116 | called only after the guard of `donate` passed and for a catalog campaign (index.js:82, 91); the new state is `HomeState.SendDonation` of the old, and `Valid()` is kept |
| HomePage.HomePage.EnterDonationAmount | index.js:208 | only the donation input changes, to the typed value |
| HomePage.HomePage.EnterDepositAmount | index.js:217 | only the deposit input changes, to the typed value |
| HomePage.HomePage.EnterWithdrawAmount | index.js:225 | only the withdraw input changes, to the typed value |
| HomePage.HomePage.SelectCampaign | index.js:233 | only the selection changes, to the chosen option's value |

## Left out

- Rendering: the JSX, `initUser`'s markup, and the styles are not modelled. `initUser` also calls `getBalance` while the balance is `undefined`. That call is available as the `BalanceRequested` event, but nothing issues it automatically.
- `getWallet` and `useEffect`, meaning detection of `window.ethereum`: the constructor takes the result as `walletPresent`. The fact that the `eth_accounts` branch reads stale state on the first run, so it never fires then, is not modelled.
- `handleLogin` (the login/PIN gate) and `showCampaignInfo`: both are cosmetic, and neither touches the session or the ledger. The campaign descriptions are read only by `showCampaignInfo`, so `Campaign` leaves them out.
- The construction of `Web3Provider`, the signer and `Contract`: the model records only that the contract is bound.
- The grammar of `parseEther`/`formatEther` and the checksum rules of `isAddress`: these belong to the ethers library and are fields of `Env`. A decimal round-trip property (formatting a parsed amount gives back its canonical decimal form) depends on that grammar, so it is not stated.
- HomeState.GetBalance: the source fires this call without awaiting it. The model applies the reading immediately, within the same handler. How a late reading interleaves with later events is not captured.
- A negative amount that `parseEther` accepts reaches the ledger call in `deposit`/`withdraw`. Whether that call fails is left to `ledgerOk`.
- `handleAccount` also guards against a missing (`null`) account list. Here the list is always a sequence. An absent list has the same effect as an empty one.
- `String(n)` and `parseInt` are modelled on exact integers. JavaScript Numbers print in exponent notation from 10^21 and round above 2^53. The page only renders and parses the ids 1..5, far below both.
- JavaScript strings are UTF-16, while Dafny characters are Unicode scalar values. `parseInt` only inspects white space, signs and ASCII digits, so this has no effect here.
- Concurrency: the source does not await state updates, and `setNotifications([...notifications, …])` and `setDonations([...donations, …])` capture stale closures. Operations are modelled as running one at a time, each seeing the latest state.
- `alert` dialogs and `console` logging are not modelled. The only alert whose firing matters (no wallet) is returned by `ConnectAccount`.
