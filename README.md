# TrustChain front end — a verified model of its client-side logic

TrustChain is a single-page front end for a charity-donation contract. A browser-wallet user
can register a display name, donate ether to another address, and browse every past donation.
Almost all of it is glue around three contract calls (`registerUser`, `donate`, `getUser`) and
one log query (`DonationMade`). This project models the logic in `src/App.jsx` that can be
separated from the asynchronous calls and the rendering:

- **Ledger** (`ledger.dfy`): `loadUserData`'s single pass over all `DonationMade` logs. It
  totals what the connected account donated and received, comparing addresses without regard
  to case. For each match it collects a SENT or RECEIVED activity row, and the list is then
  reversed so the newest is first. `Aggregate` is that loop, proved equal to the specification
  functions `Total` and `RecentActivity`. Lemmas then state what those functions mean: the
  totals equal the sums of the SENT and RECEIVED rows, there is one row per match, the list is
  newest first, a self-donation gives RECEIVED above SENT, and the result does not depend on
  the case of the account.
- **Explorer** (`explorer.dfy`): the donations page's `logs.map(...).reverse()` projection,
  the shortened receiver tag, and the block-explorer link.
- **Views** (`views.dfy`): the navigation bar's button (`userName || "Register Now"` and the
  shortened key), the landing page's gate, the profile page's three-way choice of screen, and
  the busy-flag buttons.
- **Components** (`components.dfy`): the component state that the handlers update step by
  step, as classes. `App` holds the session and registration (`connectWallet`). `ProfilePage`
  holds the name field, totals, rows and busy flag (`loadUserData`, its effect, and
  `registerUser`). `DonatePage` holds the form (`handleDonate`) and `DonationsPage` holds the
  feed. Each handler takes the outcome its awaited wallet or contract call settles with, as a
  parameter (`Gateway` in `gateway.dfy`).
- **Text** (`text.dfy`): the JavaScript string operations the logic relies on:
  `toLowerCase`, `substring` (its index clamping and swapping), and `reverse`.

Amounts are exact wei (`nat`), as the source keeps them in BigNumbers until display.

Two behaviours of the code worth knowing:
- `handleDonate` (src/App.jsx:236-247) does not check the amount before the call. The busy
  flag is set first and `parseEther` runs inside the `try`. An empty amount throws and is
  reported as "Error: ...", with the fields kept. An amount of "0" parses and reaches
  `donate`, so only the contract can refuse it. `HandleDonate` states exactly this: `request`
  is present whenever there is a contract and the amount parses.
- `connectWallet` (src/App.jsx:25-33) never clears `userName`: an unregistered answer clears
  only the flag, and a failed `getUser` changes neither. The app cannot show this, because the
  navigation bar calls `connectWallet` only while there is no account (src/App.jsx:75), and the
  name is set only once an account is (src/App.jsx:22-28, 159, 165-173). So the name is still
  "" whenever `connectWallet` runs, unless two connect calls overlap.

## Model

| member | source | states |
|---|---|---|
| `Text.Lower` | src/App.jsx:137 | lower-casing keeps the length |
| `Text.LowerAt` | src/App.jsx:137 | character i of the lower-cased string is character i of the input, lower-cased |
| `Text.LowerIdempotent` | src/App.jsx:141 | lower-casing twice is lower-casing once |
| `Text.SameAddressIsEquivalence` | src/App.jsx:137-141 | the case-insensitive comparison is reflexive, symmetric and transitive, identifies an address with its lower-case form, and never matches strings of different lengths |
| `Text.Substring` | src/App.jsx:139 | `substring(start, end)` is the slice between the two indices when they are in order and in range, and never longer than the string |
| `Text.SubstringFrom` | src/App.jsx:79 | `substring(start)` is the tail from start, and empty once start is past the end |
| `Text.PrefixSubstring` | src/App.jsx:139 | `substring(0, n)` is the first n characters, or the whole string when it is shorter |
| `Text.SubstringSymmetric` | src/App.jsx:302 | swapping the two indices of `substring` does not change the result; this is JavaScript's own rule, which `Substring` models, and no call in this program passes its indices out of order |
| `Text.Reverse` | src/App.jsx:149 | `reverse()` keeps the length and puts element \|s\|-1-i at position i |
| `Text.ReverseAppend` | src/App.jsx:149 | reversing a concatenation reverses the order of its parts |
| `Text.ReverseInvolution` | src/App.jsx:289 | reversing twice gives back the list, and reversing keeps exactly the same elements |
| `Gateway.Describe` | src/App.jsx:161 | `err.reason \|\| err.message` is the reason when it is non-empty, otherwise the message |
| `Ledger.Aggregate` | src/App.jsx:127-151 | the loop's two accumulators end as the Donated and Received totals over all logs, and its list ends as the pushed rows reversed |
| `Ledger.TotalsAgreeWithActivity` | src/App.jsx:135-149 | each total equals the sum of the amounts of the rows of its kind, and the number of SENT (RECEIVED) rows equals the number of events whose donor (receiver) is the account |
| `Ledger.NoMatchesNoActivity` | src/App.jsx:131-149 | the list has one row per (event, side) match, so it is empty exactly when no event names the account; then both totals are 0 |
| `Ledger.NewestFirst` | src/App.jsx:135-149 | a new event puts its rows on top, in reverse push order, above the unchanged older rows, and adds its amount to the totals it matches |
| `Ledger.SelfDonation` | src/App.jsx:137-149 | a self-donation yields both rows, RECEIVED above SENT, and adds its amount to both totals |
| `Ledger.PushedMembership` | src/App.jsx:135-145 | a row is pushed exactly when some event matches on the row's side and the row is that event's row for that side |
| `Ledger.ActivityMembership` | src/App.jsx:135-149 | every shown row comes from a matching event, and every matching event has its row; SENT rows carry the receiver and "To: " + its first 6 characters, RECEIVED rows the donor and "From: " + the donor's name |
| `Ledger.TotalAppend` | src/App.jsx:131-148 | the totals over a history split over any cut of it |
| `Ledger.CaseInsensitive` | src/App.jsx:137-141 | two spellings of one address that differ only in case see the same totals and the same rows |
| `Ledger.OneSided` | src/App.jsx:137-149 | an event that names the account on one side only puts that side's row alone on top of the unchanged older rows and adds its amount to that side's total |
| `Ledger.DonationScenario` | src/App.jsx:135-149 | A donating to a different B as "Alice" gives A a top SENT row "To: " + B's first 6 characters, and B a top RECEIVED row "From: Alice"; each total grows by the amount |
| `Explorer.Feed` | src/App.jsx:283-289 | the feed has one entry per log, and entry i carries donor, receiver, amount, donor name and hash of log n-1-i |
| `Explorer.FeedNewestOnTop` | src/App.jsx:283-289 | a new log becomes the top entry above the unchanged older entries |
| `Explorer.FeedIsLossless` | src/App.jsx:283-289 | two histories with the same feed are the same history |
| `Explorer.TxLink` | src/App.jsx:306 | the link is the fixed etherscan prefix followed by the hash, which can be read back from it |
| `Explorer.TxLinkInjective` | src/App.jsx:306 | distinct transaction hashes get distinct links |
| `Explorer.ReceiverTag` | src/App.jsx:302 | the tag is "To: " + the receiver's first 8 characters (or all of it when shorter) + "..." |
| `Explorer.FeedRows` | src/App.jsx:298-308 | row i shows the donor name, receiver tag and amount of the i-th newest log and links to its transaction |
| `Views.NavLabel` | src/App.jsx:78 | the label is never blank, is the user name whenever that is non-empty, and otherwise is "Register Now" |
| `Views.ShortKey` | src/App.jsx:79 | the key is the first 6 characters (or fewer), "...", then everything from position 38 (nothing for an account of 38 characters or fewer); for a 42-character address that is 13 characters ending in the last 4 |
| `Views.ShortKeyOfAddress` | src/App.jsx:79 | a 42-character address shows as its first 6 and last 4 characters around "..." |
| `Views.NavBar` | src/App.jsx:75-81 | without an account the button reads "Connect Wallet" and connects; with one it shows the label and short key and opens the profile |
| `Views.LandingClick` | src/App.jsx:95 | "Donate Now" navigates to /donate exactly when there is an account, otherwise it alerts "Please Connect Wallet first!" |
| `Views.ProfileView` | src/App.jsx:165-180 | connect message exactly without an account, registration form exactly for an unregistered account, dashboard exactly for a registered one |
| `Views.SubmitButton` | src/App.jsx:173-174 | a form's submit button is enabled exactly when its operation is not in flight; it reads "Create Profile" / "Registering..." for registration and, as the donate page's button at src/App.jsx:267-269, "Confirm Donation" / "Processing..." for a donation |
| `Components.App.constructor` | src/App.jsx:8-11 | no account, no contract, empty name, not registered; the session invariant holds |
| `Components.App.ConnectWallet` | src/App.jsx:13-36 | no wallet or a connection error changes nothing and alerts; once connected, account and contract are set even if `getUser` fails; registered sets name and flag, unregistered clears only the flag (so the profile shows the registration form); the session invariant is kept |
| `Components.ProfilePage.constructor` | src/App.jsx:104-109 | empty name field, both totals 0, no rows, not busy |
| `Components.ProfilePage.EditName` | src/App.jsx:172 | the name field takes the typed value |
| `Components.ProfilePage.LoadUserData` | src/App.jsx:127-151 | a successful query sets the totals and rows to those of the account; a failed one changes nothing |
| `Components.ProfilePage.Refresh` | src/App.jsx:111-116 | the ledger reloads exactly when there is a contract, an account and a registration |
| `Components.ProfilePage.RegisterUser` | src/App.jsx:153-163 | an empty name alerts and returns with the busy flag untouched; otherwise the name is submitted with the flag set, the flag ends cleared, and name and registration change only on confirmation |
| `Components.DonatePage.constructor` | src/App.jsx:220-223 | both fields empty, not busy |
| `Components.DonatePage.EditAmount` | src/App.jsx:259 | the amount field takes the typed value |
| `Components.DonatePage.EditReceiver` | src/App.jsx:264 | the receiver field takes the typed value |
| `Components.DonatePage.HandleDonate` | src/App.jsx:236-247 | without a contract nothing is set or called; otherwise the flag ends cleared, `donate` gets the receiver and the parsed value while the flag is set, and the fields clear only on confirmation |
| `Components.DonationsPage.constructor` | src/App.jsx:276 | an empty feed |
| `Components.DonationsPage.FetchEvents` | src/App.jsx:278-292 | without a contract nothing is fetched; a successful query replaces the feed with all logs newest first; a failed one leaves it |

## Left out

- Wallet and provider I/O (`window.ethereum`, `eth_requestAccounts`, `getSigner`, `getAddress`), the contract calls, `tx.wait()` and `queryFilter` are foreign asynchronous calls. Each appears only as the outcome it settles with, a parameter of the handler that awaits it.
- Interleaving at the `await` points is not modelled: each handler runs as one step with its call's outcome. The busy flag that prevents a second submission is modelled through `SubmitButton`.
- Components.ProfilePage.RegisterUser: the busy flag during the pending call is reported through the `busyDuringCall` out-parameter, not as an observable intermediate state, because the awaited call is a single step in the model.
- Components.DonatePage.HandleDonate: the `parsed` outcome is not tied to the text of `amount`, because `ethers.utils.parseEther` is library code outside the model. The same `busyDuringCall` reading applies.
- `ethers.utils.formatEther` (src/App.jsx:147-148, 210, 286): totals, rows and feed entries keep the amount as integer wei rather than a decimal ether string.
- The wallet balance (`fetchBalance`, src/App.jsx:118-125 and 225-234) is a provider read shown through floating-point `toFixed(4)`.
- `alert` and `console.error`: alert texts are returned as values, and console logging is dropped.
- React rendering, routing, `useEffect` scheduling and the static About page. `ProfilePage.Refresh` models only the effect's guard and its ledger reload.
- `toLowerCase` is modelled for ASCII letters only. Addresses are hex, and other Unicode case mappings are not modelled.
- The `timestamp` argument of `DonationMade` is not read by the front end and is not carried.
- src/utils/contractConfig.js (an address constant and ABI strings) and vite.config.js (build configuration) hold no logic.
