# TreeSwap: sign-in, sessions and direct sends

A Dafny model of the two stateful protocols of TreeSwap, with proofs over every
run of them.

**Accounts.** A wallet signs in with Ethereum (ERC-4361), gets a session cookie,
and may attach an email preference. Several HTTP routes share three D1 tables
(nonces, sessions, notification preferences), and each route is a sequence of
separately atomic statements between which any other request may run. The model
is a step system: every request has a stage and its own clock readings, every
`select`, `update`, `insert`, `delete` and batch is one step, and a crash is a
request that takes no further step. An event that cannot happen leaves the world
unchanged, so every sequence of events is a run and the theorems quantify over
all of them. No constraint of the schema makes wallets unique among sessions;
one session per wallet and one session per nonce are theorems about the code's
ordering and its conditional update.

**Direct sends.** The send panel moves BIT or pays a Lightning invoice through a
wallet that answers every call as it likes. One guard is shared by both assets,
the review is frozen at click time, confirmations arrive late, and some failures
have to be reported as "status is unknown".

Smaller parts: the calendar and text order behind every expiry test, the browser
half of sign-in, and the latched service of the wallet-session route.

## How it is built

| file | content |
|---|---|
| `Text.dfy`, `IsoTime.dfy`, `IsoRead.dfy`, `Hex.dfy` | binary collation and case, `toISOString` and its reading back, `randomHex` |
| `Store.dfy` | the three tables, their writes, isolation and refinement |
| `SiwePolicy.dfy`, `SendPolicy.dfy` | the policies of lib/siwe-policy.mjs and lib/send.mjs |
| `Account.dfy`, `AccountInvariant.dfy` | the account step system and its invariant |
| `AccountTheorems.dfy`, `AccountPreferences.dfy` | the account results over every run |
| `AccountIsolation.dfy` | one wallet's share of a run, run on its own |
| `StaleRead.dfy` | a run that ends in a read of an expired record |
| `Routes.dfy` | the routes as imperative code on mutable tables, refining the step system |
| `SendPanel.dfy`, `SendTheorems.dfy` | the panel step system and its results |
| `SendCompleteness.dfy` | what the panel does on every answer, and that it refuses no more than it should |
| `SendComponent.dfy` | the component as imperative code, refining the step system |
| `WalletAccount.dfy` | `signIn`, and client and server together |
| `WalletSessionRoute.dfy` | the one-time initializer |

The imperative classes are proved to go through exactly the steps of the step
systems (`State() == Step(...)`, `State() == After(...)`), keep their invariants,
and state the results of the runs they perform: `Routes.Server.PostVerify`, with
arbitrary events of other requests woven between its own steps, returns a token
only to an authenticated sign-in, and `SendComponent.Component.Run` accounts for
every request and every confirmed receipt.

## Premises

- Nonces and minted token hashes are fresh: `randomHex` does not repeat and
  `sha256Hex` does not collide on minted tokens. These are the enabling
  conditions of `IssueNonce` and `MintToken`.
- Each D1 statement and each batch is atomic.
- Server clock readings, and a day after them, lie in the years 0000 to 9999
  (`ClockSample`). `IsoTime.OrderFailsPast9999` shows why a bound is needed, and
  `IsoTime.IsoOrder` gives the exact condition over the whole range of a Date.
- `Faithful`: instants are printed by `toISOString` (section 21.4.4.36 of
  ECMA-262), the field and session policies are those of lib/siwe-policy.mjs, and
  `Date.parse` reads a `toISOString` text back (section 21.4.3.2 of ECMA-262).
  `SiwePolicy.ParserExists` gives one, computed digit by digit.
- The `siwe` package rejects a message whose address is malformed, and the route
  rejects a signature of the wrong shape, so a sign-in begins with both in shape.
- A purge deletes any set of rows already expired at its own reading. This covers
  every choice of at most 100 rows and both callers of the purge.
- Hashing, signature verification and the email helpers are arbitrary functions.
  For sends, the digest has no collisions on frozen transfers (`DigestInjective`);
  where a result says so, checksumming a checksummed address changes nothing
  (`ChecksumStable`) and a transfer's call data tells its recipient and amount
  (`EncodingInjective`).

## Where code and documents differ

docs/EMAIL.md:7 says that an account read removes an expired record before
returning account data. The code sweeps and selects in two statements.
`AccountPreferences.ReadReturnsExpiredExactly` states, for everything that may run
between them, exactly when an expired record comes back: when an upsert of that
wallet's record in the gap ran on a clock a day or more behind the reader's and
nothing later in the gap displaced what it wrote. With every writer's clock less
than a day behind it cannot happen (`AccountPreferences.CurrentReadIsUnexpired`).
`AccountPreferences.StaleWriteIsReturned` is the failing family, and
`StaleRead.StaleReadIsReachable` a run from an empty store that gets there.

## Model

| member | source | states |
|---|---|---|
| `IsoTime.DaysInYear` | lib/siwe-server.ts:98-99 | The day count of ECMA-262 advances by 366 exactly in leap years, for every year |
| `IsoTime.YearOfDay` | lib/siwe-server.ts:98-99 | The year found for any day number, negative ones included, is the one whose days contain it |
| `IsoTime.MonthOf` | lib/siwe-server.ts:98-99 | The month found for a day of the year is the one whose days contain it |
| `IsoTime.FieldsOrder` | lib/siwe-server.ts:98-99 | A later instant has a later year, or the same year and lexicographically later month, date and time fields |
| `IsoTime.IsoOrder` | lib/siwe-server.ts:98-118 | For all instants a Date can hold, text order is time order if and only if the years agree, or the later year is not negative and the pair does not straddle the end of year 9999; texts of distinct instants differ |
| `IsoTime.FourDigitInterval` | lib/siwe-server.ts:66-67 | The four-digit years are one interval of milliseconds, with its end points |
| `IsoTime.FourDigitOrder` | lib/siwe-server.ts:80-118 | In years 0000 to 9999 every `gt`, `lte` and `eq` on timestamp text decides as the comparison of the instants does |
| `IsoTime.OrderFailsPast9999` | lib/siwe-server.ts:80-118 | A pair one millisecond apart across the end of year 9999 that the text comparison orders wrongly |
| `IsoRead.MonthLengths` | lib/siwe-server.ts:98-99 | Every month of the printer's table has the length the Gregorian rules give it, in common and leap years |
| `IsoRead.CivilDayIs` | lib/siwe-server.ts:98-99 | For every year, month and date, the day count of ECMA-262 is that of a closed formula without tables, counted in years that begin in March |
| `IsoRead.FieldsRebuild` | lib/siwe-server.ts:80-81 | The printed fields of every instant are a date of the calendar and a time of day, and rebuild the instant by that formula |
| `IsoRead.PadNumber` | lib/siwe-server.ts:80-81 | Fixed-width printing writes the decimal digits of the number |
| `IsoRead.IsoRoundTrip` | lib/siwe-server.ts:80-81 | Over the whole range of a Date, reading the text digit by digit at its fixed positions gives the instant back |
| `IsoTime.EpochText` | drizzle/0001_mushy_squadron_supreme.sql:1 | The migration's default is the text of instant 0 |
| `Text.PadOrder` | db/schema.ts:9-41 | Fixed-width decimal printing preserves and reflects order on numbers that fit |
| `Text.LowerAddress` | lib/siwe-server.ts:68 | Lower-casing any address gives one that the session policy's pattern accepts |
| `Text.LowerMerges` | lib/siwe-server.ts:68 | Lower-casing merges exactly the texts that agree up to the case of ASCII letters, with case defined by code points |
| `Text.LowerFixes` | lib/siwe-server.ts:68 | It leaves no capital, changes nothing but case, and nothing at all in text without capitals |
| `Text.HexDigits` | lib/siwe-server.ts:89-95 | The digit tests accept exactly the listed hexadecimal digits |
| `Hex.RandomHex` | lib/siwe-server.ts:30-33 | Always two lower-case hexadecimal digits per byte, so 64 of them for 32 bytes |
| `Hex.RandomHexAt` | lib/siwe-server.ts:30-33 | Each byte is written as its high digit, then its low digit, of the usual sixteen |
| `Hex.DecodeRandomHex` | lib/siwe-server.ts:30-33 | Decoding recovers the sampled bytes, for every byte string |
| `Hex.RandomHexDecode` | lib/siwe-server.ts:89-95 | Every text that passes the token gates is the text of its decoded bytes |
| `Hex.RandomHexInjective` | lib/siwe-server.ts:30-33 | Distinct byte strings give distinct texts |
| `Store.OneSessionPerWalletStep` | lib/siwe-server.ts:74-83 | Every write keeps at most one session row per wallet, with no unique constraint to rely on |
| `Store.RowsAreMinted` | lib/siwe-server.ts:74-83 | Every session row was inserted by some batch of the run for that wallet |
| `Store.SessionsAreLatest` | lib/siwe-server.ts:63-91 | After any writes the table keyed by token hash holds exactly each wallet's latest session, as read off the writes alone |
| `Store.WalletIsolation` | lib/siwe-server.ts:74-124 | Dropping every other wallet's operations from any sequence of writes leaves the same sessions and preferences for this wallet |
| `SiwePolicy.ValidateSiweMessageFields` | lib/siwe-policy.mjs:55-89 | The reasons list is empty if and only if all nineteen conditions hold together, stated as one predicate |
| `SiwePolicy.ChallengeWindow` | lib/siwe-policy.mjs:79-87 | On a challenge that expires ten minutes after its creation, the policy holds if and only if the identity fields agree and the times lie in one window; the lifetime limit adds nothing to it |
| `SiwePolicy.ActiveOnMainnetOnly` | lib/siwe-policy.mjs:35-45 | Every row off mainnet or with a capital in its wallet is refused; among the others time alone decides |
| `SiwePolicy.ParserExists` | lib/siwe-policy.mjs:57-61 | A date parser that reads every `toISOString` text back exists and is computed digit by digit, so the premise is consistent |
| `Account.TextClock` | app/api/auth/verify/route.ts:46 | On clock readings the store's text comparisons compare times |
| `Account.TablesAreWrites` | db/schema.ts:3-42 | The tables after any run are its writes applied to the first tables |
| `AccountInvariant.InvStep` | app/api/auth/verify/route.ts:38-72 | Every event of every request keeps the protocol invariant and only extends the history |
| `AccountInvariant.Reachable` | app/api/auth/verify/route.ts:38-72 | The invariant holds after every sequence of events from the first world |
| `AccountInvariant.RunKeepsInv` | app/api/auth/verify/route.ts:38-72 | Every run from a world with the invariant ends in one |
| `AccountInvariant.RunExtends` | app/api/auth/verify/route.ts:38-72 | Whatever a prefix of a run recorded (issues, consumers, minters, requests' progress) still stands at its end |
| `AccountInvariant.CommitIsFresh` | lib/siwe-server.ts:74-83 | In every reachable world the batch inserts a hash that is not in the table, so it never fails on the primary key |
| `AccountTheorems.CommitsOnce` | app/api/auth/verify/route.ts:65-72 | Two batches of one run come from different requests, different nonces and different token hashes |
| `AccountTheorems.OneSessionPerNonce` | app/api/auth/verify/route.ts:39-72 | Over every interleaving of sign-ins, issues, purges and crashes, no two sessions come from one nonce |
| `AccountTheorems.NonceNeverReturns` | app/api/auth/nonce/route.ts:16-26 | A nonce row that was purged never comes back |
| `AccountTheorems.NonceTableExactly` | app/api/auth/nonce/route.ts:16-26 | After every run the nonce table holds exactly the nonces it issued and did not purge |
| `AccountTheorems.FirstUpdateWins` | app/api/auth/verify/route.ts:65-70 | An update consumes if and only if the row is still there and no earlier update of that nonce ran |
| `AccountTheorems.TracedAuthenticated` | app/api/auth/verify/route.ts:38-72 | In any world with the invariant, the request that minted a session passed every check of the route and consumed its nonce |
| `AccountTheorems.SignedInAuthenticated` | app/api/auth/verify/route.ts:38-72 | The same of every request that has been given its token, whether or not its row is still there |
| `AccountTheorems.SessionProvenance` | app/api/auth/verify/route.ts:38-72 | Every session row of every reachable state has exactly one sign-in behind it: issued nonce, unconsumed and unexpired when selected, a message for the site the nonce was issued to, accepted fields on chain 1, verified signature, and `consumedAt` strictly before the stored expiry |
| `AccountTheorems.RunHashesAreFresh` | lib/siwe-server.ts:63-83 | No run inserts one token hash twice |
| `AccountTheorems.SessionTableIsLatest` | db/schema.ts:16-29 | In every reachable state the session table is exactly the map from wallet to its latest session, at most one per wallet |
| `AccountTheorems.WritesIsolation` | lib/siwe-server.ts:74-124 | Restricting the writes of any run to one wallet's gives the same sessions and preferences for that wallet |
| `AccountIsolation.MirrorsStep` | lib/siwe-server.ts:74-124 | Each event, cut down to one wallet, keeps a world that mirrors the full one: same nonces, the wallet's rows, its requests |
| `AccountIsolation.RunIsolation` | app/api/notifications/route.ts:43-94 | Dropping every other wallet's visits, sign-outs, mintings, batches and purged rows from any run and running the rest ends with the same nonces, exactly the wallet's sessions and preferences, and its requests in the same stages |
| `AccountTheorems.SpentTokenStaysOut` | lib/siwe-server.ts:74-91 | A signed-in token whose row is gone stays gone for the rest of the run |
| `AccountTheorems.SpentIsRefused` | lib/siwe-server.ts:88-111 | After replacement, sign-out or purge, every later select in any run refuses the token |
| `AccountTheorems.TokenNeverReturns` | lib/siwe-server.ts:63-111 | A token's row goes absent, present, absent at most once; after that no table holds it and no select finds it |
| `AccountTheorems.RowAcceptedExactly` | lib/siwe-server.ts:106-111 | The text comparison and the session policy together accept a minted row if and only if the reading is less than 86,400,000 ms after the minting |
| `AccountTheorems.AcceptedExactly` | lib/siwe-server.ts:93-111 | A read accepts a well-shaped cookie if and only if its row is present and the reading is within a day of the minting |
| `AccountTheorems.ReadDecidesExactly` | lib/siwe-server.ts:93-111 | Every select of a session read in every run finds its cookie's row if and only if the cookie is well shaped, the row is in the table at that moment and the reading is within a day of the minting; otherwise the request is refused |
| `AccountTheorems.VisitHasRead` | lib/siwe-server.ts:93-111 | Every request that holds a session found that very row in the table, within its day, at an earlier select of its own |
| `AccountTheorems.PurgeSparesLive` | lib/account-maintenance.mjs:60-92 | A purge removes exactly the rows it names; each nonce had been issued ten minutes, each session minted a day before its reading, and no session it removes would still have been accepted |
| `AccountTheorems.SignInRoundTrip` | lib/siwe-server.ts:63-95 | After the batch the token finds the row minted for it for exactly a day, and signing out with it removes that row and no other wallet's |
| `AccountPreferences.VisitActsFor` | lib/siwe-server.ts:93-111 | The session a request holds was opened by a verified sign-in naming its wallet, and the reading is within its day |
| `AccountPreferences.WritesAreAuthorized` | app/api/notifications/route.ts:20-94 | Every preference write, user deletion and sweep of every run is made by a request acting for that very wallet that found its session in the table at an earlier event, even if the session is gone by then |
| `AccountPreferences.PreferenceProvenance` | app/api/notifications/route.ts:28-67 | From an empty store every record is pending and unverified, has a choice set, expires exactly a day after it was written, and holds what a request acting for its wallet asked for after finding its session in the table |
| `AccountPreferences.UpsertWritesExactly` | app/api/notifications/route.ts:28-67 | An upsert stores exactly what was asked, pending and for a day, if the normalized email is accepted and at least one choice is set, and otherwise changes no record |
| `AccountPreferences.ExpiredMeansWritten` | lib/siwe-server.ts:113-124 | After a sweep, the store holds an expired record if and only if the last thing done to it since was to write one |
| `AccountPreferences.WrittenIsLeft` | app/api/notifications/route.ts:43-67 | What any stretch of writes leaves of a record is its last save that no later save, deletion, sweep or purge displaced |
| `AccountPreferences.ReadReturnsStored` | lib/siwe-server.ts:120-139 | Every select of a session read returns exactly the record stored for the session's wallet at that event |
| `AccountPreferences.ReadReturnsExpiredExactly` | lib/siwe-server.ts:113-139 | For everything that may run between sweep and select: the read returns an expired record if and only if an upsert of that wallet in the gap ran on a clock a day or more behind the reading and nothing later in the gap displaced what it wrote |
| `AccountPreferences.CurrentReadIsUnexpired` | lib/siwe-server.ts:98-139 | If every upsert of that record in the gap is less than a day behind the reading, concurrent writes included, nothing expired is returned, and never a record with the migration's default for readings at or after the epoch |
| `AccountPreferences.DefaultIsExpired` | drizzle/0001_mushy_squadron_supreme.sql:1 | The default counts as expired for every reading at or after the epoch |
| `AccountPreferences.StaleWriteIsReturned` | lib/siwe-server.ts:113-124 | The failing family: a writer a day or more behind, between sweep and select, makes the read return an expired record |
| `StaleRead.StaleReadIsReachable` | lib/siwe-server.ts:113-124 | A run from an empty store through a real sign-in to such a read, for every accepted message and every three clock readings with the save a day behind the read and the read inside the session's day |
| `Routes.Server.constructor` | db/schema.ts:3-42 | The server starts with no nonces, no sessions, the stored preferences and no history, which satisfies the invariant |
| `Routes.Server.InsertNonce` | app/api/auth/nonce/route.ts:16-26 | The insert is the issue step: a fresh unconsumed row with a ten-minute expiry |
| `Routes.Server.SelectNonce` | app/api/auth/verify/route.ts:38-51 | The select finds exactly this nonce's row if it is unconsumed and expires after the reading, and otherwise rejects the request |
| `Routes.Server.CheckMessage` | app/api/auth/verify/route.ts:52-63 | The request goes on if and only if field policy, mainnet and signature hold against the row it found |
| `Routes.Server.UpdateNonce` | app/api/auth/verify/route.ts:65-70 | The conditional update consumes if and only if the row is there and unconsumed; otherwise the request is rejected |
| `Routes.Server.MintToken` | lib/siwe-server.ts:63-67 | Token, hash and clock reading become the request's own |
| `Routes.Server.CommitSession` | lib/siwe-server.ts:68-83 | One atomic replacement of the wallet's sessions by the new row |
| `Routes.Server.SelectSession` | lib/siwe-server.ts:93-111 | The gated lookup with both expiry tests is the session read's first step |
| `Routes.Server.SweepPreference` | lib/siwe-server.ts:113-118 | Removes the session's own record if expired, nothing else |
| `Routes.Server.SelectPreference` | lib/siwe-server.ts:120-139 | Returns exactly the record stored for the session's wallet at that moment |
| `Routes.Server.UpsertPreference` | app/api/notifications/route.ts:28-67 | Writes the pending record of the request if and only if its email is accepted and a choice is set, and nothing otherwise |
| `Routes.Server.RemovePreference` | app/api/notifications/route.ts:92-94 | Removes the record of the session's wallet |
| `Routes.Server.SignOut` | lib/siwe-server.ts:88-91 | Removes at most the row of the presented token, and nothing for a malformed cookie |
| `Routes.Server.PurgeExpired` | lib/account-maintenance.mjs:60-92 | Removes exactly the expired rows it names |
| `Routes.Server.Perform` | app/api/auth/verify/route.ts:20-72 | Any event changes the mutable tables exactly as its step does |
| `Routes.Server.Await` | app/api/auth/verify/route.ts:39-72 | A wait is any run of other requests |
| `Routes.Server.ClaimNonce` | app/api/auth/verify/route.ts:38-70 | From the clock reading to the consumed nonce with waits between: the nonce is claimed if and only if it is live before the select, the message passes against the row found there, and the nonce is still unconsumed before the update |
| `Routes.Server.ConsumeNonce` | app/api/auth/verify/route.ts:52-70 | From the selected record on: checked and consumed with waits between, or rejected at the first refusal |
| `Routes.Server.CreateSession` | lib/siwe-server.ts:63-86 | Minting and batch with waits between: a fresh token always gets its session, and the token returned is the one committed |
| `Routes.Server.PostVerify` | app/api/auth/verify/route.ts:38-80 | The whole route, woven with arbitrary other requests, keeps the invariant. A token comes back if and only if the nonce is live before the select, the message passes against the row found, the nonce is still unconsumed before the update and the sampled token is fresh; exactly then all six steps ran, the token is the sampled one, and the request is authenticated for the row of that token |
| `Routes.Server.GetCurrentSession` | lib/siwe-server.ts:93-140 | The whole read is a run of its four steps woven with others; it returns a session if and only if the table accepted the cookie at its own select, and then exactly that row and the record stored at its last select |
| `Routes.Server.PutNotifications` | app/api/notifications/route.ts:20-67 | The session read and then the upsert, woven with others, keep the invariant. A record is saved if and only if the read found the session, the normalized email is accepted and a choice is set; it holds what was asked, for a wallet the request acts for |
| `Routes.Server.DeleteNotifications` | app/api/notifications/route.ts:84-95 | The session read and then the deletion, woven with others, keep the invariant; the deletion happens if and only if the read found the session, for a wallet the request acts for, which then has no record |
| `Routes.WeaveStep` | app/api/auth/verify/route.ts:39-72 | One own step and one wait extend the woven run by exactly those events |
| `Routes.ForeignLeaves` | app/api/auth/verify/route.ts:38-72 | No run of other requests touches a request's own samples and stage |
| `SendPolicy.DispatchPinsContext` | lib/send.mjs:65-107 | Passing the dispatch check means the runtime code hash and the sender are those of the review |
| `SendPolicy.DispatchExactly` | lib/send.mjs:83-107 | The dispatch check accepts exactly an unpaused BIT contract with the reviewed runtime code hash and enough balance |
| `SendPolicy.ResponseExactly` | lib/send.mjs:109-125 | The response check accepts exactly a transaction to the token from the sender, without ether, whose call data is the transfer's up to case |
| `SendPolicy.GenuineIsThisTransfer` | lib/send.mjs:118 | An accepted transaction encodes the reviewed recipient and amount and no other transfer |
| `SendPolicy.PaymentExactly` | lib/send.mjs:127-133 | A payment is reported exactly for a preimage of sixty-four hexadecimal digits, with or without 0x |
| `SendTheorems.InvStep` | app/components/SendPanel.tsx:112-321 | Every click, answer, edit and late confirmation keeps the panel invariant |
| `SendTheorems.Reachable` | app/components/SendPanel.tsx:112-321 | The invariant holds after every schedule |
| `SendTheorems.GuardHeldExactlyInFlight` | app/components/SendPanel.tsx:187-320 | At most one send is in flight across both assets, and the guard is held if and only if one is, so every exit path releases it |
| `SendTheorems.SettlingEnds` | app/components/SendPanel.tsx:187-283 | Every settled call brings a send nearer its end; after at most ten answers it is over, whatever they were |
| `SendTheorems.OneRequestPerClick` | app/components/SendPanel.tsx:247-248 | No two transfer or payment requests of a schedule belong to one accepted click |
| `SendTheorems.SendHasClick` | app/components/SendPanel.tsx:187-190 | Every send goes back to one click that found the guard free, and keeps that click's review |
| `SendTheorems.ReviewShownExactly` | app/components/SendPanel.tsx:123-171 | Finishing a review shows exactly the review of the typed recipient and amount, the connected account and the contract read, frozen over its code; an error if and only if there is none |
| `SendTheorems.InvoiceShownExactly` | app/components/SendPanel.tsx:177-185 | A Lightning review shows exactly the prepared invoice and amount, or an error |
| `SendTheorems.ReviewsAreFrozen` | app/components/SendPanel.tsx:123-185 | Every review ever shown goes back to the form fields it was typed into, and freezes their recipient, amount and code |
| `SendTheorems.PassedSeven` | app/components/SendPanel.tsx:197-245 | The passed checks in front of a transfer, answer by answer |
| `SendTheorems.TransferIsJustified` | app/components/SendPanel.tsx:187-248 | Every transfer request carries the recipient and amount typed into the form and shown in the review it was clicked from, right after chain 0x1, reviewed sender, unpaused BIT with the reviewed code hash and enough balance, a true simulation, and chain and sender once more |
| `SendTheorems.PaymentIsJustified` | app/components/SendPanel.tsx:301-307 | Every WebLN request carries the invoice prepared from the typed text, which still prepares to that invoice and amount |
| `SendTheorems.OutcomeIsSound` | app/components/SendPanel.tsx:272-316 | A failing send shows "status is unknown" if and only if it had asked for money and, for BIT, the code was not 4001; otherwise it shows the failure itself |
| `SendTheorems.ReceiptIsSound` | app/components/SendPanel.tsx:252-310 | The receipt on screen is always that of one ended click on a review typed into the form; for BIT the accepted transaction went to the token from the reviewed sender without ether and encodes exactly that recipient and amount; "opened" exactly where no payment was requested |
| `SendTheorems.ResponseDecides` | app/components/SendPanel.tsx:248-278 | In every schedule a genuine transaction becomes the receipt of the reviewed transfer, and an answer with a wrong target, sender, call data, value or hash ends the send with "status is unknown" |
| `SendTheorems.MinedHasEvent` | app/components/SendPanel.tsx:261-262 | A recorded confirmation was delivered with status 1 for the hash its send was waiting on |
| `SendTheorems.ConfirmedMeansMined` | app/components/SendPanel.tsx:261-268 | A receipt marked confirmed names a hash delivered as mined with status 1 to a send whose transaction had been accepted under it |
| `SendTheorems.LateConfirmationIsLocal` | app/components/SendPanel.tsx:261-271 | A late confirmation marks the receipt confirmed if and only if it is a status-1 result for the awaited hash and the receipt names that hash; it confirms no other receipt, revives no cleared one and changes nothing else shown |
| `SendTheorems.RunIsAccounted` | app/components/SendPanel.tsx:112-321 | After every schedule: exact guard, one request per click, every request following from its own click, and a confirmed receipt delivered as mined |
| `SendCompleteness.ClickDecides` | app/components/SendPanel.tsx:187-299 | Nothing happens while the guard is held; otherwise a click takes the guard and waits for the wallet, or without one fails or leaves the invoice to a link |
| `SendCompleteness.PassingSendAsks` | app/components/SendPanel.tsx:77-248 | A send whose checks all pass, after a chain switch or without, asks for the transfer of exactly the reviewed recipient and amount |
| `SendCompleteness.EnabledAsksExactly` | app/components/SendPanel.tsx:301-316 | An enabled provider is asked for the frozen invoice if and only if it still prepares to itself and its amount; otherwise the send ends explained and without a request |
| `SendCompleteness.PaymentDecides` | app/components/SendPanel.tsx:307-320 | An answered payment becomes a receipt for the reviewed amount, reported if and only if its preimage is well formed |
| `SendCompleteness.ThrowDecides` | app/components/SendPanel.tsx:272-320 | A call that throws ends its send whatever it waited for, sets the error line by the unknown-status rule, releases the guard and changes nothing else |
| `SendCompleteness.ViewDecides` | app/components/SendPanel.tsx:103-116 | Tabs and edits clear error and receipt, closing clears the review unless a send is under way, and nothing else changes |
| `SendComponent.Component.constructor` | app/components/SendPanel.tsx:90-99 | The component starts in the first panel state, which satisfies the invariant |
| `SendComponent.Component.ChooseAsset` | app/components/SendPanel.tsx:112-116 | Switching tabs clears error and receipt and leaves guard, review and sends |
| `SendComponent.Component.EndBitReview` | app/components/SendPanel.tsx:123-171 | Shows a review exactly when every reviewed condition holds, and an error otherwise |
| `SendComponent.Component.ReviewLightningSend` | app/components/SendPanel.tsx:177-185 | Shows the prepared invoice and amount, or an error |
| `SendComponent.Component.OnClick` | app/components/SendPanel.tsx:187-301 | A click is ignored while the guard is held; otherwise it takes the guard and starts, fails, or hands over to a lightning: link, whose own failure is caught and releases the guard |
| `SendComponent.Component.Finally` | app/components/SendPanel.tsx:279-282 | Releases guard and busy flag and records the outcome |
| `SendComponent.Component.Catch` | app/components/SendPanel.tsx:272-282 | Sets the error line by the unknown-status rule, then releases |
| `SendComponent.Component.OnSettle` | app/components/SendPanel.tsx:197-310 | From one await to the next, the component moves exactly as the step system does |
| `SendComponent.Component.RequestTransfer` | app/components/SendPanel.tsx:239-248 | The transfer is requested only on chain 0x1 with the reviewed account first, and with the review's recipient and amount |
| `SendComponent.Component.RequestPayment` | app/components/SendPanel.tsx:301-307 | The payment is requested only if the frozen invoice prepares to itself and its amount |
| `SendComponent.Component.RecordPayment` | app/components/SendPanel.tsx:307-319 | The answer becomes a receipt by its preimage, and the guard is released |
| `SendComponent.Component.Recheck` | app/components/SendPanel.tsx:197-237 | Each re-read either waits for the next call or fails, as its check says |
| `SendComponent.Component.AcceptTransaction` | app/components/SendPanel.tsx:249-259 | Only a response that matches the frozen transfer becomes a receipt |
| `SendComponent.Component.OnMined` | app/components/SendPanel.tsx:261-268 | The confirmation callback is its step |
| `SendComponent.Component.Handle` | app/components/SendPanel.tsx:112-321 | Any event changes the component exactly as its step does and keeps the invariant |
| `SendComponent.Component.Run` | app/components/SendPanel.tsx:112-321 | Any schedule is a run of the step system and keeps the invariant; from the first state on, the guard is held exactly while one send is in flight, every request made follows from its own click, and a confirmed receipt was delivered as mined |
| `WalletAccount.SignIn` | app/components/WalletAccount.tsx:99-143 | For an arbitrary wallet the verify request is posted if and only if chain 0x1 was read before and after signing and the account after signing agrees with the message's up to case, and then with that message and signature |
| `WalletAccount.PostedSessionIsForSigner` | app/components/WalletAccount.tsx:133-143 | In every run, a session opened by a posted message is for the account active after signing, with its capitals lowered and nothing else changed, on chain 1, authenticated as every session is |
| `WalletAccount.SignersShareWalletExactly` | lib/siwe-server.ts:68-83 | One signer's batch replaces another's session if and only if their addresses agree up to case |
| `WalletAccount.AnsweredBuilds` | lib/account.mjs:11-18 | The server's challenge always fits the client: a message is built from it if and only if the domain is the origin's host and the account an address |
| `WalletAccount.BuiltMessagePasses` | lib/account.mjs:11-18 | A message built from the server's own challenge passes the field policy if and only if both clocks are inside its window |
| `WalletAccount.ClaimExactly` | app/api/auth/verify/route.ts:38-70 | Undisturbed, the nonce is claimed if and only if it is live and the message is accepted |
| `WalletAccount.IssuedChallengeIsClaimedExactly` | app/api/auth/nonce/route.ts:13-28 | Issue, client message and verify composed: the nonce is claimed if and only if the signature verifies and both clocks are inside the ten minutes, the client's at most thirty seconds ahead |
| `WalletAccount.UndisturbedSignIn` | app/api/auth/verify/route.ts:38-72 | From any world with the invariant, an accepted sign-in nobody disturbs replaces its wallet's sessions by one row, accepted for exactly a day |
| `WalletSessionRoute.Route.constructor` | app/api/internal/wallet-session-read/route.ts:13-15 | The latch starts open, with no call of the factory |
| `WalletSessionRoute.Route.RuntimeService` | app/api/internal/wallet-session-read/route.ts:17-31 | The factory is called only if it never was; the latch then keeps the instance or the failure |
| `WalletSessionRoute.Route.Post` | app/api/internal/wallet-session-read/route.ts:33-41 | The response is a reply if and only if the latched instance gives that reply, and the unavailable response otherwise |
| `WalletSessionRoute.Route.Serve` | app/api/internal/wallet-session-read/route.ts:13-41 | Over any sequence of requests the factory runs at most once; each response is the first instance's reply to that request, and unavailable where it has none or the construction failed |

## Left out

- Origin checks, `requestIdentity` and the account capability gate: a request enters the model once it has passed them.
- Cookie attributes, HTTP framing, error wording beyond the unknown-status rule, and the display-only expiry in the verify response.
- The printing and parsing of ERC-4361 text, which the `siwe` package does; messages are modelled by their fields, and an undefined resources list by an empty one.
- SHA-256, Keccak, ECDSA and random generation: freshness and collision premises stand for them.
- Email normalization and the address pattern: arbitrary functions; with arbitrary ones the results hold for these too.
- `ownsNotificationRecord`: always true for a record selected by the session's own wallet, so the select does not repeat it.
- The purge's limit of 100 rows, its order and `moreWorkPossible`: the model lets a purge take any set of expired rows.
- Case folding outside ASCII, and the exception `toISOString` throws for an invalid Date, which a clock reading never is.
- SendComponent.Component.EndBitReview: the awaits inside `reviewBitSend` are not separate steps; one event finishes a review with every answer it read, another fails it. The `preparing` flag and the form fields are left out.
- React's batching of state setters: setters take effect in order.
- `prepareBitSend` and BOLT11 parsing: arbitrary functions of the form fields.
- `WalletAccount`'s other state: saving and detaching the email, signing out and the notices are thin calls of the routes.
- Progress of wallets, networks and D1: safety, and release once awaited calls settle.
- The other subsystems under `lib/` (coordinator, contract intents, Lightning adapter, monitors) and the contracts.
- Routes.Server.CreateSession: a repeated token is outside its precondition, because freshness of tokens is a premise.
- Routes.Server.PostVerify: if the sampled token repeats, it stops before minting instead of minting, because freshness of tokens is a premise.
