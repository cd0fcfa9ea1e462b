# The money engine of the CBDC simulator, in Dafny

This project models the backend's money engine and the layers that keep it exactly-once, and proves what they keep.
The original is Go over PostgreSQL and Redis; its files are cited below by path and line.

**Ledger** (`LedgerModel`, `LedgerMachine`, `LedgerClient`, `LedgerBooks`, `LedgerRuns`, `LedgerProgress`,
`LedgerLone`, `LedgerAnswers`, `LedgerService`). `Transfer` and `Issue` are database transactions of ten or so repository calls. `LedgerModel` gives the meaning of each
call: locked reads see the newest committed row, writes stay private until commit, and every constraint of the schema
(unique sender and key, non-negative balance, entry and issuance checks, BIGINT range, column widths, foreign keys to
wallets) can refuse a statement. `LedgerMachine` interleaves any number of calls, one repository call at a time: a client
is a program counter with its held row locks and its uncommitted writes, any call may fail, and a commit may report an
error before or after it took effect. Wallets may be opened, frozen and deleted in between. The whole committed history
is compared with running each committed operation whole and alone, and a call that does run alone is shown to end as the
whole operation does. `LedgerService` is the same two operations as they
are written, with early returns and the deferred rollback, proved against that one-step meaning for every single failing
call. `LedgerAnswers` then says, on the stored rows and the call's own parameters alone, what is written down and what
each caller is told; `MerchantAnswers` does the same for scans, payments and cancellations.

**Payments** (`Idempotency`, `PaymentMachine`, `PaymentService`). `Send` layers a Redis cache over the ledger's own key
check. Entries may vanish or rot, Redis may fail at either end, calls race and retry, administrators store replies of
their own, and other Redis users write other keys.

**Merchant requests and the `cbdc://` code** (`Uuids`, `Text`, `Url`, `QrCode`, `SignedText`, `MerchantModel`,
`MerchantMachine`, `MerchantAnswers`, `MerchantDouble`, `MerchantService`). The URI printer and parser are modelled down
to percent escapes (section 2.1 of RFC 3986, with `+` for a space as in section 5 of the WHATWG URL Standard) and UUID
text (section 4 of RFC 9562). Payment requests change status by conditional updates; in a payment the transfer and the update are two separate atomic
steps, which race with cancellations, other payers and the whole ledger machine.

**Smaller machines.** `Lockout` (failed logins), `Sessions` (refresh tokens), `Hub` with `HubRuns`
(WebSocket queues), `RateLimit` (Redis counter) and `Display` (integer printer and amount texts) each have the code as
methods over mutable state, proved against a specification function, and then theorems about every run of that function. `LockoutRaces` and
`SessionRaces` split a login and a refresh into their separate statements and let them overlap.

A run is any finite sequence of actions; an action that is not enabled leaves the state as it is, so every sequence is a
run. In the machines over the ledger a "call" that fails is the client's `Fail` step.

## Where the code differs from its own words

The model follows the code.

- `IncrWithExpiry` says the expiry is set only once (`backend/pkg/redis/client.go:86-91`), but `Expire` is sent without
  NX, so every request moves it. `RateLimit.AdmittedExactlyWhen` states what follows: the count restarts only after a
  pause of a whole window, and refused requests count too.
- `RefreshToken` says reuse of a rotated token revokes all sessions (`backend/internal/auth/service.go:233-235`); the
  code logs and refuses, and `Sessions.EndedIsRefused` states that the stored sessions stay as they are.
- `MarkPaid` is said to prevent double payment (`backend/internal/merchant/service.go:293`,
  `backend/internal/merchant/repository.go:157-158`). The transfer precedes it and its error is only logged, so it
  prevents a second record, not a second payment: from every state with an open request, two payers who both look
  before either marks both pay (`MerchantDouble.DoublePayment`; only then, `MerchantDouble.LooksBeforeAnyRecord`; such a
  run from the empty system, `MerchantDouble.DoublePaymentHappens`). `MerchantMachine.MarkRecordsExactlyWhen` states
  exactly when a payment is recorded.
- A token is meant to be used once, but refreshes that race fork their login (`SessionRaces.RacingRefreshesFork`);
  `SessionRaces.ForksExactlyWhen` and `SessionRaces.AcceptsExactlyWhen` state exactly when.
- A request's lifetime in nanoseconds wraps past 292 years (`backend/internal/merchant/service.go:128`):
  `MerchantModel.LifetimeExactlyWhen` states exactly when. Some longer lifetimes are refused
  (`MerchantModel.LongLifetimeIsRefused`), others are stored and expire at once (`MerchantModel.LongLifetimeIsShort`).
- A ledger replay carries the original transaction and no balances (`backend/internal/ledger/service.go:71`), so `Send`
  answers a replay with balance 0; `PayViaQR` returns a replay as an error.
- `formatBalance` prints amounts between -99 and -1 without a sign, unlike `currency.Format`;
  `Display.SameBalanceTextExactlyWhen` states exactly which amounts share a text.
- `"%02d"` of the least int64 prints a second minus sign (`Display.FormatOfLeast`).
- The comment on `broadcast` says copying the room prevents a race with unregistering
  (`backend/internal/websocket/hub.go:123-124`). It does for the map, but the channel may be closed before the send:
  `HubRuns.PanicsExactlyWhen` states exactly when.
- Nothing writes status EXPIRED. It is modelled as a status a row could have.

## Assumptions

- A transaction id, a refresh token's hash and a request id are new when drawn.
- HMAC-SHA256 is any function from key and text to 64 lower-case hexadecimal characters.
- Database times are whole microseconds in `Lockout`, nanoseconds in the merchant modules; clocks do not run backwards.
- Login and refresh are check-then-act in the code: `Lockout` and `Sessions` run one call at a time per account, and
  `LockoutRaces` and `SessionRaces` say what is left when calls overlap.
- In `HubRuns`, each client registers once. A panic ends its broadcast and no more only where a request handler
  broadcasts (`backend/internal/websocket/hub.go:114`), because the server recovers handlers. The server always gives
  its hub Redis (`backend/cmd/server/main.go:149`), and a panic in the Redis subscriber
  (`backend/internal/websocket/hub.go:59`) ends the process and with it the run. What `HubRuns.DeliveredInOrder` and
  `HubRuns.MissedOnlyWhen` say of steps after a panic is about handlers.
- Wallet ids are never ids of administrators (the cache scopes both by UUID text).

## Model

| member | source | states |
|---|---|---|
| LedgerRuns.Serialisable | backend/internal/ledger/service.go:79-182 | for every interleaving with failures and lost commit replies, the committed rows equal those of running the committed operations one at a time, whole, in commit order, and none fails in that serial run |
| LedgerRuns.BooksBalance | backend/internal/ledger/service.go:121-164 | in every reachable state the balances sum to the settled issuances, each lies in 0 to the BIGINT maximum and equals the wallet's credits minus debits, its entries chain from 0 to it, and every transaction is settled with exactly its own entries and issuance row |
| LedgerRuns.ExactlyOncePerKey | backend/migrations/000005_create_transactions.up.sql:41 | at most one committed transaction has a given sender and key, and it has one debit and one credit |
| LedgerRuns.SameKeySameAnswer | backend/internal/ledger/service.go:64-76 | racing and retried calls with one sender and key that succeed or replay all name the same transaction |
| LedgerRuns.InsertNeverWaits | backend/internal/ledger/service.go:135-146 | the unique index never makes an insert wait, because whoever inserts holds the sender's row lock |
| LedgerRuns.AllOrNothing | backend/internal/ledger/service.go:83-88 | a client's step either leaves the committed rows alone or commits its whole operation, and a failed or unfinished call commits nothing |
| LedgerRuns.FailureCommitsNothing | backend/internal/ledger/service.go:83-174 | over whole runs, a call that replays, is refused or fails before its commit has committed nothing |
| LedgerRuns.AnswersAreRecorded | backend/internal/ledger/service.go:171-182 | a reported success is a committed settled transaction and its reported balances are those its own entries recorded; a replay names a committed transaction of that sender and key |
| LedgerRuns.OtherWalletsKept | backend/internal/ledger/service.go:114-164 | a committed operation adds one settled transaction, changes no wallet but its parties, and its parties were live and not frozen |
| LedgerRuns.CommitIsPerform | backend/internal/ledger/service.go:171-174 | at its commit, a client's accumulated writes are exactly what the operation does when run whole on the rows committed at that moment |
| LedgerRuns.Frame | backend/internal/ledger/repository.go:38-53 | all a client relied on stays true while the rows it has locked are unchanged and its insert is still allowed |
| LedgerRuns.StepKeepsInv | backend/internal/ledger/service.go:52-182 | every action of every client keeps the invariant of locks, writes, ids and outcomes |
| LedgerRuns.StepOnlyAdds | backend/internal/ledger/repository.go:57-108 | committed transactions and entries are only ever added to, and a started call keeps its operation and id |
| LedgerClient.AdvanceKeepsClient | backend/internal/ledger/service.go:95-169 | after every repository call a client's checks and writes are those its program counter stands for, judged on the committed rows |
| LedgerBooks.SerialKeepsBooks | backend/internal/ledger/service.go:121-164 | every serial history keeps the books: conservation, ranges, balance chains, exact records, unique keys |
| LedgerBooks.TransferKeepsBooks | backend/internal/ledger/service.go:148-164 | a whole transfer keeps the books |
| LedgerBooks.IssueKeepsBooks | backend/internal/ledger/service.go:224-242 | a whole issuance keeps the books |
| LedgerBooks.ChainTelescopes | backend/migrations/000006_create_ledger_entries.up.sql:6-7 | in a chain of entries the last balance is the sum of credits minus debits |
| LedgerProgress.NoDeadlock | backend/internal/ledger/service.go:90-95 | in every reachable state with an unfinished client some client has an enabled call |
| LedgerProgress.SomebodyMoves | backend/internal/ledger/service.go:90-104 | from any waiting client, following lock holders upward in UUID order reaches one that can go on |
| LedgerProgress.StepUsesUp | backend/internal/ledger/service.go:52-182 | every effective client step uses up remaining steps |
| LedgerProgress.CallsRunOut | backend/internal/ledger/service.go:52-182 | without new calls only a bounded number of client steps can happen |
| LedgerProgress.EveryRunCanFinish | backend/internal/ledger/service.go:90-95 | from every reachable state there is a run of calls that finishes every client |
| LedgerLone.LoneCallIsPerform | backend/internal/ledger/service.go:52-182 | after any run that left no call open, a new call made alone commits and reports the whole operation, with its balances, exactly when its key is new and the whole operation succeeds; it replays a known key, and otherwise is refused with the whole operation's error and nothing changes |
| LedgerLone.AdvanceAlike | backend/internal/ledger/service.go:95-169 | wherever a repository call refuses, the whole operation run on the same rows is refused with the same error |
| LedgerLone.StepAlone | backend/internal/ledger/service.go:52-182 | with no other call open the next step is never blocked: it ends the call as the whole operation ends, or goes on and changes nothing else |
| LedgerAnswers.RecordedAsAsked | backend/internal/ledger/service.go:60-146 | however calls interleave, a call that reports success has a committed row with its own parties, amount, type (TRANSFER if none was named), key and reference (NULL if empty) and signature; an issuance has its own issuance row with administrator and reason |
| LedgerAnswers.LoneTransferAnswers | backend/internal/ledger/service.go:52-183 | after any run that left no call open, a transfer made alone is told, on its parameters and the stored rows: zero amount, same wallet, the replay of its key, a missing wallet, a frozen one, too little money, a column or range that does not fit, or success with its row and both balances, each in exactly its case |
| LedgerAnswers.LoneIssueAnswers | backend/internal/ledger/service.go:188-255 | the same for an issuance |
| LedgerMachine.LockOrderIsSymmetric | backend/internal/ledger/service.go:264-274 | both directions of a transfer lock the same two wallets in the same ascending order |
| LedgerModel.GetTransactionByIdempotencyKey | backend/internal/ledger/repository.go:164-183 | finds a committed transaction with this sender and key exactly when there is one |
| LedgerService.PgTx.Rollback | backend/internal/ledger/service.go:83-88 | drops the writes of an open transaction and is a no-op on a closed one |
| LedgerService.Repository.BeginTx | backend/internal/ledger/repository.go:26-28 | opens a fresh transaction without locks or writes, or fails |
| LedgerService.Repository.LockWallet | backend/internal/ledger/repository.go:38-53 | locks and returns the newest committed row, or refuses a missing or deleted one |
| LedgerService.Repository.InsertTransaction | backend/internal/ledger/repository.go:57-88 | adds the row to the uncommitted writes when every constraint allows it |
| LedgerService.Repository.AddToBalance | backend/internal/ledger/repository.go:111-125 | moves the balance within 0 and the BIGINT maximum and returns the new one |
| LedgerService.Repository.InsertEntry | backend/internal/ledger/repository.go:91-108 | adds an entry with positive amount and non-negative balance for a known wallet and transaction |
| LedgerService.Repository.Settle | backend/internal/ledger/repository.go:128-140 | turns the transaction's own row to SETTLED |
| LedgerService.Repository.InsertIssuance | backend/internal/ledger/repository.go:143-161 | adds an issuance row within the cap for a known wallet and transaction |
| LedgerService.Repository.CommitTransaction | backend/internal/ledger/service.go:172-174 | publishes all writes at once; a failing commit may have taken effect |
| LedgerService.TransferOutcome | backend/internal/ledger/service.go:135-169 | on two locked rows that passed the rules, a transfer is refused exactly by the insert's constraints or the receiver's range |
| LedgerService.Service.Transfer | backend/internal/ledger/service.go:52-183 | a known key is replayed without effect; otherwise the whole transfer happens or nothing does, for every single failing call; the row it reports is the one row added and carries its own type, reference, key, parties, amount and signature |
| LedgerService.Service.LockParties | backend/internal/ledger/service.go:95-112 | both rows are locked in text order and mapped back to sender and receiver |
| LedgerService.Service.PostTransfer | backend/internal/ledger/service.go:125-169 | the writes from PENDING to SETTLED are exactly those of the whole transfer |
| LedgerService.Service.Issue | backend/internal/ledger/service.go:188-255 | the whole issuance happens or nothing does, for every single failing call; its row carries its own wallet, amount and signature, its issuance row administrator and reason |
| LedgerService.Service.PostIssue | backend/internal/ledger/service.go:213-242 | the writes from PENDING to the issuance row are exactly those of the whole issuance |
| Idempotency.BuildKeyInjective | backend/pkg/idempotency/idempotency.go:106-108 | over UUID scopes and arbitrary keys, one Redis key means one scope and one key |
| Idempotency.BuildKeyEqualExactlyWhen | backend/pkg/idempotency/idempotency.go:106-108 | for scopes and keys of any text, two pairs share a Redis key exactly when they are the same or the longer scope is the shorter one continued past a separator by what the other key begins with |
| Idempotency.Store.Check | backend/pkg/idempotency/idempotency.go:57-76 | a hit exactly when Redis answers, the key is there and its bytes decode, and then with the stored reply |
| Idempotency.Store.StoreReply | backend/pkg/idempotency/idempotency.go:80-102 | a taken key keeps its value, a free key gets this reply, no other key changes, and a Redis error changes nothing |
| Idempotency.FirstReplyIsServed | backend/pkg/idempotency/idempotency.go:97-101 | however many replies race to be stored, a key that was taken answers as before and a free one answers with the first reply stored under it |
| PaymentMachine.CacheAgreesWithLedger | backend/internal/payment/service.go:79-129 | after every run with losses, errors and races, a live entry for a wallet and key names exactly the ledger's transaction for them and the balance its debit left |
| PaymentMachine.AnswersAgree | backend/internal/payment/service.go:79-124 | first execution, cache hit and ledger replay all answer with the one transaction the ledger has for that wallet and key |
| PaymentMachine.CallAnswers | backend/internal/payment/service.go:79-129 | in every reachable state a live entry answers a call as it stands; a transfer that went through is answered with the balance its debit left and stored under its own key if that is free; a replay is answered with balance 0; any other error refuses |
| PaymentMachine.StepKeepsInv | backend/internal/payment/service.go:63-129 | every action keeps the agreement of cache, calls and ledger |
| PaymentService.Service.Send | backend/internal/payment/service.go:63-129 | a rejected request and a cache hit touch nothing; a new transfer is answered with its balance and cached; a replay is answered with balance 0 and not cached; an error caches nothing; each rejection is given in exactly its case, and a request in none of them is not rejected |
| Uuids.StringShape | backend/internal/ledger/service.go:268-269 | UUID text has 36 characters: hyphens at positions 8, 13, 18 and 23 and nowhere else, hexadecimal digits at exactly the others |
| Uuids.TextOrderIsByteOrder | backend/internal/ledger/service.go:270 | comparing UUID texts compares their bytes, and equal texts mean equal ids |
| Uuids.LockOrderIsStrictTotal | backend/internal/ledger/service.go:267-274 | the lock order is irreflexive, transitive and total |
| Uuids.ParseString | backend/pkg/qrcode/qrcode.go:73-76 | parsing a UUID's text gives the UUID back |
| Uuids.ParseExactlyWhen | backend/pkg/qrcode/qrcode.go:73-76 | a 36-character text is read as a UUID exactly when it is that UUID's text with letters of either case |
| Text.ParseIntExactlyWhen | backend/pkg/qrcode/qrcode.go:78-86 | a text is read as a number exactly when it is an optional sign and digits that denote this int64 |
| Text.ParseFormatInt | backend/pkg/qrcode/qrcode.go:78-86 | every int64 is read back from its decimal text |
| Url.UnescapeEscape | backend/pkg/qrcode/qrcode.go:53 | every byte string survives query escaping and unescaping |
| Url.EscapeOne | backend/pkg/qrcode/qrcode.go:53 | a letter, digit or one of -_.~ stands for itself, a space becomes a plus, any other byte a percent sign and its two upper-case hexadecimal digits |
| Url.EscapeJoins | backend/pkg/qrcode/qrcode.go:53 | bytes are escaped one by one |
| Url.ParseEncode | backend/pkg/qrcode/qrcode.go:53-71 | parsing an encoded query gives the same pairs in the same order |
| QrCode.KeysAscend | backend/pkg/qrcode/qrcode.go:41-53 | the pairs stand in the key order in which the query is encoded |
| QrCode.CodeReads | backend/pkg/qrcode/qrcode.go:37-54 | the printed URI, character by character: amount, escaped description if any, expiry, merchant, escaped reference if any, and the MAC of merchant, amount and expiry |
| QrCode.ParseAnswers | backend/pkg/qrcode/qrcode.go:58-101 | a text is read as a code exactly when its scheme is cbdc, its host pay, its merchant a UUID, its amount a positive int64, its expiry an int64 and its signature not blank, and then with these fields; each other case has its own error |
| QrCode.TrimSpaceTrims | backend/pkg/qrcode/qrcode.go:88-91 | trimming takes white space from both ends, and all of it |
| QrCode.VerifiesExactlyWhen | backend/pkg/qrcode/qrcode.go:104-115 | a code passes exactly when it has not expired and its signature is the MAC, under this key, of its own merchant, amount and expiry; an expired one is told so first, any other has an invalid signature |
| QrCode.RoundTrip | backend/pkg/qrcode/qrcode.go:37-101 | for every merchant, positive int64 amount, arbitrary reference and description bytes and expiry, parsing the built URI gives the same fields, with the expiry cut to whole seconds |
| QrCode.BuiltVerifies | backend/pkg/qrcode/qrcode.go:104-115 | a parsed built URI verifies exactly while now is not after that second, for every expiry a time can hold |
| QrCode.InstantExactlyWhen | backend/pkg/qrcode/qrcode.go:98 | for every int64 second the parsed time is that second exactly up to the last one a time can count to; a later one is compared as a time 2^64 seconds earlier |
| QrCode.LateExpiryIsExpired | backend/pkg/qrcode/qrcode.go:104-107 | so a URI with a later expiry is expired at every time since 1970, however it is signed |
| QrCode.BuildURIInjective | backend/pkg/qrcode/qrcode.go:37-54 | distinct merchants, amounts, texts or expiry seconds give distinct URIs |
| SignedText.UriMessageInjective | backend/pkg/qrcode/qrcode.go:118-119 | the signed text of a URI determines merchant, amount and expiry |
| SignedText.TamperedExactlyWhen | backend/pkg/qrcode/qrcode.go:104-119 | a printed code whose merchant, amount or expiry is changed while its signature is kept signs another text, and is answered with an invalid signature exactly when the MAC tells the two texts apart |
| SignedText.TransactionMessageFields | backend/pkg/crypto/crypto.go:54-57 | cut at its separators, the signed text of a transaction is its five fields in order |
| SignedText.TransactionMessageInjective | backend/pkg/crypto/crypto.go:54-57 | the signed text of a transaction determines its five fields when the texts hold no separator |
| SignedText.TransactionMessageEqualExactlyWhen | backend/pkg/crypto/crypto.go:54-57 | for texts of any kind, two transactions share a signed text exactly when amounts and times agree and the three texts agree once joined |
| SignedText.QRPayloadMessageFields | backend/pkg/crypto/crypto.go:72-74 | cut at its separators, the signed text of a QR payload is wallet, amount, reference and expiry in order |
| SignedText.QRPayloadMessageInjective | backend/pkg/crypto/crypto.go:72-74 | the signed text of a QR payload determines its fields even when the reference holds separators |
| MerchantModel.ListIsFirstPage | backend/internal/merchant/repository.go:217-273 | the listing a scan goes through is the first page of the merchant's rows of the wanted status: newest first, none skipped, up to the limit |
| MerchantModel.Wanted | backend/internal/merchant/repository.go:229-240 | exactly the merchant's rows of the wanted status |
| MerchantModel.PagesAreNewestFirst | backend/internal/merchant/repository.go:217-256 | pages read one after another, whatever limit was asked for, give the rows newest first, each once and none skipped, and enough pages give all of them |
| MerchantModel.PagesExactly | backend/internal/merchant/repository.go:217-227 | a limit of 1 to 100 is kept and any other becomes 20; pages count from 1 and each begins where the one before it ends |
| MerchantModel.Match | backend/internal/merchant/service.go:350-365 | finds the first listed row with the payload, or there is none |
| MerchantModel.LifetimeExactlyWhen | backend/internal/merchant/service.go:128 | for every int64 a request lives as many seconds as asked for, or the default, exactly up to 9223372036 seconds |
| MerchantModel.LongLifetimeIsRefused | backend/migrations/000008_create_payment_requests.up.sql:24 | a lifetime of 9223372037 seconds wraps below zero and the table refuses the row |
| MerchantModel.LongLifetimeIsShort | backend/internal/merchant/service.go:128 | a lifetime of 18446744074 seconds wraps above zero: wherever a one-second request is stored it is stored, and expires 290448384 ns later |
| MerchantMachine.PaidMeansPaidAlways | backend/internal/merchant/service.go:232-302 | in every reachable state a PAID request points to a settled PAYMENT of its amount from its payer to the owning merchant's wallet, recorded before it expired, and no other request points anywhere |
| MerchantMachine.NoTransactionOnTwoRequests | backend/internal/merchant/service.go:293-302 | no transaction is ever recorded on two requests |
| MerchantMachine.LifeCycle | backend/internal/merchant/repository.go:159-207 | over any later run a row keeps its offer, and once not PENDING it never changes again: PAID and CANCELLED absorb, and payer, transaction and time stay |
| MerchantMachine.StepLivesOn | backend/internal/merchant/repository.go:159-207 | each step only appends rows, or cancels a pending row, or pays a pending row before it expires |
| MerchantMachine.MarkRecordsExactlyWhen | backend/internal/merchant/service.go:293-302 | money that moved is recorded exactly when the request is still pending, unexpired and the update does not fail; otherwise no row changes though the transfer stands |
| MerchantMachine.SecondPayerIsNotRecorded | backend/internal/merchant/service.go:284-302 | two calls that have both paid for one pending request: both settled payments stand, the first to mark is recorded, and the other's transaction is on no request |
| MerchantAnswers.VerifyAnswers | backend/internal/merchant/service.go:232-260 | in every reachable state the scan goes on exactly with a good code of a known, active merchant who is not the payer and has a wallet, and refuses every other case with its own error: an inactive merchant's code is answered so and moves nothing |
| MerchantAnswers.PayersCodeWasGood | backend/internal/merchant/service.go:232-260 | whoever is past the verification in any reachable state scanned a code that carried the system's own MAC, had not expired and named an active merchant other than the payer when it was verified |
| MerchantAnswers.LookAnswers | backend/internal/merchant/service.go:262-278 | the row a look finds is paid if it is pending and refused as paid, expired or cancelled otherwise; none found means the next listing, then not found |
| MerchantAnswers.BeginsAsAsked | backend/internal/merchant/service.go:280-288 | in every reachable state the transfer a call begins is a PAYMENT from the payer's wallet to the owning merchant's, of the request's amount, with its reference and the caller's key |
| MerchantAnswers.CollectAnswers | backend/internal/merchant/service.go:280-292 | a transfer that went through goes on to its mark; a replay and any other error end the call |
| MerchantAnswers.CancelledExactlyWhen | backend/internal/merchant/repository.go:192-207 | in every reachable state a step cancels a request exactly when it is its own merchant's cancellation of it while it is pending, and then changes nothing else |
| MerchantDouble.DoublePayment | backend/internal/merchant/service.go:262-302 | from every reachable state with an open request and no ledger call under way, for any two payers who can each pay it: when both look before either marks, both settled payments stand in the merchant's wallet, the row keeps the first, and the second transaction is on no request |
| MerchantDouble.LooksBeforeAnyRecord | backend/internal/merchant/service.go:262-278 | and only then: whoever goes on to a transfer found the request pending at its look and at every moment before, so no payment had been recorded on it |
| MerchantDouble.DoublePaymentHappens | backend/internal/merchant/service.go:262-302 | such a run from the empty system: two payers are issued the amount, the merchant asks for it once, and both pay |
| MerchantDouble.BothLooked | backend/internal/merchant/service.go:233-278 | two scans of an open request's own code both verify, find it pending and go on to their transfers |
| MerchantMachine.TransfersOnlyForPending | backend/internal/merchant/service.go:262-278 | a call goes on to its transfer only from a row that is pending at that moment and carries the scanned payload and merchant |
| MerchantMachine.NobodyPaysThemselves | backend/internal/merchant/service.go:245-260 | at no step does a call pay a merchant account of its own user |
| MerchantMachine.OfferMatchesScan | backend/internal/merchant/service.go:262-268 | the row found by payload has the merchant and amount the scanned URI says |
| MerchantMachine.StepKeepsInv | backend/internal/merchant/service.go:232-302 | every action of payers, merchants, clock and ledger keeps the invariant |
| MerchantService.Repository.FindByID | backend/internal/merchant/repository.go:47-75 | the stored merchant, not found, or a failing query |
| MerchantService.Repository.CreatePaymentRequest | backend/internal/merchant/repository.go:112-132 | appends the row exactly when every constraint of the table allows it and the insert does not fail |
| MerchantService.Repository.MarkPaid | backend/internal/merchant/repository.go:159-191 | the row with this id is paid exactly when it is pending and in time; otherwise nothing changes, and paid, expired or overdue, cancelled and missing have each their own error |
| MerchantService.Repository.CancelPaymentRequest | backend/internal/merchant/repository.go:192-207 | Ok exactly when the row with this id is pending and this merchant's and the update works; then exactly that row's status changes, otherwise nothing |
| MerchantService.Repository.ListByMerchant | backend/internal/merchant/repository.go:217-273 | one page, newest first, with the total; a page below 1 becomes 1 and a limit outside 1 to 100 becomes 20; or a failing query |
| MerchantService.FirstMatch | backend/internal/merchant/service.go:350-354 | the scanning loop finds the first row with the payload |
| MerchantService.Service.FindPaymentRequestByPayload | backend/internal/merchant/service.go:339-366 | the newest pending rows are searched first, then the newest of all, and either query may fail |
| MerchantService.Service.CreatePaymentRequest | backend/internal/merchant/service.go:119-168 | a request is stored exactly when its merchant is known and active, no query fails and the table can take it; its row holds what was asked for, and its code reads back to that row and is good up to its expiry second |
| MerchantService.Service.Prepare | backend/internal/merchant/service.go:232-282 | everything before the transfer refuses, or names the scan and the request to pay, for every failing lookup: a good code, an active merchant other than the payer with a wallet, and a pending row with the payload; each refusal of the scan is given in exactly its case |
| MerchantService.PreparedIsThreeSteps | backend/internal/merchant/service.go:232-282 | what one call does alone before its transfer is what the machine's first three steps do |
| MerchantService.FailingLookupOnlyRefuses | backend/internal/merchant/service.go:232-282 | a failing lookup can only refuse: it never leads to another transfer |
| MerchantService.PreparedEnds | backend/internal/merchant/service.go:270-282 | before its transfer a call is refused or goes on to it |
| MerchantService.Service.PayViaQR | backend/internal/merchant/service.go:232-336 | a refused scan, a failing lookup included, changes nothing; a transfer that goes through is recorded by the conditional update whose error is ignored; a replay is an error; no failing call changes a row; nothing changes unless the code is good and its merchant active and not the payer, and the payment added carries the scanned amount and reference and the caller's key |
| Lockout.Repository.IncrementFailedLogins | backend/internal/auth/repository.go:144-150 | adds one, refused at the column's ceiling of 100 |
| Lockout.Service.Login | backend/internal/auth/service.go:133-215 | inactive and locked accounts are refused before the password is checked; a wrong one counts, and from the fifth on locks for half an hour; a login whose reset works clears counter and lock, and no other outcome changes the account |
| Lockout.Service.HandleFailedLogin | backend/internal/auth/service.go:363-397 | the lock goes by the counter read before the increment, even when the increment is refused |
| Lockout.AtMostFiveAndOnePerLockout | backend/internal/auth/service.go:160-177 | with one login at a time: from any reachable account, a stretch without a successful login checks at most 5 plus one per full 30 minutes wrong passwords, and one more for each failing database write |
| Lockout.LoginStartsAfresh | backend/internal/auth/service.go:191-215 | after any run, a login whose reset works leaves room for four wrong passwords, whenever they come and whatever fails; a fifth locks for half an hour |
| Lockout.ChecksAreSpaced | backend/internal/auth/service.go:363-397 | once the free attempts are used, recorded wrong checks are at least one lockout apart |
| Lockout.BoundIsReached | backend/internal/auth/service.go:363-397 | for every number of lockouts some run reaches the bound |
| LockoutRaces.AtMostFivePerLockoutAndOverlaps | backend/internal/auth/service.go:160-177 | however logins on one account overlap: a stretch without a successful login lets at most 5 plus one per full 30 minutes wrong passwords past the lock check, one more for each that came while another was past it and not through, and one more for each failing write |
| LockoutRaces.BoundIsReached | backend/internal/auth/service.go:160-177 | no term of that bound can be dropped: for every number of lockouts, overlaps and failing writes some run from the start lets through five and all of them |
| LockoutRaces.OneAction | backend/internal/auth/service.go:363-397 | every statement of every login pays for the checks it lets through out of the free attempts and the lockouts |
| LockoutRaces.LoginAloneIsThreeSteps | backend/internal/auth/service.go:363-397 | a wrong-password login that runs alone is its look, its count and its lock |
| LockoutRaces.RightLoginAloneIsTwoSteps | backend/internal/auth/service.go:160-215 | a right login that runs alone is its look and its reset, or its look alone when no token is issued |
| Sessions.Repository.FindSessionByTokenHash | backend/internal/auth/repository.go:193-214 | accepts exactly a stored, unrevoked, unexpired token |
| Sessions.Repository.DeleteSession | backend/internal/auth/repository.go:228-233 | removes the token's row; a failing call may have taken effect |
| Sessions.Repository.RevokeSession | backend/internal/auth/repository.go:217-222 | marks the token's row revoked, if there is one, and leaves every other row as it is |
| Sessions.Repository.CreateSession | backend/internal/auth/repository.go:173-190 | stores a live session unless the hash is taken |
| Sessions.Service.RefreshToken | backend/internal/auth/service.go:236-291 | only a live token is refreshed, by exactly one next session of the same user; which error is given, what a failing call leaves as it was and when the session is lost, for every failing call |
| Sessions.Service.IssueRefreshToken | backend/internal/auth/service.go:346-359 | stores and returns the new token, or fails |
| Sessions.AcceptedAtMostOnce | backend/internal/auth/service.go:236-291 | with one call at a time: in every run a refresh token is accepted at most once |
| Sessions.EndedIsRefused | backend/internal/auth/service.go:217-291 | with one call at a time: a rotated or logged-out token is refused from then on, and using it again changes no stored session |
| Sessions.DeadStays | backend/internal/auth/repository.go:193-233 | a token that was drawn and is gone or revoked never comes back |
| Sessions.RefreshReplacesOne | backend/internal/auth/service.go:263-276 | a successful refresh replaces exactly the presented live session by exactly one of the same user and login |
| Sessions.OneDescendantPerLogin | backend/internal/auth/service.go:263-276 | with one call at a time: each login has at most one stored descendant, and it belongs to the user who logged in |
| SessionRaces.AcceptedOnlyBeforeItsEnd | backend/internal/auth/service.go:240-266 | however refreshes race, a token is accepted only by finds before its row is deleted or revoked |
| SessionRaces.AcceptsExactlyWhen | backend/internal/auth/service.go:240-266 | however refreshes race, a find accepts its token exactly when the query does not fail, the token is stored and unexpired, and no earlier step has ended it |
| SessionRaces.ForksExactlyWhen | backend/internal/auth/service.go:263-276 | however refreshes race, some login comes to two tokens nothing was stored for exactly when two refreshes that presented one token both stored a next one |
| SessionRaces.TwoDescendantsMeanTwins | backend/internal/auth/service.go:263-276 | however refreshes race, a login has two stored descendants only if two refreshes that presented the same token both stored a next one, and every stored token belongs to its login's user |
| SessionRaces.RacingRefreshesFork | backend/internal/auth/service.go:240-276 | two refreshes that both find one token leave two live sessions of one login |
| SessionRaces.RefreshAloneIsThreeSteps | backend/internal/auth/service.go:236-291 | a refresh that runs alone is its find, its delete and its store |
| Hub.Hub.Register | backend/internal/websocket/hub.go:66-73 | the client joins its wallet's room |
| Hub.Hub.Unregister | backend/internal/websocket/hub.go:74-86 | a seated client leaves and its open channel is closed; an emptied room goes; anybody else changes nothing |
| Hub.Hub.CopyRoom | backend/internal/websocket/hub.go:126-131 | copies exactly the room's clients, each once |
| Hub.Hub.SendTo | backend/internal/websocket/hub.go:133-141 | runs without the lock, whatever was unregistered since the copy: one copied client after another is offered the event, and the first closed channel panics and ends it |
| Hub.Hub.Broadcast | backend/internal/websocket/hub.go:125-142 | when nothing runs between the copy and the sends, nothing panics and exactly the room's clients are offered the event |
| Hub.Hub.ConnectedCount | backend/internal/websocket/hub.go:177-185 | the room sizes add up to the number of distinct clients in rooms |
| HubRuns.PanicsExactlyWhen | backend/internal/websocket/hub.go:74-142 | a run panics exactly when some client is unregistered after a broadcast copied it and before that broadcast's send to it |
| HubRuns.StepPanics | backend/internal/websocket/hub.go:133-141 | a step panics exactly when it sends to a channel that has been closed; closing never panics |
| HubRuns.UnregisterBeforeSendPanics | backend/internal/websocket/hub.go:74-142 | connect, register, copy, unregister, send: the shortest run that panics |
| HubRuns.ClosedAtMostOnce | backend/internal/websocket/hub.go:74-86 | whatever overlaps, a channel is closed at most once |
| HubRuns.HubIsSound | backend/internal/websocket/hub.go:57-91 | whatever overlaps, no room is empty, the rooms hold exactly the clients that registered and have not left, and a channel is closed exactly when its client has left |
| HubRuns.SendAllIsSends | backend/internal/websocket/hub.go:133-141 | the loop over copied clients is one send step after another, up to the panic if there is one |
| HubRuns.QueueIsBounded | backend/internal/websocket/hub.go:21-23 | whatever overlaps, at most 32 events wait for a client |
| HubRuns.DeliveredInOrder | backend/internal/websocket/hub.go:125-142 | with one broadcaster, whatever registers, leaves and panics in between: what a client reads is in order part of what was broadcast to its wallet since it registered, and all of it while it missed nothing |
| HubRuns.MissedOnlyWhen | backend/internal/websocket/hub.go:133-141 | whatever overlaps, a client misses an event only by a send to it while exactly 32 wait, or because the broadcast that still had it to come to died at another client's closed channel |
| RateLimit.Client.IncrWithExpiry | backend/pkg/redis/client.go:92-102 | increments a live counter or starts a new one and renews its expiry; a failing pipeline may carry out none, the first or both of its commands |
| RateLimit.Limiter.Handle | backend/internal/middleware/ratelimit.go:43-72 | lets the request through uncounted exactly when Redis gives no answer; otherwise refuses for a window above the limit, and below it says how many are left |
| RateLimit.NoShortIntervalExceedsLimit | backend/internal/middleware/ratelimit.go:43-72 | in every timed run, requests of one key within less than one window have at most the limit counted and let through |
| RateLimit.AtMostLimitPerWindow | backend/internal/middleware/ratelimit.go:43-72 | the same from any stored counters, with any failures in between |
| RateLimit.CounterIsStreak | backend/pkg/redis/client.go:92-102 | while Redis answers, the counter is the number of requests back to the last pause of a whole window |
| RateLimit.AdmittedExactlyWhen | backend/internal/middleware/ratelimit.go:63-71 | while Redis answers, a request is let through exactly when that streak is within the limit, and is told how many are left; past the limit it is told to wait a window |
| RateLimit.UnansweredIsServed | backend/internal/middleware/ratelimit.go:52-58 | whatever ran before, a request is let through without a count exactly when Redis gives no answer |
| RateLimit.SteadyStreamStreak | backend/pkg/redis/client.go:95-97 | a stream without a pause is one streak, however long it lasts |
| Display.Itoa | backend/internal/auth/models.go:211-231 | for every int64 but the least the text is its decimal form and reads back to it, for the least it is a lone sign, and the 20-byte buffer is never indexed below zero |
| Display.PadLeft | backend/internal/auth/models.go:233-238 | pads on the left up to the width |
| Display.FormatBalance | backend/internal/auth/models.go:199-209 | the loops and buffer produce the symbol, truncated units, point and two digits |
| Display.FormatShows | backend/pkg/currency/format.go:8-15 | the currency text of every amount but the least is a sign if below zero, the symbol, a space, the units without leading zeros, a point and two digits, and its digits are the amount's value |
| Display.BalanceTextShows | backend/internal/auth/models.go:199-209 | the balance text likewise, with the sign after the symbol and only of the whole units |
| Display.BalanceTextIsFormatExactlyWhen | backend/pkg/currency/format.go:8-15 | for every symbol the two formatters agree exactly when the amount is not negative |
| Display.SameBalanceTextExactlyWhen | backend/internal/auth/models.go:199-209 | two amounts share a balance text exactly when equal, or opposite and below one unit |
| Display.FormatInjective | backend/pkg/currency/format.go:8-15 | the currency text determines the amount, for every int64 and symbol |
| Display.FormatOfLeast | backend/pkg/currency/format.go:8-15 | the least amount prints extra signs, and no other amount has its text |

## Left out

- HTTP handlers, routing, JSON, JWT, bcrypt, audit writes, webhooks, deployment and the frontend: input and output around the engine. A cached reply that does not decode is the value `Garbage`.
- `backend/cmd/seed/main.go` seedBalance: it reads the balance before its transaction and writes an absolute value without a lock.
- White space outside ASCII around a scanned signature: trimming covers ASCII only. `net/url` and `google/uuid` are modelled by what they document; their sources are not part of this model.
- The microsecond precision of a payment request's stored times, which are nanoseconds here.
- Rows keep their order of commit; `created_at`, fees, parent transactions, metadata, ip addresses, currencies, business names and display fields are dropped.
- LedgerService.Service.Transfer: one failing call at a time; any number of failures is covered by the machine.
- Lock and deadlock time-outs of the server, and the administrator's foreign key on an issuance row: both appear only as a failing call.
- Exactly-once for issuances, which pass no key.
- RevokeAllUserSessions, which nothing calls; in `SessionRaces` a failing user or wallet lookup or access token is the step that gives up.
- Changes to a user row by anything but logins and activation.
- The hub's own buffers of 16 registrations, Redis pub/sub and Publish; the order in which overlapping broadcasts reach one client.
- RateLimit.NoShortIntervalExceedsLimit: requests let through because Redis failed are not counted; eviction of a live counter by Redis is not modelled.
- Page counts of a listing, and an offset past the int64 range.
- Registration, profiles, wallet and admin screens, e-mail and password rules, transaction listings, supply statistics: easy members.
- Random token generation, SHA-256 and constant-time comparison: tokens stand for their hashes.
