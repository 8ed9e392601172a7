# MergePay settlement, verified

MergePay pays developers for merged work. A client locks a reward in a Soroban escrow
contract; a developer accepts it on chain and opens a pull request; a FastAPI backend
inspects that pull request, reaches a deterministic verdict and, on a PASS, signs the
release with the verifier's key. Two ledgers have to agree: the contract's, which holds
the money, and the backend's database, which is updated by requests that read the chain at
one moment and commit at a later one.

This project is a Dafny 4.11 model of that system and proofs about it. `dafny verify
dfyconfig.toml` checks everything.

## How the model is built

| file | what it models |
|---|---|
| `Escrow.dfy`, `EscrowContract.dfy` | the contract: entry points as functions on one ledger state, and the contract and its token as classes that mutate storage, proved equal |
| `Records.dfy` | a bounty's row, submission and verifications; what each request checks and writes; how the ORM's commit writes only changed attributes |
| `Settlement.dfy` | the whole system with any number of overlapping requests, ledger events, time, crashes, lost replies and late transactions between any two steps |
| `Overlap.dfy`, `Finality.dfy` | the same system: what a submission and anchored evidence are about, who signed for it, and exactly when PAID is final |
| `LateFunding.dfy`, `Provenance.dfy` | the same system: what a funding confirmation still in flight can do to an accepted task, and where every stored verdict, release and payment came from |
| `Requests.dfy` | the same system: the form, or the request of the wallet whose right it was, behind everything the database holds |
| `Serialised.dfy` | the same system when requests on one row are served one at a time |
| `Services.dfy`, `Alone.dfy` | the service functions as methods of the mapped row, and the proof that one left alone is a run of the system's own steps |
| `Decisions.dfy` | what each service lets in, writes and refuses, said on the row's columns, the caller's wallet and the replies from outside |
| `Payment.dfy`, `Payouts.dfy`, `HonestRun.dfy` | exactly when a verification pays, whoever asks from whichever status, how PAID is taken back, and the run that carries any new task to its payment |
| `Verifier.dfy`, `Rules.dfy`, `GitHubClient.dfy` | the verdict and, in terms of the pull request alone, what each of its fields means; check-run selection, protected files, the pull request URL, paging |
| `CanonicalJson.dfy`, `Commitments.dfy`, `Payloads.dfy` | the canonical printer with a parser that undoes it, the two commitments, and what their texts say under each key |
| `Messages.dfy`, `HexCodec.dfy`, `Text.dfy`, `StellarClient.dfy` | signed messages, hexadecimal, decimal and line codecs, the contract payload decoder, what a release reports |
| `Grammar.dfy` | exactly which texts are read and written: URLs, messages, escapes, amounts, what a page takes back from storage |
| `Auth.dfy`, `Logins.dfy` | login challenges redeemed under races, sessions and their end; whose challenge and whose session it is |
| `Reads.dfy` | the read endpoints and who may see what |
| `Xlm.dfy`, `Doubles.dfy` | rewards between text and stroops, through binary doubles; every real number has a nearest double |
| `Recovery.dfy`, `RecoveryLimits.dfy`, `RecoveryPanels.dfy` | what the browser remembers of a sent transaction over page loads and mounts that come and go, exactly when it keeps it, and the panels' handlers statement by statement |
| `Sums.dfy`, `Wrappers.dfy` | sums over maps; `Option`, `Result` and the fixed-width integers |

Code that changes state is modelled twice: as a class whose methods make the changes in
the source's order, and as a function on values the methods are proved equal to. The
theorems are about the functions, over every run and every interleaving.

What comes from outside is an input: network replies, clocks, random identifiers, failed
commits. SHA-256 is an arbitrary function from text to 32 bytes, and nothing is assumed of
it; the commitment theorems are about the text that is digested, and say that the anchored
digest is the digest of that text. A signature is good exactly when that wallet signed that
message. Case folding maps each character to a string; the one theorem that needs more says
so. Rounding is to the nearest binary double of 53 bits.

## Main results

* The backend never runs ahead of the contract, with requests overlapping freely
  (`Settlement.BackendNeverRunsAhead`). It may lag: commit #2 of a verification may never happen.
* A bounty paid on chain carries the digest of the evidence of a PASS that was committed
  first, whatever crashed afterwards (`Settlement.PaidCarriesCommittedEvidence`); that evidence
  names this bounty's repository, criteria and pull request, the number in its URL and a GitHub
  name the paid wallet signed for (`Overlap.PaidAnchorsOwnWork`), so no two paid bounties anchor
  the digest of one text (`Overlap.PaidTextsDiffer`). A bounty is paid at most once, by the one
  release whose hash the row may record (`Settlement.PaidAtMostOnce`).
* With requests overlapping freely every payment is earned (`Provenance.PaymentsAreEarned`): the
  anchored PASS was deserved by what GitHub showed, for a record the database held when the
  verification loaded it, and the evidence was made of a record it held later; both are this
  bounty, each with a GitHub name the paid wallet signed for. Their base commits agree unless a
  funding confirmation was in flight at the first of those moments.
* Every payment is for the signer's work (`Provenance.PaidForTheSignersWork`): the contract anchors
  evidence with a PASS whose pull request is of the bounty's repository and branch, open, not a
  draft, with nothing protected touched and its three checks passed, and whose author folds to the
  GitHub name the paid wallet signed for.
* Whatever overlaps, every submission was asked for by the row's developer, every verification by its
  client or developer, every GitHub name by that developer and every funding by that client, and
  every task holds the terms and the criteria of the form its client sent
  (`Requests.SubmittedByDeveloper`, `Requests.VerifiedByParticipant`, `Requests.NamedByDeveloper`,
  `Requests.FundedByClient`, `Requests.TermsAreTheForms`).
* In the overlapping system an accepted task stays private to its two participants if and only if
  it is not on offer and no funding confirmation that read the chain before the acceptance is
  still in flight (`LateFunding.StaysPrivateExactly`); its base commit stays if and only if none is
  (`LateFunding.BaseStaysExactly`).
* A verification that nothing interrupts ends PAID if and only if it is admitted, GitHub shows
  a PASS and the contract has the bounty assigned and in time; otherwise no money moves
  (`Payment.PaysExactly`); in every reachable state, who may ask and from which statuses, a payout
  that failed before included, is spelled out in `Payouts.AskingExactly`. Every new task of honest participants can be carried to its payment
  from every reachable state (`HonestRun.HonestRunPays`).
* In the overlapping system a PAID row is final if and only if no request that loaded it earlier
  is in flight with a status of its own to write (`Finality.PaidIsFinalExactly`).
* With requests on one row serialised, the row tells its own history
  (`Serialised.RowTellsItsHistory`, `Serialised.HistoryOnlyGrows`), every payment leads back to the
  very record it was judged on (`Serialised.EveryPaymentIsEarned`), and an accepted task stays
  private (`Reads.SerialisedStaysPrivate`).
* The escrow is solvent after every run, money is conserved, a settled bounty is final, and a
  live one always has exactly one side able to take it out (`Escrow.EscrowIsAlwaysSolvent`,
  `Escrow.SettledOnceAndForAll`, `Escrow.LiveBountyHasExactlyOneWindow`).
* The verdict is independent of the order of check runs and of irrelevant ones, and PASS is
  exactly an empty list of reasons (`Verifier.VerdictIgnoresOrder`,
  `Verifier.IrrelevantRunsDoNotMatter`, `Verifier.VerdictMeaning`). It and every field of the result
  are what the pull request's own fields say (`Rules.VerdictExactly`, `Rules.ResultExactly`,
  `Rules.ResultsExactly`).
* The canonical printer can be undone, so a commitment's text determines what it commits to
  (`CanonicalJson.ValueRoundTrip`, `Commitments.EvidenceTextIdentifies`,
  `Commitments.PassingEvidenceIdentifiesEverything`), and read back it says each fact under its own
  key (`Payloads.CriteriaTextSays`, `Payloads.EvidenceTextSays`).
* Sessions and spent challenges correspond one to one under any race, and a session lives
  exactly until it is revoked or expires (`Auth.SessionsAreRedemptions`,
  `Auth.SpentChallengesOpenedSessions`, `Auth.SessionLifetime`); it belongs to the wallet that asked
  for its challenge (`Logins.SessionsAreTheAskers`).
* A reader's answers depend on exactly what that reader may see
  (`Reads.ReadsShowExactlyTheVisible`), which in every reachable state of the overlapping system is
  the tasks on offer and the reader's own (`Reads.OfferedOrTheirs`).
* A sent transaction stays remembered, and alone, through everything that may follow until it is
  settled, if and only if memory and storage hold it and no handler of another one is running
  (`RecoveryLimits.KeptExactlyIfSecure`); whether a send gets there is decided by its reply
  (`RecoveryLimits.ReplyDecides`).
* Stroop arithmetic through doubles is exact (`Xlm.ParsesExactly`,
  `Xlm.FloorOfQuotientIsExact`, `Xlm.FormatThenParse`).

## Where the code falls short of what one might expect

* The repository's README.md (lines 238-239) says a duplicated required check name is
  rejected. The code picks the run with the highest id
  (`api/app/github_verifier.py:44-63`); the model follows the code (`Verifier.SelectsLatest`).
* A transaction the browser has sent is remembered from the reply to `sendTransaction` on, not
  from the moment the network takes it, and only if that reply reaches the mount that sent it.
  `RecoveryLimits.LostReplyAllowsASecond` is a run in which the reply is lost or the page loaded
  again and a second transaction is built; `RecoveryLimits.RemountForgetsASuccess` is one without
  either, in which a link away and back leaves the handler behind, the second transaction is
  stored over the acknowledged first, and its failure clears the entry. For every send,
  `RecoveryLimits.ReplyDecides` says that it stays remembered through all that may follow if and
  only if its reply reaches its own mount with no earlier handler running;
  `RecoveryLimits.KeptExactlyIfSecure` and `RecoveryLimits.SecondExactlyIfNotSecure` give the
  condition on any later state. What the network makes of the second send is free in these runs:
  an account's sequence number, or the simulation of a `create_bounty` whose id exists, often
  refuses it.
* A check-run reply without `total_count` is taken as whole; it is whole exactly up to a page of
  100 (`GitHubClient.CheckRunsAreWholeOrRefused`).
* The evidence stores owner and name joined by a slash. Without a PASS two different repositories can
  share a text (`Commitments.JoinedRepositoryIsAmbiguous`); among passing verifications none do
  (`Commitments.PassingEvidenceIdentifiesEverything`).
* When requests on one row overlap, one that loaded the row earlier can write its own status
  over PAID. `Payment.PaidIsTakenBack` is that run, from any state in which a verification pays: a
  second one began earlier and commits later, the reward is paid out and the row is not PAID.
  `Finality.PaidIsFinalExactly` is the exact condition.
* A funding confirmation that has read the chain and waits for GitHub's base commit can commit after
  another one of the same task has, and after the developer's acceptance was confirmed. The row is
  then OPEN_FUNDED with its developer: everyone can read it and the marketplace lists it.
  `LateFunding.AcceptedIsOfferedAgain` is that run, for every new task that can be carried out at
  all, and `LateFunding.StaysPrivateExactly` the exact condition.
* The same late confirmation replaces the base commit under a verification that has loaded the row.
  The verdict is then about one base commit and the anchored evidence names another:
  `Provenance.AnotherBaseIsAnchored` is the run, `LateFunding.BaseStaysExactly` the exact condition
  for the commit to stay, and `Provenance.PaymentsAreEarned` what holds of every payment.
* Creating a task bounds neither its reward nor its deadline above, but the browser refuses to
  fund numbers beyond 2^53 - 1 (`Records.CreatedRowsCanBeFunded` is the exact condition).

## Model

| member | source | states |
|---|---|---|
| Escrow.TransferConserves | contracts/escrow/src/lib.rs:91-91 | under sound balances a transfer succeeds exactly when the payer can cover a non-negative amount (i128 never overflows), and it moves that amount without making or losing any |
| Escrow.TransferExactly | contracts/escrow/src/lib.rs:91-91 | with any balances it succeeds exactly when the payer covers the amount and the payee stays within i128 |
| Escrow.StepExactly | contracts/escrow/src/lib.rs:63-249 | what each ledger event does: a failed or unsigned one nothing, a call what its entry point leaves, an outside transfer its amount, time up to the last timestamp |
| Escrow.CreateExactly | contracts/escrow/src/lib.rs:63-106 | the exact conditions under which a bounty is created, and with what terms; the reward moves from client to escrow, no other balance or bounty changes, and a failed call changes nothing |
| Escrow.AcceptExactly | contracts/escrow/src/lib.rs:108-133 | an open bounty in time, and only such, takes the signing developer; no token moves, terms and other bounties are unchanged, and a failed call changes nothing |
| Escrow.ReleaseExactly | contracts/escrow/src/lib.rs:135-170 | a release succeeds exactly for the verifier on an assigned bounty in time: solvency makes the transfer succeed and the missing-developer branch is unreachable; the developer, and nobody else, gets the whole reward, the evidence is anchored, and a failed call changes nothing |
| Escrow.CancelExactly | contracts/escrow/src/lib.rs:175-209 | a cancellation succeeds exactly for the client of an open bounty up to the deadline, returns the whole reward and only closes that bounty |
| Escrow.RefundExactly | contracts/escrow/src/lib.rs:214-249 | a refund succeeds exactly for the client of a live bounty after the deadline, returns the whole reward, and keeps the developer on record |
| Escrow.CancelUndoesCreate | contracts/escrow/src/lib.rs:63-209 | creating and then cancelling leaves every balance as it was |
| Escrow.LiveRewardIsCovered | contracts/escrow/src/lib.rs:162-162 | the escrow's balance covers every single live reward, so an exit transfer cannot underflow |
| Escrow.RunKeepsInv | contracts/escrow/src/lib.rs:63-249 | solvency, the account of payouts and the total supply survive every run of calls, outside transfers and time |
| Escrow.EscrowIsAlwaysSolvent | contracts/escrow/src/lib.rs:91-246 | from deployment on the balance is the sum of live rewards plus donations, supply is constant, and each bounty has paid out nothing while live and exactly its amount to one recipient once settled |
| Escrow.LiveBountyHasExactlyOneWindow | contracts/escrow/src/lib.rs:148-246 | in every reachable state at every timestamp a live bounty has an exit that works, and the other side's exits work for nobody |
| Escrow.RunGrows | contracts/escrow/src/lib.rs:63-249 | over any run a stored bounty keeps its terms and its developer, and a settled one never changes |
| Escrow.SettledOnceAndForAll | contracts/escrow/src/lib.rs:148-246 | a bounty is paid out at most once over any later run |
| EscrowContract.Token.MoveTokens | contracts/escrow/src/lib.rs:89-91 | the token's checked transfer as a change of its balances |
| EscrowContract.MergePayEscrow.CreateBounty | contracts/escrow/src/lib.rs:63-106 | the method leaves storage, balances and result as the function on ledger states does, error order included |
| EscrowContract.MergePayEscrow.AcceptBounty | contracts/escrow/src/lib.rs:108-133 | the same for acceptance |
| EscrowContract.MergePayEscrow.ReleaseBounty | contracts/escrow/src/lib.rs:135-170 | the same for release |
| EscrowContract.MergePayEscrow.CancelOpenBounty | contracts/escrow/src/lib.rs:175-209 | the same for cancellation |
| EscrowContract.MergePayEscrow.RefundExpired | contracts/escrow/src/lib.rs:214-249 | the same for the refund |
| HexCodec.HexToBytes | web/src/stellar/escrow.ts:64-72 | the loop fills the array with the bytes the digit pairs denote |
| HexCodec.HexOfBytesOf | web/src/stellar/escrow.ts:64-72 | what the browser sends and the backend prints back is the same digits in lower case, on every hexadecimal string of even length |
| HexCodec.BytesOfHexOf | api/app/stellar_client.py:128-132 | printing bytes and reading them back is the identity, and the print is lower case |
| HexCodec.HexOfInjective | api/app/stellar_client.py:128-132 | different bytes print differently |
| HexCodec.DecodesExactlyHashes | api/app/stellar_client.py:169-187 | although fromhex skips white space, exactly the strings of 64 hexadecimal digits are decoded |
| StellarClient.AcceptsExactlyEncodings | api/app/stellar_client.py:121-166 | a payload is accepted as a bounty exactly when it is the encoding of one that prints so: no missing, extra or mistyped field passes |
| StellarClient.EncodedIsDecoded | api/app/stellar_client.py:151-166 | what the contract stores is read back whole |
| StellarClient.PrintedInjective | api/app/stellar_client.py:128-166 | two different stored bounties are never read as the same |
| StellarClient.ReleaseBounty | api/app/stellar_client.py:234-286 | a non-positive id or a malformed hash is refused before anything is asked; what is handed over is that id with that hash's bytes, behind any error after preparation too; success is reported exactly when every stage went well and the poll said SUCCESS, and an untranslated error escapes exactly when it comes first |
| Text.DecimalRoundTrip | api/app/assignment_service.py:37-58 | a printed number reads back, without leading zeros |
| Grammar.TrimsExactly | api/app/assignment_service.py:37-58 | trimming cuts white space and nothing else, and leaves none at either end |
| Grammar.BlanksExactly | web/src/utils/xlm.ts:22-26 | which characters JavaScript and Python take for white space, by code point |
| Grammar.LowersExactly | api/app/assignment_service.py:37-58 | lower-casing changes the 26 capitals to their small letters and nothing else |
| Messages.AssignmentRoundTrip | api/app/assignment_service.py:37-58 | the signed assignment message parses back to its five fields for every schema-valid request |
| Messages.AssignmentInjective | api/app/assignment_service.py:37-58 | one signature speaks of one bounty, transaction, wallet, GitHub name and contract |
| Messages.AuthenticationRoundTrip | api/app/auth_service.py:45-66 | the login message parses back to its wallet, challenge and times |
| Messages.MessagesNeverCoincide | api/app/assignment_service.py:37-58 | no assignment message is a login message, whatever the fields |
| Grammar.AssignmentReads | api/app/assignment_service.py:37-58 | the assignment message word for word, line by line: heading, bounty, lower-case hash, wallet, trimmed name, contract |
| Grammar.AuthenticationReads | api/app/auth_service.py:45-66 | the login message word for word, ending with the network |
| Grammar.SchemaExactly | api/app/schemas.py:195-203 | the fields an acceptance message is written from: a hash of 64 hexadecimal digits, a GitHub name of 1 to 39 letters, digits and hyphens, printed addresses on one line |
| GitHubClient.UrlRoundTrip | api/app/github_client.py:38-43 | every pull request's canonical URL parses back to it |
| Grammar.UrlsExactly | api/app/github_client.py:38-43 | a URL gives these coordinates if and only if, trimmed, it is their canonical URL with or without a last slash; every other is InvalidPullRequestUrl |
| GitHubClient.ParsedNamesAreSlashFree | api/app/github_client.py:86-100 | what the URL grammar accepts has a non-empty slash-free owner and repository and a positive number |
| GitHubClient.FilesAreWholeOrRefused | api/app/github_client.py:205-222 | the file list is never truncated: it is whole, or refused, exactly above the limit |
| GitHubClient.CheckRunsAreWholeOrRefused | api/app/github_client.py:224-245 | check runs are whole or refused whenever GitHub counts them; otherwise exactly up to one page |
| GitHubClient.VerdictOnPagesIsVerdictOnAll | api/app/github_client.py:205-253 | the verdict reached from pages is the verdict on everything GitHub has |
| Verifier.SelectsLatest | api/app/github_verifier.py:44-63 | the selected run is one of that name with no newer namesake, and there is one exactly when some run has the name |
| Rules.SelectsDeciding | api/app/github_verifier.py:44-63 | the run selected is the one with the highest id of that name and commit, the first listed with that id |
| Verifier.SelectionIgnoresOrder | api/app/github_verifier.py:44-63 | any permutation or repetition of the runs selects the same run |
| Verifier.VerdictIgnoresOrder | api/app/github_verifier.py:139-251 | the whole result is the same for any order of the check runs |
| Verifier.IrrelevantRunsDoNotMatter | api/app/github_verifier.py:204-235 | a run of another commit, of no required name, or older than a namesake changes no field of the result, wherever it appears |
| Verifier.DecideMeaning | api/app/github_verifier.py:222-235 | the verdict in words: FAIL on broken structure or a check that finished badly, PENDING on one unfinished, else PASS |
| Verifier.VerdictMeaning | api/app/github_verifier.py:139-251 | PASS holds exactly when structure is valid and every required check's newest run on the inspected commit succeeded, and exactly when there are no reasons |
| Rules.VerdictExactly | api/app/github_verifier.py:139-251 | PASS if and only if owner, repository and present author fold alike, branch and base commit are equal, the state is open, it is no draft, no protected path is touched and the run that decides each of the three checks succeeded; PENDING if and only if all but the checks hold and none failed but some are unfinished |
| Rules.ResultExactly | api/app/github_verifier.py:150-251 | what each boolean of the result means on the inspection, the protected paths it lists, and every reason, in order and word for word |
| Rules.ResultsExactly | api/app/github_verifier.py:204-225 | the three check results, in order, each what the run that decides it says, or missing exactly if none does |
| Verifier.ProtectedFilesExactly | api/app/github_verifier.py:66-85 | the protected files are exactly the protected current or previous paths, each once |
| Rules.NamesExactly | api/app/github_verifier.py:66-85 | each protected path once, in the order of its first appearance, where protected means one of the named paths or under one of the named directories |
| Verifier.StructuralReasonsExactly | api/app/verification_service.py:120-131 | dropping the reasons that name a check leaves every broken structural rule, in order, and nothing else |
| Verifier.FindProtectedFiles | api/app/github_verifier.py:71-85 | the loop computes that list |
| Verifier.CheckStructure | api/app/github_verifier.py:150-202 | the statements compute the structural verdict and its reasons |
| Verifier.EvaluateChecks | api/app/github_verifier.py:204-225 | the loop computes the check results and their reasons |
| Verifier.VerifyPullRequest | api/app/github_verifier.py:139-251 | the method computes the verdict function |
| CanonicalJson.ValueRoundTrip | api/app/hashing.py:30-36 | a parser recovers every value from its canonical text and stops where it ends (string escapes of section 7 of RFC 8259) |
| CanonicalJson.PrintInjective | api/app/hashing.py:30-36 | equal text means equal value |
| Grammar.EscapesExactly | api/app/hashing.py:30-36 | the escape of every character: seven of two characters, \u00XX in lower case for the other controls, none for the rest |
| CanonicalJson.PrintsInKeyOrder | api/app/hashing.py:30-36 | an object's text is its fields in strictly ascending code point order of its keys, all of them once |
| CanonicalJson.KeysHaveOrder | api/app/hashing.py:30-36 | every set of keys has such an order |
| Commitments.CriteriaTextInjective | api/app/hashing.py:43-58 | the committed criteria text determines the criteria and their order |
| Payloads.CriteriaTextSays | api/app/hashing.py:43-58 | read back, the criteria text is an array whose k-th object has the three keys, position k, the k-th description and its required flag |
| Commitments.EvidenceTextIdentifies | api/app/hashing.py:61-97 | two evidence texts are equal exactly when the facts are, up to the case of the criteria hash and the split of owner and name, and the results are |
| Payloads.EvidenceTextSays | api/app/hashing.py:61-97 | read back, the evidence text has exactly the ten keys with each fact under its own, and under verification exactly the thirteen of the result with each field under its own, down to the checks |
| Payloads.HashesExactly | api/app/hashing.py:39-97 | both hashes are 64 lower-case digits whose bytes are the digest of their text, and evidence is refused exactly for a criteria hash that is not 64 hexadecimal digits |
| Payloads.PassingTextsAreGitHubs | api/app/verification_service.py:299-344 | the facts of a passing evidence text are those GitHub shows of the pull request: repository and author up to case, base branch, base commit |
| Commitments.SlashFreeEvidenceIdentifies | api/app/hashing.py:61-97 | between slash-free owners two evidence texts are equal exactly when all facts and the results are, up to the case of the criteria hash |
| Commitments.PassMakesOwnerSlashFree | api/app/github_verifier.py:150-153 | a PASS forces the bounty's owner to be slash-free, since case folding keeps slashes |
| Commitments.PassingEvidenceIdentifiesEverything | api/app/hashing.py:61-97 | among passing verifications two texts are equal exactly when the facts, owner and name included, and the results are |
| Commitments.JoinedRepositoryIsAmbiguous | api/app/hashing.py:87-87 | the joined field alone does not separate owner from name |
| Commitments.EvidenceBytes | api/app/hashing.py:39-97 | the bytes handed to the contract are the digest itself |
| Records.CommitUndisturbed | api/app/verification_service.py:112-117 | if nothing came in between, a commit stores exactly what the request computed |
| Decisions.CommitsExactly | api/app/verification_service.py:112-117 | column by column, what a commit stores over a row that changed meanwhile: what the request changed, else what is there; it fails exactly on a second submission |
| Records.HonestFundingIsAccepted | web/src/stellar/escrow.ts:220-268 | the call the browser builds from a DRAFT row passes the backend's comparison for as long as the bounty stays Open, whatever else happens on the ledger |
| Records.FundedBountyMatches | api/app/funding_service.py:43-56 | the bounty that call stores matches its row |
| Records.CreatedRowsCanBeFunded | web/src/stellar/escrow.ts:220-268 | a new row's criteria commitment is 64 lower-case digits, and the browser can fund the row exactly while its deadline is ahead and its id, reward and deadline are safe integers |
| Decisions.CreatesExactly | api/app/routers/bounties.py:69-106 | a new row holds the form's terms, the commitment to its criteria, the caller's wallet, DRAFT and nothing else |
| Decisions.BrowserFundsExactly | web/src/stellar/escrow.ts:220-268 | exactly what the browser asks of a row, a wallet and its clock before funding, and the call it builds |
| Requests.TasksAreCreatedExactly | api/app/routers/bounties.py:69-106 | a task is created exactly from a positive reward and deadline and at least one criterion |
| Settlement.BackendNeverRunsAhead | api/app/verification_service.py:277-344 | in every reachable state a row claims nothing the chain does not hold: its terms, its client, its developer, a payment that succeeded |
| Settlement.PaidCarriesCommittedEvidence | api/app/verification_service.py:316-342 | a bounty paid on chain carries the digest of an evidence text for this bounty, with its record's repository, criteria and pull request URL, of a PASS already in its history, even when commit #2 never happens |
| Settlement.PaidAtMostOnce | api/app/verification_service.py:134-205 | over any retries, overlaps, duplicates and lost replies the developer is paid at most once, and a recorded payout hash is that release's and never changes |
| Overlap.SubmissionsFit | api/app/verification_service.py:208-344 | whatever overlaps, every submission is of its bounty's repository and numbered as its URL says |
| Requests.SubmittedByDeveloper | api/app/routers/bounties.py:192-204 | over every overlapping run each stored submission was asked for, with that URL, by the row's developer |
| Requests.VerifiedByParticipant | api/app/verification_service.py:283-297 | each stored verification was asked for by the row's client or its developer |
| Requests.NamedByDeveloper | api/app/assignment_service.py:113-248 | each GitHub name on a row was sent by the wallet that is the row's developer |
| Requests.FundedByClient | api/app/funding_service.py:59-154 | each funding transaction on a row was sent by the wallet that is the row's client |
| Requests.TermsAreTheForms | api/app/routers/bounties.py:69-106 | each row keeps the terms of the form its client sent, and commits to the criteria of that form |
| Requests.BeginsExactly | api/app/routers/bounties.py:148-241 | a request gets past its first checks exactly if the schema, the caller and the row as found let it, each spelled out, and by then has changed nothing |
| Requests.SendsExactly | api/app/verification_service.py:161-192 | what a release hands over: this bounty, each fact of the record as read again, the digest of their text with that PASS; an equal transaction sent before is the same one |
| Overlap.NamesAreSigned | api/app/assignment_service.py:113-248 | every GitHub name on a row was signed for by the row's developer wallet, in a message that reads as exactly this bounty, name, wallet and contract |
| Overlap.PaidAnchorsOwnWork | api/app/verification_service.py:161-205 | the anchored evidence of a paid bounty names its own repository, criteria and pull request, a PASS in its history, the number in the URL, and a GitHub name the paid wallet signed for |
| Overlap.PaidTextsDiffer | api/app/hashing.py:61-97 | two paid bounties anchor digests of different texts, so an equal digest would be a collision |
| Provenance.PaymentsAreEarned | api/app/verification_service.py:299-344 | with requests overlapping, every paid bounty has a PASS judged on a record the database held when the verification loaded it, deserved by what GitHub showed, and evidence made of a record it held later; both are this bounty's repository, branch, criteria and submission, each with a GitHub name the paid wallet signed for, and the base commits agree unless a funding confirmation was in flight at the load |
| Provenance.PaidForTheSignersWork | api/app/verification_service.py:299-344 | every paid bounty anchors evidence with a stored PASS whose pull request keeps every rule, and its author folds to the name the paid wallet signed for |
| Provenance.WasJudged | api/app/verification_service.py:299-338 | every stored verification is the verdict on what GitHub showed, for a record the database held at some moment before |
| Provenance.WasSent | api/app/verification_service.py:161-192 | every release carries the facts of a record the database held when it already held the PASS |
| Provenance.AnotherBaseIsAnchored | api/app/verification_service.py:161-205 | the run in which a funding confirmation commits under a verification and the evidence names another base commit than the one judged |
| LateFunding.StaysPrivateExactly | api/app/auth_dependencies.py:105-124 | in every reachable state of the overlapping system, an accepted task has its client and its developer for its only readers in everything that may follow if and only if it is not OPEN_FUNDED and no funding confirmation that read the chain is in flight |
| LateFunding.BaseStaysExactly | api/app/funding_service.py:59-154 | and its base commit is the same in everything that may follow if and only if none is in flight |
| LateFunding.AcceptedIsOfferedAgain | api/app/funding_service.py:93-154 | the run in which an assigned task, hidden from others, is offered to everyone again by a late confirmation, its developer still on record |
| Finality.PaidStays | api/app/verification_service.py:277-344 | with no request in flight that has a status to write, a PAID record never changes again in any run |
| Finality.PaidIsFinalExactly | api/app/verification_service.py:277-344 | in every reachable state a PAID row stays PAID in everything that may follow if and only if no such request is in flight |
| Payment.PaysExactly | api/app/verification_service.py:277-344 | an uninterrupted verification ends PAID if and only if it is admitted, GitHub shows a PASS and the contract has the bounty assigned and in time; then exactly the reward moves to the developer under the digest of that evidence, and otherwise the ledger does not change |
| Payouts.AskingExactly | api/app/verification_service.py:277-344 | in every reachable state: anyone but client and developer, and anyone before the submission, after the payout hash or from any status but SUBMITTED, NEEDS_CHANGES, VERIFYING and ELIGIBLE, changes nothing; otherwise the row is PAID and the reward paid if and only if GitHub shows the pull request green, rule by rule, and the contract has the bounty assigned and in time, else no money moves |
| Payment.VerificationPays | api/app/verification_service.py:299-344 | the record it then leaves is the judged one with this payout hash |
| Payment.PaidIsTakenBack | api/app/verification_service.py:299-338 | from any reachable state in which a verification pays, one that began earlier and commits later leaves the reward paid out and the row not PAID |
| HonestRun.HonestRunPays | README.md:86-120 | from every reachable state any new task whose terms the browser accepts and whose client can pay can be carried through every step to PAID, exactly the reward going from client to developer |
| HonestRun.ReadyToVerify | README.md:86-112 | the run up to the verification: created, locked, confirmed, accepted, signed for and submitted, no balance but the client's and the escrow's changed |
| Settlement.StepKeeps | api/app/verification_service.py:277-344 | every step of requests, ledger and failures keeps the joint invariant of both ledgers |
| Settlement.RunKeeps | api/app/verification_service.py:208-344 | so does every run, and records only grow |
| Settlement.OutsidersCannotRelease | contracts/escrow/src/lib.rs:135-138 | no event signed outside the backend pays a bounty |
| Settlement.CommitFundingKeeps | api/app/funding_service.py:59-154 | confirming a funding read at an earlier moment keeps the row behind the chain |
| Settlement.CommitAssignmentKeeps | api/app/assignment_service.py:113-248 | confirming an acceptance read earlier binds the row to the on-chain developer and to that wallet's own signature |
| Settlement.CommitSubmissionKeeps | api/app/verification_service.py:208-274 | registering a submission keeps the joint invariant |
| Settlement.CommitVerdictKeeps | api/app/verification_service.py:299-338 | commit #1 keeps it, overlapping verifications included |
| Settlement.SendReleaseKeeps | api/app/verification_service.py:161-192 | what is handed to the network commits to a PASS in the record |
| Settlement.IncludeKeeps | api/app/stellar_client.py:268-286 | a release may land at any later time, or fail, without breaking anything |
| Settlement.CommitPaidKeeps | api/app/verification_service.py:194-205 | commit #2 records only a release that succeeded for this bounty |
| Serialised.RowTellsItsHistory | api/app/verification_service.py:42-55 | status is the image of the last verdict, or PAID on a PASS; a payout hash exactly when PAID; a submission exactly from SUBMITTED on; a developer only once assigned; the refunded statuses never occur |
| Serialised.SubmissionIsCurrent | api/app/verification_service.py:316-333 | the submission's number is its URL's and the row's, and its author, branch and commit are those of the latest verification |
| Serialised.HistoryOnlyGrows | api/app/verification_service.py:316-338 | verifications are only ever appended, and what a record has established stays |
| Serialised.EveryPaymentIsEarned | api/app/verification_service.py:299-344 | a paid bounty's record holds the anchored PASS, that PASS was deserved by what GitHub showed, and the paid wallet is the developer, not the client, who signed for the GitHub name |
| Serialised.PassIsDeserved | api/app/github_verifier.py:139-251 | a stored PASS means the agreed repository, branch, base commit and author, no protected file, and every required check green among the runs served, which are all there are if GitHub counts them or they fit on a page |
| Serialised.SerialRunKeeps | api/app/verification_service.py:208-344 | the serialised invariant survives every run |
| Services.FundingIsIdempotent | api/app/funding_service.py:59-85 | repeating a confirmed funding is answered with the record, another transaction is a conflict |
| Services.AssignmentIsIdempotent | api/app/assignment_service.py:113-150 | repeating an acceptance is answered for the same wallet and folded name only |
| Services.SubmissionIsFinal | api/app/verification_service.py:208-233 | a bounty takes one submission |
| Services.PaidIsFinal | api/app/verification_service.py:134-146 | no service changes a record loaded as PAID, or sends anything for it |
| Decisions.FundingWritesExactly | api/app/funding_service.py:59-154 | a funding is written if and only if the client owns the row, it is DRAFT, the contract holds its terms open and unpaid for that caller, and GitHub gives a base commit; then exactly four columns change |
| Decisions.FundingErrorsExactly | api/app/funding_service.py:59-154 | and otherwise which error, check by check |
| Decisions.AssignmentWritesExactly | api/app/assignment_service.py:113-248 | an acceptance is written if and only if the row is OPEN_FUNDED and whole, the caller is not its client, the contract holds the terms assigned to the caller, and the caller signed; then exactly three columns change |
| Decisions.AssignmentErrorsExactly | api/app/assignment_service.py:113-248 | and otherwise which error, check by check |
| Decisions.SubmissionWritesExactly | api/app/verification_service.py:208-274 | a submission is stored if and only if the caller is the row's developer, the row is ASSIGNED without one, and GitHub shows a whole pull request of this bounty in order; otherwise the record is untouched |
| Decisions.ServedSubmission | api/app/verification_service.py:208-274 | what an admitted submission stores, column by column, and which error each refusal is, the broken rules word for word in order |
| Decisions.GitHubErrorsExactly | api/app/verification_service.py:239-252 | which HTTP error each failure of URL or GitHub becomes, and otherwise the inspection, field by field, and its verdict |
| Decisions.VerdictWritesExactly | api/app/verification_service.py:299-338 | commit #1 appends the verdict, refreshes the submission from the inspection, and sets the status that verdict means |
| Decisions.PayoutWritesExactly | api/app/verification_service.py:161-205 | the payout: which error each failed release becomes, and PAID with its hash only for one that succeeded and was committed |
| Decisions.VerificationWritesExactly | api/app/verification_service.py:277-344 | an admitted verification is commit #1 and, for a stored PASS and nothing else, the payout, whose evidence has each fact of the record where it belongs |
| Decisions.RefusedVerification | api/app/verification_service.py:283-297 | anyone but client and developer is Forbidden, and any other row than one that awaits a verdict or a payout is a Conflict; nothing is sent |
| Services.ExaminePullRequest | api/app/verification_service.py:239-252 | inspection, paging and verdict in the order the services make them, with each GitHub failure's HTTP error |
| Services.BountyRow.ConfirmFunding | api/app/funding_service.py:59-154 | the method leaves the row, and answers, as the specification says |
| Services.BountyRow.ConfirmAssignment | api/app/assignment_service.py:113-248 | the same for the acceptance |
| Services.BountyRow.RegisterSubmission | api/app/verification_service.py:208-274 | the same for the submission |
| Services.BountyRow.AdmitsVerification | api/app/verification_service.py:283-297 | who may ask for a verification, and when |
| Services.BountyRow.RecordVerdict | api/app/verification_service.py:299-338 | the same for commit #1 |
| Services.BountyRow.ReleasePayout | api/app/verification_service.py:161-205 | the same for the payout and commit #2, and which evidence was sent |
| Services.BountyRow.RunVerification | api/app/verification_service.py:277-344 | the same for the whole two-commit verification |
| Alone.FundingAlone | api/app/funding_service.py:59-154 | uninterrupted, the service is three steps of the system |
| Alone.AssignmentAlone | api/app/assignment_service.py:113-248 | so is the acceptance |
| Alone.SubmissionAlone | api/app/verification_service.py:208-274 | the submission is two |
| Alone.VerificationAlone | api/app/verification_service.py:277-344 | a verification is five, and hands over exactly the evidence the service sends |
| Auth.SessionsAreRedemptions | api/app/auth_service.py:134-197 | in any interleaving every session was redeemed from a challenge of its own, with the same wallet and its signature, created at the use time and within the challenge's life |
| Auth.SpentChallengesOpenedSessions | api/app/auth_service.py:134-197 | a challenge is spent exactly when it opened a session |
| Auth.AsManySpentAsSessions | api/app/auth_service.py:134-197 | there are exactly as many spent challenges as sessions |
| Auth.OneSignatureOneSession | api/app/auth_service.py:157-197 | two sessions always come from two different signed messages |
| Logins.IssuesExactly | api/app/auth_service.py:110-125 | issuing a fresh id stores exactly one challenge, for the wallet that asks, from the clock for 300 seconds, unspent, and changes nothing else |
| Logins.ChallengesWereAskedFor | api/app/auth_service.py:110-125 | over every run each challenge is for the wallet some Issue event of that run asked with |
| Logins.SessionsAreTheAskers | api/app/auth_service.py:134-197 | over every run each session is of the wallet that asked for the challenge it came from |
| Logins.RedeemsExactly | api/app/auth_service.py:134-197 | an uninterrupted redemption opens a session of eight hours and spends the challenge if and only if the challenge is unspent and in time, the signature is of its own message by its own wallet and the commit goes through; otherwise nothing changes |
| Logins.RevokesExactly | api/app/auth_service.py:213-225 | revoking ends one live session at the clock and touches no other |
| Auth.SessionLifetime | api/app/auth_service.py:200-225 | a session resolves exactly until it is revoked or its time is past, unchanged |
| Auth.DeadSessionsStayDead | api/app/auth_service.py:200-225 | one that does not resolve never will again |
| Auth.FailedCommitLeavesNothing | api/app/auth_service.py:102-107 | whatever raced, when the transaction holding a challenge fails no table changes, the challenge is unspent, and its signature may be redeemed again exactly while it lasts |
| Auth.FailedRedemptionLeavesNothing | api/app/auth_service.py:157-197 | alone, a redemption whose commit fails leaves everything as it was |
| Auth.RedemptionOpensASession | api/app/auth_service.py:157-197 | a committed redemption spends the challenge and opens a live session of eight hours |
| Auth.RunKeeps | api/app/auth_service.py:134-225 | any run of racing requests, crashes and failed commits keeps that correspondence |
| Auth.AuthStore.CreateChallenge | api/app/auth_service.py:110-125 | the method is the issuing step |
| Auth.AuthStore.VerifyChallenge | api/app/auth_service.py:157-197 | alone, it is check, conditional update and commit; a session is answered exactly when one was stored |
| Auth.AuthStore.ResolveSession | api/app/auth_service.py:200-210 | the live session, or none |
| Auth.AuthStore.RevokeSession | api/app/auth_service.py:213-225 | the method is the revoking step |
| Reads.OrderedIsTheSet | api/app/routers/bounties.py:109-122 | the list holds exactly the selected bounties, once each, by ascending id |
| Reads.ReadsShowExactlyTheVisible | api/app/routers/bounties.py:109-260 | two databases answer every sequence of reads alike if and only if they show that reader the same |
| Reads.HiddenIsMissing | api/app/routers/bounties.py:50-66 | a hidden bounty is indistinguishable from a missing one on every endpoint, and a visible one never looks missing |
| Reads.ListsExactly | api/app/routers/bounties.py:109-122 | the list is exactly the offers, by ascending id, whoever asks |
| Reads.AnswersExactly | api/app/routers/bounties.py:125-260 | what each other endpoint answers: missing to anyone who may not see the task, else the task, its escrow or why there is none, its submission, its last verdict |
| Reads.ReadersExactly | api/app/auth_dependencies.py:105-124 | offers are for all, a draft for its client, anything else for its client and developer |
| Reads.OfferedOrTheirs | api/app/auth_dependencies.py:105-124 | in every reachable state, whatever requests overlap, a bounty is readable by all exactly while OPEN_FUNDED, and otherwise by its client and its developer alone |
| Reads.SerialisedStaysPrivate | api/app/auth_dependencies.py:105-124 | with requests on one row serialised, the readers of an accepted bounty are its client and developer in every later state |
| Xlm.RoundingOfIntegers | web/src/utils/xlm.ts:42-48 | integers up to 2^53 are themselves after rounding and larger ones stay unsafe |
| Doubles.NearestExists | web/src/utils/xlm.ts:42-48 | every real number has a nearest double of 53 bits, so rounding to nearest is possible (section 4.3.1 of IEEE 754-2019) |
| Doubles.OddIntegers | web/src/utils/xlm.ts:42-48 | an odd integer is a double exactly up to 2^53, which is why larger amounts are refused |
| Doubles.AmountsRoundTrip | web/src/utils/xlm.ts:58-71 | with that rounding, and nothing assumed of it, what is printed for a safe amount, commas removed, is read as that amount exactly when it is positive |
| Xlm.FloorOfQuotientIsExact | web/src/utils/xlm.ts:62-62 | flooring the rounded quotient by 10^7 is the true quotient for every safe integer (rounding to nearest, section 4.3.1 of IEEE 754-2019) |
| Xlm.ParsesExactly | web/src/utils/xlm.ts:22-55 | exactly the decimals of at most 7 places worth 1 to 2^53 - 1 stroops are accepted, each as exactly its worth |
| Grammar.AmountsExactly | web/src/utils/xlm.ts:22-55 | an amount is digits, or digits, one dot and digits |
| Grammar.RefusalsExactly | web/src/utils/xlm.ts:22-55 | which texts are refused, and with which of the five errors |
| Xlm.PrintedForm | web/src/utils/xlm.ts:58-71 | the print is the true whole part in groups of three without leading zeros, then decimals without trailing ones, none when the amount is whole |
| Xlm.FormatThenParse | web/src/utils/xlm.ts:58-71 | what is printed for a safe amount, commas removed, is read as that amount exactly when it is positive |
| Recovery.SaveLoadRoundTrip | web/src/stellar/assignmentStorage.ts:32-95 | what is stored is read back as it was |
| Grammar.FundingLoadsExactly | web/src/stellar/fundingStorage.ts:16-31 | from storage the panel takes a hash of 64 hexadecimal digits, in lower case, and nothing else |
| Grammar.AssignmentLoadsExactly | web/src/stellar/assignmentStorage.ts:32-84 | it takes hash, name and address in form, trimmed and in lower case, and drops a malformed signature alone |
| Recovery.RunKeeps | web/src/components/AssignmentPanel.tsx:84-204 | over any run of handlers, left-behind handlers, network, page loads and remounts, what memory, storage and every handler past its send hold are well-formed transactions whose reply arrived |
| Recovery.ActIsSound | web/src/components/AssignmentPanel.tsx:84-149 | one step of any handler touches only its own transaction and stores nothing else |
| Recovery.SecureUntilSettled | web/src/components/FundingPanel.tsx:92-164 | once memory and storage hold a transaction and no other handler runs, it is remembered until FAILED or confirmed, and no other is built, over any sequence of refreshes, remounts, timeouts, errors and refused signatures |
| RecoveryLimits.KeptExactlyIfSecure | web/src/components/FundingPanel.tsx:92-164 | in every reachable state that is so for everything that may follow if and only if it holds now |
| RecoveryLimits.SecondExactlyIfNotSecure | web/src/components/FundingPanel.tsx:120-141 | a second transaction can be built before the first is settled if and only if it does not |
| RecoveryLimits.ReplyDecides | web/src/stellar/escrow.ts:185-194 | a transaction whose reply is awaited is kept for good by whatever happens next if and only if that is its reply reaching the mount that sent it, with no earlier handler running |
| RecoveryLimits.IdleBuilds | web/src/components/FundingPanel.tsx:120-141 | an idle panel that remembers nothing does build what it is asked to |
| RecoveryLimits.LostReplyAllowsASecond | web/src/stellar/escrow.ts:185-193 | the run with a lost reply, or a page load before it, and a second transaction |
| RecoveryLimits.RemountForgetsASuccess | web/src/pages/BountyDetailPage.tsx:94-108 | the run with a link away and back during the send, whose first transaction succeeded and is forgotten |
| RecoveryPanels.OutcomeIsFirstAnswer | web/src/stellar/escrow.ts:196-213 | polling ends with what the first of thirty polls to answer said, or in a timeout |
| RecoveryPanels.PollTransaction | web/src/stellar/escrow.ts:196-213 | the loop computes that outcome and is that many polling events |
| RecoveryPanels.AfterSend | web/src/stellar/escrow.ts:183-194 | up to the reply: the hash is stored exactly when the send was accepted |
| RecoveryPanels.FundingPanel.Reload | web/src/components/FundingPanel.tsx:92-94 | a new mount, by a page load or not, starts from storage and, if it works, remembers the same |
| RecoveryPanels.FundingPanel.ReadPendingFundingHash | web/src/stellar/fundingStorage.ts:16-31 | a stored hash, or nothing and the entry removed |
| RecoveryPanels.FundingPanel.StorePendingFundingHash | web/src/stellar/fundingStorage.ts:33-35 | the hash in lower case, if storage works |
| RecoveryPanels.FundingPanel.ClearPendingFundingHash | web/src/stellar/fundingStorage.ts:37-39 | nothing left, if storage works |
| RecoveryPanels.FundingPanel.ConfirmWithMergePay | web/src/components/FundingPanel.tsx:100-118 | a confirmation forgets the hash, any failure keeps it |
| RecoveryPanels.FundingPanel.FundBounty | web/src/stellar/escrow.ts:220-268 | what a submission that returns or throws leaves behind |
| RecoveryPanels.FundingPanel.SecureReward | web/src/components/FundingPanel.tsx:120-164 | the whole handler: exactly which outcomes leave a transaction to recover |
| RecoveryPanels.FundingPanel.RetryConfirmation | web/src/components/FundingPanel.tsx:179-185 | retrying builds and sends nothing |
| RecoveryPanels.AssignmentPanel.Reload | web/src/components/AssignmentPanel.tsx:67-69 | a new mount, by a page load or not, starts from storage and, if it works, remembers the same, signature included |
| RecoveryPanels.AssignmentPanel.ReadPendingAssignment | web/src/stellar/assignmentStorage.ts:69-84 | a stored acceptance, or nothing and the entry removed |
| RecoveryPanels.AssignmentPanel.StorePendingAssignment | web/src/stellar/assignmentStorage.ts:86-95 | the acceptance as it is normalised, if storage works |
| RecoveryPanels.AssignmentPanel.ClearPendingAssignment | web/src/stellar/assignmentStorage.ts:97-99 | nothing left, if storage works |
| RecoveryPanels.AssignmentPanel.ConfirmWithMergePay | web/src/components/AssignmentPanel.tsx:84-119 | only a refused signature changes what is pending, and it drops the signature alone |
| RecoveryPanels.AssignmentPanel.ProveOwnership | web/src/components/AssignmentPanel.tsx:121-149 | closing the popup leaves the acceptance pending; a signature is stored before it is used |
| RecoveryPanels.AssignmentPanel.AcceptBounty | web/src/stellar/escrow.ts:274-314 | what a submission that returns or throws leaves behind |
| RecoveryPanels.AssignmentPanel.AcceptTask | web/src/components/AssignmentPanel.tsx:151-204 | the whole handler: exactly which outcomes leave an acceptance to recover, and with which signature |
| RecoveryPanels.AssignmentPanel.RetryConfirmation | web/src/components/AssignmentPanel.tsx:121-149 | resuming signs and confirms, and never builds a transaction |

## Left out

- HTTP, FastAPI wiring, CORS, settings, database URLs and the schemas' string rules beyond those a theorem uses.
- React rendering, styling, translation and the display of dates and addresses.
- Ed25519, base64, SHA-256, UTF-8 and XDR themselves: signatures and digests are inputs as described above.
- Soroban storage expiry, fees, sequence numbers, upgrades and trustlines; the token is a balance map with checked transfer, and `__constructor` is the start state.
- Stellar's and GitHub's behaviour beyond their replies; GitHub is one snapshot per inspection, served in pages.
- Titles, descriptions, timestamps and surrogate ids of the database, which nothing here depends on; ids start from 1 there, and the model does not rely on it.
- Any claim that a payment on chain is eventually recorded as PAID: the code does not establish it.
- Text.Lower: lower-cases ASCII letters, which is all a hexadecimal string holds.
- Xlm.IsDouble: the exponent is unbounded, so overflow to infinity is a large number here; both are refused as unsafe.
- Recovery.Load: reading back JSON that was just written is taken to give the same strings; only the checks on those strings are modelled.
- Recovery.Tab: storage either works throughout or not at all. It is one browser tab: session storage is a tab's own, so a second tab on the same task is another such state that knows nothing of the first and may build a transaction of its own.
- RecoveryPanels.FundingPanel.SecureReward: session and wallet checks that only return early, and the `step` shown while waiting, are not modelled; the same holds for `AcceptTask`.
- Overlap.PaidAnchorsOwnWork: leaves the base commit in the evidence open, because a late funding confirmation can replace it; `Provenance.PaymentsAreEarned` says when it is the one judged.
- Settlement.PaidCarriesCommittedEvidence: leaves the evidence's base commit, developer name and number open; `Overlap.PaidAnchorsOwnWork` and `Provenance.PaymentsAreEarned` bind them.
- Records.CheckFunding: on-chain addresses are accounts or contracts rather than text, so the account pattern is a constructor test.
- Verifier.CaseFold: folds character by character.
- Auth.DoConsume: the row lock of the conditional UPDATE is modelled as one transaction at a time per challenge; a request that must wait is one that takes its step later.
- Settlement.DoSendRelease: account loading, preparation and sending are one step, which is what the network can tell; the stages are in `StellarClient.ReleaseBounty`.
