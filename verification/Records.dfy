/**
 A bounty's record in MergePay's database, and the decisions each request takes on
 it: whether it may start, whether what it read on chain matches, what it writes.
 */
module Records {
  import opened Wrappers
  import opened Text
  import opened HexCodec
  import opened Escrow
  import opened Verifier
  import opened GitHubClient
  import opened Commitments
  import opened Messages

  datatype RowStatus =
    | DRAFT
    | OPEN_FUNDED
    | ASSIGNED
    | SUBMITTED
    | VERIFYING
    | NEEDS_CHANGES
    | ELIGIBLE
    | PAID
    | CANCELLED_REFUNDED
    | EXPIRED_REFUNDED

  datatype Row = Row(
    repoOwner: string,
    repoName: string,
    baseBranch: string,
    amount: int,
    deadline: int,
    criteriaHash: Option<string>,
    baseSha: Option<string>,
    clientWallet: Option<Address>,
    developerWallet: Option<Address>,
    developerGithub: Option<string>,
    createTx: Option<string>,
    releaseTx: Option<string>,
    pullRequestNumber: Option<nat>,
    status: RowStatus)

  datatype Submission = Submission(url: string, number: nat, author: Option<string>, headRef: string, headSha: string)

  /** `seen` is history: what GitHub showed when this verification ran. */
  datatype Verification = Verification(result: VerificationResult, seen: Snapshot)

  /** A bounty with its submission and its verifications, oldest first. */
  datatype Record = Record(row: Row, submission: Option<Submission>, verifications: seq<Verification>)

  /** The deployment as the backend is configured for it, and the functions it takes from elsewhere. */
  datatype Config = Config(
    deployment: Deployment,
    contractId: string,
    sha: string -> Bytes32,
    fold: char -> string,
    show: Address -> string)

  datatype HttpError =
    | Conflict
    | Forbidden
    | Unprocessable(reasons: seq<string>)
    | NotFound
    | BadGateway
    | Unavailable

  /** How a request starts: answered at once, refused, or to be carried on. */
  datatype Admission = Already | Refused(error: HttpError) | Proceed

  // ------------------------------------------------------------- creation

  datatype Form = Form(
    repoOwner: string,
    repoName: string,
    baseBranch: string,
    amount: int,
    deadline: int,
    criteria: seq<Criterion>)

  ghost function Created(cfg: Config, wallet: Address, form: Form): Record {
    Record(
      Row(form.repoOwner, form.repoName, form.baseBranch, form.amount, form.deadline,
          Some(CriteriaHash(cfg.sha, form.criteria)), None, Some(wallet), None, None, None, None, None, DRAFT),
      None, [])
  }

  /** BountyCreate's constraints on the numbers and the list. */
  predicate FormValid(form: Form) {
    form.amount > 0 && form.deadline > 0 && form.criteria != []
  }

  // ------------------------------------------------------------- funding

  /** The route's client check, then the service's status checks. */
  function AdmitFunding(row: Row, txHash: string, wallet: Address): Admission {
    if row.clientWallet.Some? && row.clientWallet.value != wallet then Refused(Forbidden)
    else if row.status == OPEN_FUNDED then
      if row.createTx == Some(Lower(txHash)) then Already else Refused(Conflict)
    else if row.status != DRAFT then Refused(Conflict)
    else if row.criteriaHash.None? then Refused(Conflict)
    else Proceed
  }

  predicate MatchesTask(b: Bounty, row: Row) {
    && row.criteriaHash.Some?
    && b.amount == row.amount
    && Lower(HexOf(b.criteriaHash)) == Lower(row.criteriaHash.value)
    && b.deadline == row.deadline
    && b.developer.None?
    && b.status == Open
    && b.evidenceHash.None?
    && b.client.Account?
  }

  function CheckFunding(b: Bounty, row: Row, wallet: Address): Option<HttpError> {
    if !MatchesTask(b, row) then Some(Unprocessable([]))
    else if b.client != wallet then Some(Forbidden)
    else None
  }

  function Funded(r: Record, b: Bounty, txHash: string, baseSha: string): Record {
    r.(row := r.row.(clientWallet := Some(b.client), baseSha := Some(baseSha),
                     createTx := Some(Lower(txHash)), status := OPEN_FUNDED))
  }

  // ------------------------------------------------------------- assignment

  function AdmitAssignment(cfg: Config, row: Row, github: string, wallet: Address): Admission {
    if row.status == ASSIGNED then
      if row.developerWallet != Some(wallet) then Refused(Forbidden)
      else if row.developerGithub.Some? && SameFolded(cfg.fold, row.developerGithub.value, github) then Already
      else Refused(Conflict)
    else if row.status == DRAFT then Refused(Conflict)
    else if row.status != OPEN_FUNDED then Refused(Conflict)
    else if row.clientWallet == Some(wallet) then Refused(Forbidden)
    else if row.clientWallet.None? || row.criteriaHash.None? || row.baseSha.None? || row.createTx.None? then
      Refused(Conflict)
    else Proceed
  }

  predicate MatchesAssignment(b: Bounty, row: Row) {
    && row.criteriaHash.Some?
    && Some(b.client) == row.clientWallet
    && b.developer.Some?
    && b.developer.value.Account?
    && b.amount == row.amount
    && Lower(HexOf(b.criteriaHash)) == Lower(row.criteriaHash.value)
    && b.deadline == row.deadline
    && b.status == Assigned
    && b.evidenceHash.None?
  }

  /** The message the developer must have signed, for the wallet the contract names. */
  function OwnershipMessage(cfg: Config, id: u64, txHash: string, developer: Address, github: string): string {
    AssignmentMessage(Assignment(id, txHash, cfg.show(developer), github, cfg.contractId))
  }

  /** A signature is good exactly when that wallet signed that message. */
  predicate HasSigned(signed: set<(Address, string)>, wallet: Address, message: string) {
    (wallet, message) in signed
  }

  function CheckAssignment(cfg: Config, signed: set<(Address, string)>, b: Bounty, row: Row, id: u64,
                           txHash: string, github: string, wallet: Address): Option<HttpError> {
    if !MatchesAssignment(b, row) then Some(Unprocessable([]))
    else if b.developer != Some(wallet) then Some(Forbidden)
    else if !HasSigned(signed, wallet, OwnershipMessage(cfg, id, txHash, wallet, github)) then Some(Forbidden)
    else None
  }

  function Accepted(r: Record, b: Bounty, github: string): Record {
    r.(row := r.row.(developerWallet := b.developer, developerGithub := Some(github), status := ASSIGNED))
  }

  // ------------------------------------------------------------- submission

  function AdmitSubmission(r: Record, wallet: Address): Admission {
    if r.row.developerWallet != Some(wallet) then Refused(Forbidden)
    else if r.row.status != ASSIGNED then Refused(Conflict)
    else if r.row.baseSha.None? || r.row.baseSha.value == ""
            || r.row.developerGithub.None? || r.row.developerGithub.value == "" then Refused(Conflict)
    else if r.submission.Some? then Refused(Conflict)
    else Proceed
  }

  function ExpectedBy(row: Row): Expected
    requires row.baseSha.Some? && row.developerGithub.Some?
  {
    Expected(row.repoOwner, row.repoName, row.baseBranch, row.baseSha.value, row.developerGithub.value)
  }

  /** A GitHub failure as the client sees it. */
  function GitHubAsHttp(e: GitHubError): HttpError {
    match e
    case InvalidPullRequestUrl => Unprocessable([])
    case PullRequestNotFound => NotFound
    case PullRequestTooLarge => Unprocessable([])
    case CheckRunsTooLarge => Unprocessable([])
    case Unreachable => BadGateway
  }

  /** A pull request as GitHub showed it, with its verdict. */
  datatype Examined = Examined(inspection: Inspection, result: VerificationResult)

  /** Inspects a pull request; its check runs are asked for only when they count. */
  function Examine(cfg: Config, url: string, e: Expected, withChecks: bool, github: Result<Snapshot, GitHubError>)
    : Result<Examined, HttpError>
  {
    if ParsePullRequestUrl(url).Err? then Err(GitHubAsHttp(ParsePullRequestUrl(url).error))
    else if github.Err? then Err(GitHubAsHttp(github.error))
    else
      match Inspect(url, github.value)
      case Err(error) => Err(GitHubAsHttp(error))
      case Ok(i) =>
        match if withChecks then ListCheckRuns(github.value) else Ok([])
        case Err(error) => Err(GitHubAsHttp(error))
        case Ok(runs) => Ok(Examined(i, Verify(cfg.fold, i, runs, e)))
  }

  function SubmissionOf(url: string, i: Inspection): Submission {
    Submission(url, i.pullNumber, i.author, i.headRef, i.headSha)
  }

  /** What a submission becomes, or why it is turned away. */
  function Submit(cfg: Config, r: Record, url: string, github: Result<Snapshot, GitHubError>): Result<Record, HttpError>
    requires r.row.baseSha.Some? && r.row.developerGithub.Some?
  {
    match Examine(cfg, url, ExpectedBy(r.row), false, github)
    case Err(error) => Err(error)
    case Ok(x) =>
      if x.result.status == FAIL then Err(Unprocessable(StructuralReasons(x.result)))
      else
        Ok(Record(r.row.(pullRequestNumber := Some(x.inspection.pullNumber), status := SUBMITTED),
                  Some(SubmissionOf(url, x.inspection)),
                  r.verifications))
  }

  // ------------------------------------------------------------- verification

  predicate Verifiable(status: RowStatus) {
    status == SUBMITTED || status == NEEDS_CHANGES || status == VERIFYING || status == ELIGIBLE
  }

  function StatusAfter(v: Verdict): RowStatus {
    match v
    case PASS => ELIGIBLE
    case FAIL => NEEDS_CHANGES
    case PENDING => VERIFYING
  }

  function AdmitVerification(r: Record, wallet: Address): Admission {
    if Some(wallet) != r.row.clientWallet && Some(wallet) != r.row.developerWallet then Refused(Forbidden)
    else if r.submission.None? then Refused(Conflict)
    else if !Verifiable(r.row.status) then Refused(Conflict)
    else if r.row.releaseTx.Some? then Refused(Conflict)
    else if r.row.criteriaHash.None? || r.row.baseSha.None? || r.row.developerGithub.None? then Refused(Conflict)
    else Proceed
  }

  /** The record with the submission brought up to date and a new last verification. */
  function Recorded(r: Record, x: Examined, seen: Snapshot): Record
    requires r.submission.Some?
  {
    Record(r.row.(pullRequestNumber := Some(x.inspection.pullNumber), status := StatusAfter(x.result.status)),
           Some(SubmissionOf(r.submission.value.url, x.inspection)),
           r.verifications + [Verification(x.result, seen)])
  }

  /** The record as commit #1 leaves it. */
  function Judge(cfg: Config, r: Record, github: Result<Snapshot, GitHubError>): Result<Record, HttpError>
    requires r.submission.Some? && r.row.baseSha.Some? && r.row.developerGithub.Some?
  {
    match Examine(cfg, r.submission.value.url, ExpectedBy(r.row), true, github)
    case Err(error) => Err(error)
    case Ok(x) => Ok(Recorded(r, x, github.value))
  }

  function Last(r: Record): Verification
    requires r.verifications != []
  {
    r.verifications[|r.verifications| - 1]
  }

  // ------------------------------------------------------------- payout

  predicate HasFacts(r: Record) {
    && r.submission.Some?
    && r.row.baseSha.Some?
    && r.row.developerGithub.Some?
    && r.row.criteriaHash.Some?
    && IsHash(r.row.criteriaHash.value)
  }

  function FactsOf(id: u64, r: Record): Facts
    requires HasFacts(r)
  {
    Facts(id, r.row.repoOwner, r.row.repoName, r.row.baseBranch, r.row.baseSha.value, r.row.criteriaHash.value,
          r.row.developerGithub.value, r.submission.value.number, r.submission.value.url)
  }

  function PaidBy(r: Record, txHash: string): Record {
    r.(row := r.row.(releaseTx := Some(txHash), status := PAID))
  }

  // ------------------------------------------------------------- commits

  /** The ORM writes an attribute only when its value differs from the one loaded. */
  function Pick<T(==)>(loaded: T, want: T, current: T): T {
    if want == loaded then current else want
  }

  function PickRow(loaded: Row, want: Row, current: Row): Row {
    Row(Pick(loaded.repoOwner, want.repoOwner, current.repoOwner),
        Pick(loaded.repoName, want.repoName, current.repoName),
        Pick(loaded.baseBranch, want.baseBranch, current.baseBranch),
        Pick(loaded.amount, want.amount, current.amount),
        Pick(loaded.deadline, want.deadline, current.deadline),
        Pick(loaded.criteriaHash, want.criteriaHash, current.criteriaHash),
        Pick(loaded.baseSha, want.baseSha, current.baseSha),
        Pick(loaded.clientWallet, want.clientWallet, current.clientWallet),
        Pick(loaded.developerWallet, want.developerWallet, current.developerWallet),
        Pick(loaded.developerGithub, want.developerGithub, current.developerGithub),
        Pick(loaded.createTx, want.createTx, current.createTx),
        Pick(loaded.releaseTx, want.releaseTx, current.releaseTx),
        Pick(loaded.pullRequestNumber, want.pullRequestNumber, current.pullRequestNumber),
        Pick(loaded.status, want.status, current.status))
  }

  function PickSubmission(loaded: Submission, want: Submission, current: Submission): Submission {
    Submission(Pick(loaded.url, want.url, current.url),
               Pick(loaded.number, want.number, current.number),
               Pick(loaded.author, want.author, current.author),
               Pick(loaded.headRef, want.headRef, current.headRef),
               Pick(loaded.headSha, want.headSha, current.headSha))
  }

  /**
   What the database holds after a request that loaded `loaded` commits `want` over
   `current`. None is the failed commit of a second submission: the column is UNIQUE.
   */
  function Commit(loaded: Record, want: Record, current: Record): Option<Record>
    requires loaded.verifications <= want.verifications
  {
    if loaded.submission.None? && want.submission.Some? && current.submission.Some? then None
    else
      Some(Record(
             PickRow(loaded.row, want.row, current.row),
             if want.submission == loaded.submission then current.submission
             else if loaded.submission.None? || want.submission.None? || current.submission.None? then want.submission
             else Some(PickSubmission(loaded.submission.value, want.submission.value, current.submission.value)),
             current.verifications + want.verifications[|loaded.verifications|..]))
  }

  /** Nothing happened in between: the commit stores what the request computed. */
  lemma CommitUndisturbed(loaded: Record, want: Record)
    requires loaded.verifications <= want.verifications
    requires loaded.submission.Some? ==> want.submission.Some?
    ensures Commit(loaded, want, loaded) == Some(want)
  {
    assert loaded.verifications + want.verifications[|loaded.verifications|..] == want.verifications;
  }

  // ------------------------------------------------------------- honest funding

  /** escrow.ts fundBounty's own checks on the row, before it builds anything. */
  predicate FundBountyAccepts(id: u64, row: Row, client: Address, now: int) {
    && 0 < id <= MAX_SAFE_INTEGER
    && row.status == DRAFT
    && row.criteriaHash.Some? && IsHash(row.criteriaHash.value)
    && 0 < row.amount <= MAX_SAFE_INTEGER
    && now < row.deadline <= MAX_SAFE_INTEGER
    && client.Account?
  }

  /** The call fundBounty signs for a row. */
  function FundingCall(id: u64, row: Row, client: Address): Event
    requires FundBountyAccepts(id, row, client, 0)
  {
    Event.CreateBounty({client}, id, client, row.amount, BytesOf(row.criteriaHash.value), row.deadline)
  }

  /** What that call stores when it goes through. */
  function FundedBounty(id: u64, row: Row, client: Address): Bounty
    requires FundBountyAccepts(id, row, client, 0)
  {
    Bounty(client, None, row.amount, BytesOf(row.criteriaHash.value), None, row.deadline, Open)
  }

  lemma FundedBountyMatches(id: u64, row: Row, client: Address)
    requires FundBountyAccepts(id, row, client, 0)
    ensures CheckFunding(FundedBounty(id, row, client), row, client).None?
  {
    HexOfBytesOf(row.criteriaHash.value);
    LowerIdempotent(row.criteriaHash.value);
  }

  lemma StillOpenIsUntouched(d: Deployment, s: State, events: seq<Event>, id: u64)
    requires Inv(d, s) && id in s.bounties
    ensures var t := Run(d, s, events);
            id in t.bounties && (t.bounties[id].status == Open ==> t.bounties[id] == s.bounties[id])
  {
    RunGrows(d, s, events);
    RunKeepsInv(d, s, events);
    var b, c := s.bounties[id], Run(d, s, events).bounties[id];
    assert Later(b, c) && WellFormed(d, b) && WellFormed(d, c);
  }

  /**
   What the browser builds from a DRAFT row is accepted back. Once the create call
   went through, for as long as the bounty stays Open, whatever else happens on the
   ledger, it passes the backend's comparison for the wallet that signed it.
   */
  lemma HonestFundingIsAccepted(d: Deployment, s: State, id: u64, row: Row, client: Address,
                                  browserNow: nat, after: seq<Event>)
    requires Inv(d, s) && client != d.self && id !in s.bounties
    requires FundBountyAccepts(id, row, client, browserNow)
    requires row.clientWallet.None? || row.clientWallet == Some(client)
    requires id in Step(d, s, FundingCall(id, row, client)).bounties
    ensures var t := Run(d, Step(d, s, FundingCall(id, row, client)), after);
            && id in t.bounties
            && (t.bounties[id].status == Open ==> CheckFunding(t.bounties[id], row, client).None?)
    ensures forall txHash :: AdmitFunding(row, txHash, client) == Proceed
  {
    var funded := Step(d, s, FundingCall(id, row, client));
    assert funded.bounties[id] == FundedBounty(id, row, client);
    StepKeepsInv(d, s, FundingCall(id, row, client));
    StillOpenIsUntouched(d, funded, after, id);
    FundedBountyMatches(id, row, client);
  }

  /**
   A new row always carries a well-formed criteria commitment; the browser can fund it exactly
   while its deadline is ahead and its numbers, which creation does not bound, are safe integers.
   */
  lemma CreatedRowsCanBeFunded(cfg: Config, id: u64, wallet: Address, form: Form, client: Address, now: int)
    requires FormValid(form)
    ensures var row := Created(cfg, wallet, form).row;
            row.criteriaHash.Some? && IsHash(row.criteriaHash.value)
            && Lower(row.criteriaHash.value) == row.criteriaHash.value
    ensures FundBountyAccepts(id, Created(cfg, wallet, form).row, client, now) <==>
            && 0 < id <= MAX_SAFE_INTEGER && form.amount <= MAX_SAFE_INTEGER
            && now < form.deadline <= MAX_SAFE_INTEGER && client.Account?
  {
    BytesOfHexOf(cfg.sha(CriteriaText(form.criteria)));
  }
}
