/**
 What each service decides, said on the row's own columns, the caller's wallet and what Stellar
 and GitHub answered: who is let in, when, what is written and which error is given otherwise.
 */
module Decisions {
  import opened Wrappers
  import opened Text
  import opened HexCodec
  import opened Escrow
  import opened Verifier
  import opened GitHubClient
  import opened Commitments
  import opened Messages
  import opened Records
  import opened Rules
  import opened StellarClient
  import opened Services

  // ------------------------------------------------------------- creation

  /** A new row holds the form's terms, the commitment to its criteria, the caller's wallet and nothing else. */
  lemma CreatesExactly(cfg: Config, wallet: Address, form: Form)
    ensures var r := Created(cfg, wallet, form); var row := r.row;
            && row.repoOwner == form.repoOwner && row.repoName == form.repoName && row.baseBranch == form.baseBranch
            && row.amount == form.amount && row.deadline == form.deadline
            && row.criteriaHash.Some? && CommitsTo(cfg, row.criteriaHash.value, form.criteria)
            && row.clientWallet == Some(wallet) && row.status == DRAFT
            && row.baseSha.None? && row.developerWallet.None? && row.developerGithub.None?
            && row.createTx.None? && row.releaseTx.None? && row.pullRequestNumber.None?
            && r.submission.None? && r.verifications == []
  {
    BytesOfHexOf(cfg.sha(CriteriaText(form.criteria)));
  }

  /** 64 lower-case digits for the digest of the text of these criteria. */
  ghost predicate CommitsTo(cfg: Config, hash: string, criteria: seq<Criterion>) {
    IsHash(hash) && Lower(hash) == hash && BytesOf(hash) == cfg.sha(CriteriaText(criteria))
  }

  // ------------------------------------------------------------- funding

  /** What the browser asks of a row, an account and its clock before it builds the funding call, and the call. */
  lemma BrowserFundsExactly(id: u64, row: Row, client: Address, now: int)
    ensures FundBountyAccepts(id, row, client, now) <==>
            && 0 < id <= 9_007_199_254_740_991 && row.status == DRAFT
            && row.criteriaHash.Some? && IsHash(row.criteriaHash.value)
            && 0 < row.amount <= 9_007_199_254_740_991 && now < row.deadline <= 9_007_199_254_740_991
            && client.Account?
    ensures FundBountyAccepts(id, row, client, 0) ==>
              FundingCall(id, row, client)
              == Event.CreateBounty({client}, id, client, row.amount, BytesOf(row.criteriaHash.value), row.deadline)
  {
  }

  /** The contract holds this row's task, open and untouched, for an account. */
  predicate HoldsOpen(b: Bounty, row: Row) {
    && row.criteriaHash.Some? && Lower(HexOf(b.criteriaHash)) == Lower(row.criteriaHash.value)
    && b.amount == row.amount && b.deadline == row.deadline
    && b.status == Open && b.developer.None? && b.evidenceHash.None? && b.client.Account?
  }

  /** The caller is the row's client, or the row is older than clients and has none. */
  predicate ClientsOwn(row: Row, wallet: Address) {
    row.clientWallet.None? || row.clientWallet.value == wallet
  }

  /** confirm_funding writes exactly when every check passes: the client, the base commit, the hash and the status. */
  lemma FundingWritesExactly(r: Record, txHash: string, wallet: Address, stellar: StellarRead,
                             branchHead: Result<string, HttpError>, committed: bool)
    ensures var served := ServeFunding(r, txHash, wallet, stellar, branchHead, committed); var row := r.row;
            if ClientsOwn(row, wallet) && row.status == DRAFT && stellar.Read? && HoldsOpen(stellar.bounty, row)
               && stellar.bounty.client == wallet && branchHead.Ok? && committed
            then
              && served.record.row == row.(clientWallet := Some(wallet), baseSha := Some(branchHead.value),
                                           createTx := Some(Lower(txHash)), status := OPEN_FUNDED)
              && served.record.submission == r.submission && served.record.verifications == r.verifications
              && served.answer == Ok(served.record)
            else
              && served.record == r
              && (served.answer.Ok? <==>
                   ClientsOwn(row, wallet) && row.status == OPEN_FUNDED && row.createTx == Some(Lower(txHash)))
              && (served.answer.Ok? ==> served.answer.value == r)
  {
    hide Lower, HexOf;
  }

  /** And otherwise the error says which check stopped it. */
  lemma FundingErrorsExactly(r: Record, txHash: string, wallet: Address, stellar: StellarRead,
                             branchHead: Result<string, HttpError>, committed: bool)
    ensures var answer := ServeFunding(r, txHash, wallet, stellar, branchHead, committed).answer; var row := r.row;
            && (!ClientsOwn(row, wallet) ==> answer == Err(Some(Forbidden)))
            && (ClientsOwn(row, wallet) && row.status == OPEN_FUNDED && row.createTx != Some(Lower(txHash)) ==>
                  answer == Err(Some(Conflict)))
            && (ClientsOwn(row, wallet) && row.status != OPEN_FUNDED && row.status != DRAFT ==>
                  answer == Err(Some(Conflict)))
            && (ClientsOwn(row, wallet) && row.status == DRAFT ==>
                  if row.criteriaHash.None? then answer == Err(Some(Conflict))
                  else if stellar.NotConfigured? then answer == Err(Some(Unavailable))
                  else if stellar.ReadFailed? then answer == Err(Some(BadGateway))
                  else if stellar.ReadCrashed? then answer == Err(None)
                  else if !HoldsOpen(stellar.bounty, row) then answer == Err(Some(Unprocessable([])))
                  else if stellar.bounty.client != wallet then answer == Err(Some(Forbidden))
                  else if branchHead.Err? then answer == Err(Some(branchHead.error))
                  else !committed ==> answer == Err(None))
  {
    hide Lower, HexOf;
  }

  // ------------------------------------------------------------- assignment

  /** The contract holds this row's task, assigned and unpaid, for its client and an account. */
  predicate HoldsAssigned(b: Bounty, row: Row) {
    && row.criteriaHash.Some? && Lower(HexOf(b.criteriaHash)) == Lower(row.criteriaHash.value)
    && b.amount == row.amount && b.deadline == row.deadline
    && b.status == Assigned && b.evidenceHash.None? && Some(b.client) == row.clientWallet
    && b.developer.Some? && b.developer.value.Account?
  }

  /** This wallet signed for this name, bounty, transaction and contract. */
  predicate Owns(cfg: Config, signed: set<(Address, string)>, id: u64, txHash: string, wallet: Address,
                 github: string) {
    (wallet, AssignmentMessage(Assignment(id, txHash, cfg.show(wallet), github, cfg.contractId))) in signed
  }

  /** The funded row is whole. */
  predicate Whole(row: Row) {
    row.clientWallet.Some? && row.criteriaHash.Some? && row.baseSha.Some? && row.createTx.Some?
  }

  lemma AssignmentWritesExactly(cfg: Config, signed: set<(Address, string)>, id: u64, r: Record, txHash: string,
                                github: string, wallet: Address, stellar: StellarRead, committed: bool)
    ensures var served := ServeAssignment(cfg, signed, id, r, txHash, github, wallet, stellar, committed);
            var row := r.row;
            if row.status == OPEN_FUNDED && row.clientWallet != Some(wallet) && Whole(row)
               && stellar.Read? && HoldsAssigned(stellar.bounty, row) && stellar.bounty.developer == Some(wallet)
               && Owns(cfg, signed, id, txHash, wallet, github) && committed
            then
              && served.record.row == row.(developerWallet := Some(wallet), developerGithub := Some(github),
                                           status := ASSIGNED)
              && served.record.submission == r.submission && served.record.verifications == r.verifications
              && served.answer == Ok(served.record)
            else
              && served.record == r
              && (served.answer.Ok? <==>
                   row.status == ASSIGNED && row.developerWallet == Some(wallet) && row.developerGithub.Some?
                   && CaseFold(cfg.fold, row.developerGithub.value) == CaseFold(cfg.fold, github))
              && (served.answer.Ok? ==> served.answer.value == r)
  {
    hide Lower, HexOf, AssignmentMessage, CaseFold;
  }

  lemma AssignmentErrorsExactly(cfg: Config, signed: set<(Address, string)>, id: u64, r: Record, txHash: string,
                                github: string, wallet: Address, stellar: StellarRead, committed: bool)
    ensures var answer := ServeAssignment(cfg, signed, id, r, txHash, github, wallet, stellar, committed).answer;
            var row := r.row;
            && (row.status == ASSIGNED && row.developerWallet != Some(wallet) ==> answer == Err(Some(Forbidden)))
            && (row.status == ASSIGNED && row.developerWallet == Some(wallet)
                && (row.developerGithub.None?
                    || CaseFold(cfg.fold, row.developerGithub.value) != CaseFold(cfg.fold, github)) ==>
                  answer == Err(Some(Conflict)))
            && (row.status != ASSIGNED && row.status != OPEN_FUNDED ==> answer == Err(Some(Conflict)))
            && (row.status == OPEN_FUNDED ==>
                  if row.clientWallet == Some(wallet) then answer == Err(Some(Forbidden))
                  else if !Whole(row) then answer == Err(Some(Conflict))
                  else if stellar.NotConfigured? then answer == Err(Some(Unavailable))
                  else if stellar.ReadFailed? then answer == Err(Some(BadGateway))
                  else if stellar.ReadCrashed? then answer == Err(None)
                  else if !HoldsAssigned(stellar.bounty, row) then answer == Err(Some(Unprocessable([])))
                  else if stellar.bounty.developer != Some(wallet) then answer == Err(Some(Forbidden))
                  else if !Owns(cfg, signed, id, txHash, wallet, github) then answer == Err(Some(Forbidden))
                  else !committed ==> answer == Err(None))
  {
    hide Lower, HexOf, AssignmentMessage, CaseFold;
  }

  // ------------------------------------------------------------- what GitHub says

  /** What the client makes of GitHub: the pull request of this URL, with all its files, or the HTTP error. */
  lemma GitHubErrorsExactly(cfg: Config, url: string, e: Expected, withChecks: bool,
                            github: Result<Snapshot, GitHubError>)
    ensures var x := Examine(cfg, url, e, withChecks, github);
            if ParsePullRequestUrl(url).Err? then x == Err(Unprocessable([]))
            else if github.Err? then
              x == Err(match github.error
                       case InvalidPullRequestUrl => Unprocessable([])
                       case PullRequestNotFound => NotFound
                       case PullRequestTooLarge => Unprocessable([])
                       case CheckRunsTooLarge => Unprocessable([])
                       case Unreachable => BadGateway)
            else if |github.value.files| > 100 then x == Err(Unprocessable([]))
            else if withChecks && github.value.countsRuns && |github.value.checkRuns| > 100 then
              x == Err(Unprocessable([]))
            else
              && x.Ok? && IsPullRequest(x.value.inspection, url, github.value)
              && x.value.result == Verify(cfg.fold, x.value.inspection,
                                          if withChecks then FirstPage(github.value) else [], e)
  {
    assert ParsePullRequestUrl(url).Err? ==> ParsePullRequestUrl(url).error == InvalidPullRequestUrl;
    hide ParsePullRequestUrl, Verify;
    if github.Ok? {
      FilesAreWholeOrRefused(github.value);
      CheckRunsAreWholeOrRefused(github.value);
    }
  }

  /** The runs on the first page of a hundred. */
  function FirstPage(s: Snapshot): seq<CheckRun> {
    if |s.checkRuns| <= 100 then s.checkRuns else s.checkRuns[..100]
  }

  /** Coordinates from the URL, everything else as GitHub shows it. */
  predicate IsPullRequest(i: Inspection, url: string, s: Snapshot) {
    && ParsePullRequestUrl(url).Ok?
    && var ref := ParsePullRequestUrl(url).value;
    && i.owner == ref.owner && i.repo == ref.repo && i.pullNumber == ref.pullNumber
    && i.state == s.state && i.draft == s.draft && i.author == s.author
    && i.baseRef == s.baseRef && i.baseSha == s.baseSha && i.headRef == s.headRef && i.headSha == s.headSha
    && i.files == s.files
  }

  /** The pull request is this bounty's, by its developer, and in order. */
  ghost predicate Acceptable(cfg: Config, i: Inspection, row: Row) {
    && row.baseSha.Some? && row.developerGithub.Some?
    && InOrder(cfg.fold, i, Expected(row.repoOwner, row.repoName, row.baseBranch, row.baseSha.value,
                                     row.developerGithub.value))
  }

  // ------------------------------------------------------------- submission

  /** The caller is the row's developer, the row awaits a submission, and what it is judged by is there. */
  predicate MaySubmit(r: Record, wallet: Address) {
    && r.row.developerWallet == Some(wallet) && r.row.status == ASSIGNED && r.submission.None?
    && r.row.baseSha.Some? && r.row.baseSha.value != ""
    && r.row.developerGithub.Some? && r.row.developerGithub.value != ""
  }

  lemma RefusedSubmission(cfg: Config, r: Record, url: string, wallet: Address, github: Result<Snapshot, GitHubError>,
                          committed: bool)
    requires !MaySubmit(r, wallet)
    ensures ServeSubmission(cfg, r, url, wallet, github, committed)
         == Served(r, Err(Some(if r.row.developerWallet != Some(wallet) then Forbidden else Conflict)))
  {
    hide Submit;
  }

  /** What an admitted submission is answered, and what it stores. */
  lemma ServedSubmission(cfg: Config, r: Record, url: string, wallet: Address, github: Result<Snapshot, GitHubError>,
                         committed: bool)
    requires MaySubmit(r, wallet)
    ensures var served := ServeSubmission(cfg, r, url, wallet, github, committed);
            var e := Expected(r.row.repoOwner, r.row.repoName, r.row.baseBranch, r.row.baseSha.value,
                              r.row.developerGithub.value);
            match Examine(cfg, url, e, false, github)
            case Err(error) => served == Served(r, Err(Some(error)))
            case Ok(x) =>
              if !Acceptable(cfg, x.inspection, r.row) then
                served == Served(r, Err(Some(Unprocessable(SaidOfStructure(cfg.fold, x.inspection, e)))))
              else if !committed then served == Served(r, Err(None))
              else
                && served.record.row == r.row.(pullRequestNumber := Some(x.inspection.pullNumber), status := SUBMITTED)
                && served.record.submission == Some(Submission(url, x.inspection.pullNumber, x.inspection.author,
                                                               x.inspection.headRef, x.inspection.headSha))
                && served.record.verifications == r.verifications
                && served.answer == Ok(served.record.submission.value)
  {
    var e := Expected(r.row.repoOwner, r.row.repoName, r.row.baseBranch, r.row.baseSha.value,
                      r.row.developerGithub.value);
    GitHubErrorsExactly(cfg, url, e, false, github);
    hide Examine, InOrder, SaidOfStructure;
    if Examine(cfg, url, e, false, github).Ok? {
      var i := Examine(cfg, url, e, false, github).value.inspection;
      VerdictExactly(cfg.fold, i, [], e);
      ResultExactly(cfg.fold, i, [], e);
      NoRuns(i.headSha);
      hide Verify;
    }
  }

  lemma NoRuns(headSha: string)
    ensures SomeWaiting([], headSha) && !AllPassed([], headSha)
  {
  }

  /**
   Only the row's developer submits, only while the row is ASSIGNED and has none, and only a pull
   request in order: nothing else changes the record or is answered with a submission.
   */
  lemma SubmissionWritesExactly(cfg: Config, r: Record, url: string, wallet: Address,
                                github: Result<Snapshot, GitHubError>, committed: bool)
    ensures var served := ServeSubmission(cfg, r, url, wallet, github, committed);
            && (served.answer.Ok? <==>
                 && r.row.developerWallet == Some(wallet) && r.row.status == ASSIGNED && r.submission.None?
                 && r.row.baseSha.Some? && r.row.baseSha.value != ""
                 && r.row.developerGithub.Some? && r.row.developerGithub.value != ""
                 && ParsePullRequestUrl(url).Ok? && github.Ok? && |github.value.files| <= 100
                 && (exists i :: IsPullRequest(i, url, github.value) && Acceptable(cfg, i, r.row))
                 && committed)
            && (!served.answer.Ok? ==> served.record == r)
  {
    hide ServeSubmission, ParsePullRequestUrl, InOrder;
    if MaySubmit(r, wallet) {
      var e := Expected(r.row.repoOwner, r.row.repoName, r.row.baseBranch, r.row.baseSha.value,
                        r.row.developerGithub.value);
      ServedSubmission(cfg, r, url, wallet, github, committed);
      GitHubErrorsExactly(cfg, url, e, false, github);
      hide Examine, Verify;
      if ParsePullRequestUrl(url).Ok? && github.Ok? {
        forall i, j | IsPullRequest(i, url, github.value) && IsPullRequest(j, url, github.value) ensures i == j {
        }
      }
    } else {
      RefusedSubmission(cfg, r, url, wallet, github, committed);
    }
  }

  // ------------------------------------------------------------- verification

  /** A verification may run: a submission, no payout, and one of the four statuses that await a verdict or a payout. */
  predicate Awaits(r: Record) {
    && r.submission.Some? && r.row.releaseTx.None?
    && (r.row.status == SUBMITTED || r.row.status == NEEDS_CHANGES || r.row.status == VERIFYING
        || r.row.status == ELIGIBLE)
    && r.row.criteriaHash.Some? && r.row.baseSha.Some? && r.row.developerGithub.Some?
  }

  /** The caller is the row's client or its developer. */
  predicate Participates(row: Row, wallet: Address) {
    row.clientWallet == Some(wallet) || row.developerWallet == Some(wallet)
  }

  lemma RefusedVerification(cfg: Config, id: u64, r: Record, wallet: Address, github: Result<Snapshot, GitHubError>,
                            first: bool, release: ReleaseReply, second: bool)
    requires !Participates(r.row, wallet) || !Awaits(r)
    ensures ServeVerification(cfg, r, wallet, github, first, release, second)
         == Served(r, Err(Some(if !Participates(r.row, wallet) then Forbidden else Conflict)))
    ensures EvidenceSent(cfg, id, r, wallet, github, first, release) == None
  {
    hide ServeVerdict, ServePayout;
  }

  /** The verdict as a status of the row. */
  ghost predicate Becomes(status: RowStatus, v: Verdict) {
    match v
    case PASS => status == ELIGIBLE
    case FAIL => status == NEEDS_CHANGES
    case PENDING => status == VERIFYING
  }

  /** Commit #1 of an admitted verification: what is stored, and what is answered if it cannot be. */
  lemma VerdictWritesExactly(cfg: Config, r: Record, github: Result<Snapshot, GitHubError>, committed: bool)
    requires Awaits(r)
    ensures var judged := ServeVerdict(cfg, r, github, committed);
            var url := r.submission.value.url;
            var e := Expected(r.row.repoOwner, r.row.repoName, r.row.baseBranch, r.row.baseSha.value,
                              r.row.developerGithub.value);
            match Examine(cfg, url, e, true, github)
            case Err(error) => judged == Served(r, Err(Some(error)))
            case Ok(x) =>
              if !committed then judged == Served(r, Err(None))
              else
                && github.Ok? && judged.answer == Ok(Verification(x.result, github.value))
                && judged.record.verifications == r.verifications + [judged.answer.value]
                && judged.record.submission == Some(Submission(url, x.inspection.pullNumber, x.inspection.author,
                                                               x.inspection.headRef, x.inspection.headSha))
                && Becomes(judged.record.row.status, x.result.status)
                && judged.record.row == r.row.(pullRequestNumber := Some(x.inspection.pullNumber),
                                               status := judged.record.row.status)
  {
    hide Inspect, ListCheckRuns, ParsePullRequestUrl, Verify;
  }

  /** The facts of this record, each where it belongs. */
  predicate Describes(f: Facts, id: u64, r: Record) {
    && f.bountyId == id && f.repoOwner == r.row.repoOwner && f.repoName == r.row.repoName
    && f.baseBranch == r.row.baseBranch && Some(f.baseSha) == r.row.baseSha
    && Some(f.criteriaHash) == r.row.criteriaHash && Some(f.developerGithub) == r.row.developerGithub
    && r.submission.Some? && f.pullRequestNumber == r.submission.value.number
    && f.pullRequestUrl == r.submission.value.url
  }

  /** A payout of a judged record: the release decides, and only one that succeeded makes the row PAID. */
  lemma PayoutWritesExactly(id: u64, r: Record, release: ReleaseReply, committed: bool)
    requires r.verifications != [] && r.submission.Some?
    requires r.row.criteriaHash.Some? && r.row.baseSha.Some? && r.row.developerGithub.Some?
    ensures HasFacts(r) <==> IsHash(r.row.criteriaHash.value)
    ensures HasFacts(r) ==> Describes(FactsOf(id, r), id, r)
    ensures var served := ServePayout(r, release, committed);
            if !IsHash(r.row.criteriaHash.value) then served == Served(r, Err(None))
            else
              match release
              case ReleaseNotConfigured => served == Served(r, Err(Some(Unavailable)))
              case ReleaseErrored => served == Served(r, Err(Some(BadGateway)))
              case ReleaseCrashed => served == Served(r, Err(None))
              case ReleaseSucceeded(txHash) =>
                if !committed then served == Served(r, Err(None))
                else
                  && served.record == r.(row := served.record.row)
                  && served.record.row == r.row.(releaseTx := Some(txHash), status := PAID)
                  && served.answer == Ok(r.verifications[|r.verifications| - 1])
  {
    hide IsHash;
  }

  /** What the payout of a stored PASS needs. */
  lemma VerdictIsPayable(cfg: Config, r: Record, github: Result<Snapshot, GitHubError>, committed: bool)
    requires Awaits(r)
    ensures var judged := ServeVerdict(cfg, r, github, committed);
            judged.answer.Ok? ==>
              && judged.record.verifications == r.verifications + [judged.answer.value]
              && judged.record.submission.Some? && judged.record.row.criteriaHash == r.row.criteriaHash
              && judged.record.row.baseSha == r.row.baseSha
              && judged.record.row.developerGithub == r.row.developerGithub
  {
    VerdictWritesExactly(cfg, r, github, committed);
    hide Examine, ServeVerdict, Becomes;
  }

  lemma VerificationIsAdmitted(r: Record, wallet: Address)
    requires Participates(r.row, wallet) && Awaits(r)
    ensures AdmitVerification(r, wallet).Proceed?
    ensures r.submission.Some? && r.row.criteriaHash.Some? && r.row.baseSha.Some? && r.row.developerGithub.Some?
  {
  }

  /** A verification of a participant: commit #1, and for a PASS that could be stored, and nothing else, the payout. */
  lemma VerificationWritesExactly(cfg: Config, id: u64, r: Record, wallet: Address,
                                  github: Result<Snapshot, GitHubError>, first: bool, release: ReleaseReply,
                                  second: bool)
    requires Participates(r.row, wallet) && Awaits(r)
    ensures var served := ServeVerification(cfg, r, wallet, github, first, release, second);
            var sent := EvidenceSent(cfg, id, r, wallet, github, first, release);
            var judged := ServeVerdict(cfg, r, github, first);
            if judged.answer.Err? || judged.answer.value.result.status != PASS then served == judged && sent == None
            else
              && judged.record.verifications == r.verifications + [judged.answer.value]
              && served == ServePayout(judged.record, release, second)
              && (sent.Some? <==> IsHash(r.row.criteriaHash.value) && !release.ReleaseNotConfigured?)
              && (sent.Some? ==> && sent.value.1 == judged.answer.value.result
                                 && Describes(sent.value.0, id, judged.record))
  {
    hide ServeVerdict, ServePayout, IsHash, HasFacts, FactsOf, Describes, AdmitVerification, Awaits, Participates;
    VerificationIsAdmitted(r, wallet);
    VerdictIsPayable(cfg, r, github, first);
    var judged := ServeVerdict(cfg, r, github, first);
    if judged.answer.Ok? {
      PayoutWritesExactly(id, judged.record, release, second);
    }
  }

  // ------------------------------------------------------------- commits

  /** A column holds what the request wants if it changed it, and otherwise what is there. */
  predicate Column<T(==)>(loaded: T, want: T, current: T, stored: T) {
    if want == loaded then stored == current else stored == want
  }

  /** A commit writes exactly the changed columns, appends the verifications, and fails only on a second submission. */
  lemma CommitsExactly(loaded: Record, want: Record, current: Record)
    requires loaded.verifications <= want.verifications
    ensures var c := Commit(loaded, want, current);
            && (c.None? <==> loaded.submission.None? && want.submission.Some? && current.submission.Some?)
            && (c.Some? ==>
                  && RowColumns(loaded.row, want.row, current.row, c.value.row)
                  && c.value.verifications == current.verifications + want.verifications[|loaded.verifications|..]
                  && (want.submission == loaded.submission ==> c.value.submission == current.submission)
                  && (want.submission != loaded.submission && loaded.submission.Some? && want.submission.Some?
                      && current.submission.Some? ==>
                        c.value.submission.Some?
                        && SubmissionColumns(loaded.submission.value, want.submission.value, current.submission.value,
                                             c.value.submission.value))
                  && (loaded.submission.None? && want.submission.Some? ==> c.value.submission == want.submission))
  {
  }

  predicate RowColumns(l: Row, w: Row, c: Row, s: Row) {
    && Column(l.repoOwner, w.repoOwner, c.repoOwner, s.repoOwner)
    && Column(l.repoName, w.repoName, c.repoName, s.repoName)
    && Column(l.baseBranch, w.baseBranch, c.baseBranch, s.baseBranch)
    && Column(l.amount, w.amount, c.amount, s.amount) && Column(l.deadline, w.deadline, c.deadline, s.deadline)
    && Column(l.criteriaHash, w.criteriaHash, c.criteriaHash, s.criteriaHash)
    && Column(l.baseSha, w.baseSha, c.baseSha, s.baseSha)
    && Column(l.clientWallet, w.clientWallet, c.clientWallet, s.clientWallet)
    && Column(l.developerWallet, w.developerWallet, c.developerWallet, s.developerWallet)
    && Column(l.developerGithub, w.developerGithub, c.developerGithub, s.developerGithub)
    && Column(l.createTx, w.createTx, c.createTx, s.createTx)
    && Column(l.releaseTx, w.releaseTx, c.releaseTx, s.releaseTx)
    && Column(l.pullRequestNumber, w.pullRequestNumber, c.pullRequestNumber, s.pullRequestNumber)
    && Column(l.status, w.status, c.status, s.status)
  }

  predicate SubmissionColumns(l: Submission, w: Submission, c: Submission, s: Submission) {
    && Column(l.url, w.url, c.url, s.url) && Column(l.number, w.number, c.number, s.number)
    && Column(l.author, w.author, c.author, s.author)
    && Column(l.headRef, w.headRef, c.headRef, s.headRef) && Column(l.headSha, w.headSha, c.headSha, s.headSha)
  }
}
