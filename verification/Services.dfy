/**
 The service functions as they run: each loads one bounty's row, checks, reads
 Stellar or GitHub, assigns attributes and commits. What the network answers and
 whether a commit goes through are inputs. Each is proved against the decision
 functions of Records, and a run of one alone is a run of the system's steps.
 */
module Services {
  import opened Wrappers
  import opened Text
  import opened Escrow
  import opened Verifier
  import opened GitHubClient
  import opened Commitments
  import opened Records
  import opened Settlement
  import opened StellarClient

  /** Building the client, checking the transaction and reading the bounty. */
  datatype StellarRead = NotConfigured | ReadFailed | ReadCrashed | Read(bounty: Bounty)

  /** What a service leaves in the database and what it answers; None is an unhandled failure. */
  datatype Served<T> = Served(record: Record, answer: Result<T, Option<HttpError>>)

  // ------------------------------------------------------------- specifications

  function ServeFunding(r: Record, txHash: string, wallet: Address, stellar: StellarRead,
                        branchHead: Result<string, HttpError>, committed: bool): Served<Record>
  {
    match AdmitFunding(r.row, txHash, wallet)
    case Already => Served(r, Ok(r))
    case Refused(error) => Served(r, Err(Some(error)))
    case Proceed =>
      match stellar
      case NotConfigured => Served(r, Err(Some(Unavailable)))
      case ReadFailed => Served(r, Err(Some(BadGateway)))
      case ReadCrashed => Served(r, Err(None))
      case Read(b) =>
        match CheckFunding(b, r.row, wallet)
        case Some(error) => Served(r, Err(Some(error)))
        case None =>
          match branchHead
          case Err(error) => Served(r, Err(Some(error)))
          case Ok(baseSha) =>
            if committed then Served(Funded(r, b, txHash, baseSha), Ok(Funded(r, b, txHash, baseSha)))
            else Served(r, Err(None))
  }

  function ServeAssignment(cfg: Config, signed: set<(Address, string)>, id: u64, r: Record, txHash: string,
                           github: string, wallet: Address, stellar: StellarRead, committed: bool): Served<Record>
  {
    match AdmitAssignment(cfg, r.row, github, wallet)
    case Already => Served(r, Ok(r))
    case Refused(error) => Served(r, Err(Some(error)))
    case Proceed =>
      match stellar
      case NotConfigured => Served(r, Err(Some(Unavailable)))
      case ReadFailed => Served(r, Err(Some(BadGateway)))
      case ReadCrashed => Served(r, Err(None))
      case Read(b) =>
        match CheckAssignment(cfg, signed, b, r.row, id, txHash, github, wallet)
        case Some(error) => Served(r, Err(Some(error)))
        case None =>
          if committed then Served(Accepted(r, b, github), Ok(Accepted(r, b, github))) else Served(r, Err(None))
  }

  function ServeSubmission(cfg: Config, r: Record, url: string, wallet: Address,
                           github: Result<Snapshot, GitHubError>, committed: bool): Served<Submission>
  {
    match AdmitSubmission(r, wallet)
    case Already => Served(r, Err(None))
    case Refused(error) => Served(r, Err(Some(error)))
    case Proceed =>
      match Submit(cfg, r, url, github)
      case Err(error) => Served(r, Err(Some(error)))
      case Ok(want) => if committed then Served(want, Ok(want.submission.value)) else Served(r, Err(None))
  }

  /** After commit #1 of a PASS: what the payout makes of the record. */
  function ServePayout(r: Record, release: ReleaseReply, committed: bool): Served<Verification>
    requires r.verifications != []
  {
    if !HasFacts(r) then Served(r, Err(None))
    else
      match release
      case ReleaseNotConfigured => Served(r, Err(Some(Unavailable)))
      case ReleaseErrored => Served(r, Err(Some(BadGateway)))
      case ReleaseCrashed => Served(r, Err(None))
      case ReleaseSucceeded(txHash) =>
        if committed then Served(PaidBy(r, txHash), Ok(Last(r))) else Served(r, Err(None))
  }

  /** Commit #1: what an admitted verification makes of the record. */
  function ServeVerdict(cfg: Config, r: Record, github: Result<Snapshot, GitHubError>, committed: bool)
    : Served<Verification>
    requires r.submission.Some? && r.row.baseSha.Some? && r.row.developerGithub.Some?
  {
    match Judge(cfg, r, github)
    case Err(error) => Served(r, Err(Some(error)))
    case Ok(judged) => if committed then Served(judged, Ok(Last(judged))) else Served(r, Err(None))
  }

  function ServeVerification(cfg: Config, r: Record, wallet: Address, github: Result<Snapshot, GitHubError>,
                             firstCommit: bool, release: ReleaseReply, secondCommit: bool): Served<Verification>
  {
    match AdmitVerification(r, wallet)
    case Already => Served(r, Err(None))
    case Refused(error) => Served(r, Err(Some(error)))
    case Proceed =>
      var judged := ServeVerdict(cfg, r, github, firstCommit);
      if judged.answer.Err? || judged.answer.value.result.status != PASS then judged
      else ServePayout(judged.record, release, secondCommit)
  }

  /** The evidence a verification has the Stellar client send, if it gets that far. */
  function EvidenceSent(cfg: Config, id: u64, r: Record, wallet: Address, github: Result<Snapshot, GitHubError>,
                        firstCommit: bool, release: ReleaseReply): Option<(Facts, VerificationResult)>
  {
    if !AdmitVerification(r, wallet).Proceed? then None
    else
      var judged := ServeVerdict(cfg, r, github, firstCommit);
      if judged.answer.Err? || judged.answer.value.result.status != PASS
         || !HasFacts(judged.record) || release.ReleaseNotConfigured? then None
      else Some((FactsOf(id, judged.record), judged.answer.value.result))
  }

  // ------------------------------------------------------------- asking again

  /**
   A funding confirmation may be repeated: the same transaction, in either case of its
   digits, is answered with the record as it is, and any other is a conflict.
   */
  lemma FundingIsIdempotent(r: Record, txHash: string, wallet: Address, stellar: StellarRead,
                            branchHead: Result<string, HttpError>, again: string, later: StellarRead,
                            laterHead: Result<string, HttpError>, committed: bool)
    requires ServeFunding(r, txHash, wallet, stellar, branchHead, true).answer.Ok?
    ensures var done := ServeFunding(r, txHash, wallet, stellar, branchHead, true).record;
            (ServeFunding(done, again, wallet, later, laterHead, committed)
             == Served(done, if Lower(again) == Lower(txHash) then Ok(done) else Err(Some(Conflict))))
  {
    hide Lower, MatchesTask;
  }

  /** So may an acceptance, by the same wallet and for the same GitHub name; nobody else takes it over. */
  lemma AssignmentIsIdempotent(cfg: Config, signed: set<(Address, string)>, id: u64, r: Record, txHash: string,
                               github: string, wallet: Address, stellar: StellarRead,
                               laterHash: string, laterName: string, other: Address, later: StellarRead,
                               committed: bool)
    requires ServeAssignment(cfg, signed, id, r, txHash, github, wallet, stellar, true).answer.Ok?
    ensures var done := ServeAssignment(cfg, signed, id, r, txHash, github, wallet, stellar, true).record;
            && done.row.developerWallet == Some(wallet) && done.row.developerGithub.Some?
            && SameFolded(cfg.fold, done.row.developerGithub.value, github)
            && (ServeAssignment(cfg, signed, id, done, laterHash, laterName, other, later, committed)
                == Served(done, if other != wallet then Err(Some(Forbidden))
                                else if SameFolded(cfg.fold, done.row.developerGithub.value, laterName) then Ok(done)
                                else Err(Some(Conflict))))
  {
    hide OwnershipMessage, MatchesAssignment;
  }

  /** A bounty takes one submission. */
  lemma SubmissionIsFinal(cfg: Config, r: Record, url: string, wallet: Address, github: Result<Snapshot, GitHubError>,
                          laterUrl: string, other: Address, later: Result<Snapshot, GitHubError>, committed: bool)
    requires ServeSubmission(cfg, r, url, wallet, github, true).answer.Ok?
    ensures var done := ServeSubmission(cfg, r, url, wallet, github, true).record;
            (ServeSubmission(cfg, done, laterUrl, other, later, committed)
             == Served(done, Err(Some(if done.row.developerWallet == Some(other) then Conflict else Forbidden))))
  {
    hide Examine;
  }

  /** A paid record is final: whoever asks for whatever, and whatever Stellar and GitHub then say, it stays. */
  lemma PaidIsFinal(cfg: Config, signed: set<(Address, string)>, id: u64, r: Record, text: string, name: string,
                    wallet: Address, stellar: StellarRead, branchHead: Result<string, HttpError>,
                    github: Result<Snapshot, GitHubError>, release: ReleaseReply, first: bool, second: bool)
    requires r.row.status == PAID
    ensures ServeFunding(r, text, wallet, stellar, branchHead, first).record == r
    ensures ServeAssignment(cfg, signed, id, r, text, name, wallet, stellar, first).record == r
    ensures ServeSubmission(cfg, r, text, wallet, github, first).record == r
    ensures ServeVerification(cfg, r, wallet, github, first, release, second).record == r
    ensures EvidenceSent(cfg, id, r, wallet, github, first, release) == None
  {
    hide CheckFunding, CheckAssignment, Submit, ServeVerdict, ServePayout;
  }

  // ------------------------------------------------------------- GitHub

  /** The calls both services make inside `github_errors_as_http`. */
  method ExaminePullRequest(cfg: Config, url: string, e: Expected, withChecks: bool,
                            github: Result<Snapshot, GitHubError>)
    returns (x: Result<Examined, HttpError>)
    ensures x == Examine(cfg, url, e, withChecks, github)
    ensures x.Ok? ==> github.Ok?
  {
    var parsed := ParsePullRequestUrl(url);
    if parsed.Err? { return Err(GitHubAsHttp(parsed.error)); }
    if github.Err? { return Err(GitHubAsHttp(github.error)); }
    var inspected := Inspect(url, github.value);
    if inspected.Err? { return Err(GitHubAsHttp(inspected.error)); }
    var runs: seq<CheckRun> := [];
    if withChecks {
      var listed := ListCheckRuns(github.value);
      if listed.Err? { return Err(GitHubAsHttp(listed.error)); }
      runs := listed.value;
    }
    var result := VerifyPullRequest(cfg.fold, inspected.value, runs, e);
    return Ok(Examined(inspected.value, result));
  }

  // ------------------------------------------------------------- the mapped row

  /** A row of `bounties` with its relationships, as the ORM maps it. */
  class BountyRow {
    const id: u64
    var terms: Row
    var baseSha: Option<string>
    var clientWallet: Option<Address>
    var developerWallet: Option<Address>
    var developerGithub: Option<string>
    var createTx: Option<string>
    var releaseTx: Option<string>
    var pullRequestNumber: Option<nat>
    var status: RowStatus
    var submission: Option<Submission>
    var verifications: seq<Verification>

    constructor (id: u64, r: Record)
      ensures this.id == id && Value() == r
    {
      this.id := id;
      terms := r.row;
      baseSha, clientWallet := r.row.baseSha, r.row.clientWallet;
      developerWallet, developerGithub := r.row.developerWallet, r.row.developerGithub;
      createTx, releaseTx := r.row.createTx, r.row.releaseTx;
      pullRequestNumber, status := r.row.pullRequestNumber, r.row.status;
      submission, verifications := r.submission, r.verifications;
    }

    /** The columns written only at creation are in `terms`; the others are fields. */
    function CurrentRow(): Row
      reads this
    {
      Row(terms.repoOwner, terms.repoName, terms.baseBranch, terms.amount, terms.deadline, terms.criteriaHash,
          baseSha, clientWallet, developerWallet, developerGithub, createTx, releaseTx, pullRequestNumber, status)
    }

    function Value(): Record
      reads this
    {
      Record(CurrentRow(), submission, verifications)
    }

    method ConfirmFunding(txHash: string, wallet: Address, stellar: StellarRead,
                          branchHead: Result<string, HttpError>, committed: bool)
      returns (answer: Result<Record, Option<HttpError>>)
      modifies this
      ensures Served(Value(), answer) == ServeFunding(old(Value()), txHash, wallet, stellar, branchHead, committed)
    {
      hide Lower;
      if clientWallet.Some? && clientWallet.value != wallet { return Err(Some(Forbidden)); }

      var normalizedHash := Lower(txHash);
      if status == OPEN_FUNDED {
        if createTx == Some(normalizedHash) { return Ok(Value()); }
        return Err(Some(Conflict));
      }
      if status != DRAFT { return Err(Some(Conflict)); }
      if terms.criteriaHash.None? { return Err(Some(Conflict)); }

      if stellar.NotConfigured? { return Err(Some(Unavailable)); }
      if stellar.ReadFailed? { return Err(Some(BadGateway)); }
      if stellar.ReadCrashed? { return Err(None); }
      var onChain := stellar.bounty;
      if !MatchesTask(onChain, CurrentRow()) { return Err(Some(Unprocessable([]))); }
      if onChain.client != wallet { return Err(Some(Forbidden)); }
      if branchHead.Err? { return Err(Some(branchHead.error)); }

      if !committed { return Err(None); }
      clientWallet := Some(onChain.client);
      baseSha := Some(branchHead.value);
      createTx := Some(normalizedHash);
      status := OPEN_FUNDED;
      return Ok(Value());
    }

    method ConfirmAssignment(cfg: Config, signed: set<(Address, string)>, txHash: string, github: string,
                             wallet: Address, stellar: StellarRead, committed: bool)
      returns (answer: Result<Record, Option<HttpError>>)
      modifies this
      ensures Served(Value(), answer)
           == ServeAssignment(cfg, signed, id, old(Value()), txHash, github, wallet, stellar, committed)
    {
      if status == ASSIGNED {
        if developerWallet != Some(wallet) { return Err(Some(Forbidden)); }
        if developerGithub.Some? && SameFolded(cfg.fold, developerGithub.value, github) { return Ok(Value()); }
        return Err(Some(Conflict));
      }
      if status == DRAFT { return Err(Some(Conflict)); }
      if status != OPEN_FUNDED { return Err(Some(Conflict)); }
      if clientWallet == Some(wallet) { return Err(Some(Forbidden)); }
      if clientWallet.None? || terms.criteriaHash.None? || baseSha.None? || createTx.None? {
        return Err(Some(Conflict));
      }

      if stellar.NotConfigured? { return Err(Some(Unavailable)); }
      if stellar.ReadFailed? { return Err(Some(BadGateway)); }
      if stellar.ReadCrashed? { return Err(None); }
      var onChain := stellar.bounty;
      if !MatchesAssignment(onChain, CurrentRow()) { return Err(Some(Unprocessable([]))); }
      if onChain.developer != Some(wallet) { return Err(Some(Forbidden)); }
      var message := OwnershipMessage(cfg, id, txHash, onChain.developer.value, github);
      if !HasSigned(signed, onChain.developer.value, message) { return Err(Some(Forbidden)); }

      if !committed { return Err(None); }
      developerWallet := onChain.developer;
      developerGithub := Some(github);
      status := ASSIGNED;
      return Ok(Value());
    }

    method RegisterSubmission(cfg: Config, url: string, wallet: Address,
                              github: Result<Snapshot, GitHubError>, committed: bool)
      returns (answer: Result<Submission, Option<HttpError>>)
      modifies this
      ensures Served(Value(), answer) == ServeSubmission(cfg, old(Value()), url, wallet, github, committed)
    {
      hide Examine;
      if developerWallet != Some(wallet) { return Err(Some(Forbidden)); }
      if status != ASSIGNED { return Err(Some(Conflict)); }
      if baseSha.None? || baseSha.value == "" || developerGithub.None? || developerGithub.value == "" {
        return Err(Some(Conflict));
      }
      if submission.Some? { return Err(Some(Conflict)); }

      var examined := ExaminePullRequest(cfg, url, ExpectedBy(CurrentRow()), false, github);
      if examined.Err? { return Err(Some(examined.error)); }
      var inspection, result := examined.value.inspection, examined.value.result;
      if result.status == FAIL { return Err(Some(Unprocessable(StructuralReasons(result)))); }

      if !committed { return Err(None); }
      submission := Some(SubmissionOf(url, inspection));
      pullRequestNumber := Some(inspection.pullNumber);
      status := SUBMITTED;
      return Ok(submission.value);
    }

    /** The participant check of the route, then the checks made before GitHub is asked anything. */
    method AdmitsVerification(wallet: Address) returns (refusal: Option<HttpError>)
      ensures match AdmitVerification(Value(), wallet)
              case Refused(error) => refusal == Some(error)
              case Proceed => refusal == None && submission.Some? && baseSha.Some? && developerGithub.Some?
              case Already => false
    {
      if Some(wallet) != clientWallet && Some(wallet) != developerWallet { return Some(Forbidden); }
      if submission.None? { return Some(Conflict); }
      if !Verifiable(status) { return Some(Conflict); }
      if releaseTx.Some? { return Some(Conflict); }
      if terms.criteriaHash.None? || baseSha.None? || developerGithub.None? { return Some(Conflict); }
      return None;
    }

    /** `sent` is what the Stellar client was given to send, if anything. */
    method RunVerification(cfg: Config, wallet: Address, github: Result<Snapshot, GitHubError>,
                           firstCommit: bool, release: ReleaseReply, secondCommit: bool)
      returns (answer: Result<Verification, Option<HttpError>>, ghost sent: Option<(Facts, VerificationResult)>)
      modifies this
      ensures Served(Value(), answer)
           == ServeVerification(cfg, old(Value()), wallet, github, firstCommit, release, secondCommit)
      ensures sent == EvidenceSent(cfg, id, old(Value()), wallet, github, firstCommit, release)
    {
      hide AdmitVerification, ServeVerdict, Judge;
      var refusal := AdmitsVerification(wallet);
      if refusal.Some? { return Err(refusal), None; }

      var judged := RecordVerdict(cfg, github, firstCommit);
      if judged.Err? { return judged, None; }
      if judged.value.result.status != PASS { return judged, None; }

      answer, sent := ReleasePayout(judged.value, release, secondCommit);
    }

    method RecordVerdict(cfg: Config, github: Result<Snapshot, GitHubError>, committed: bool)
      returns (answer: Result<Verification, Option<HttpError>>)
      requires submission.Some? && baseSha.Some? && developerGithub.Some?
      modifies this
      ensures Served(Value(), answer) == ServeVerdict(cfg, old(Value()), github, committed)
      ensures answer.Ok? ==> verifications != [] && Last(Value()) == answer.value
    {
      hide Examine;
      var examined := ExaminePullRequest(cfg, submission.value.url, ExpectedBy(CurrentRow()), true, github);
      if examined.Err? { return Err(Some(examined.error)); }
      var inspection, result := examined.value.inspection, examined.value.result;
      var verification := Verification(result, github.value);

      if !committed { return Err(None); }
      verifications := verifications + [verification];
      submission := Some(SubmissionOf(submission.value.url, inspection));
      pullRequestNumber := Some(inspection.pullNumber);
      status := StatusAfter(result.status);
      return Ok(verification);
    }

    method ReleasePayout(verification: Verification, release: ReleaseReply, committed: bool)
      returns (answer: Result<Verification, Option<HttpError>>, ghost sent: Option<(Facts, VerificationResult)>)
      requires verifications != [] && Last(Value()) == verification
      modifies this
      ensures Served(Value(), answer) == ServePayout(old(Value()), release, committed)
      ensures sent == if HasFacts(old(Value())) && !release.ReleaseNotConfigured?
                      then Some((FactsOf(id, old(Value())), verification.result)) else None
    {
      if !HasFacts(Value()) { return Err(None), None; }
      if release.ReleaseNotConfigured? { return Err(Some(Unavailable)), None; }

      sent := Some((FactsOf(id, Value()), verification.result));
      if release.ReleaseErrored? { return Err(Some(BadGateway)), sent; }
      if release.ReleaseCrashed? { return Err(None), sent; }

      if !committed { return Err(None), sent; }
      releaseTx := Some(release.txHash);
      status := PAID;
      return Ok(verification), sent;
    }
  }
}
