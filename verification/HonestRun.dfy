/**
 Nothing in the system's checks keeps honest participants from being done: every new task whose
 terms the browser accepts and whose client can pay leads, by the ordinary requests in their
 ordinary order, to a row that is PAID and a developer who has the reward.
 */
module HonestRun {
  import opened Wrappers
  import opened Text
  import opened HexCodec
  import opened Escrow
  import opened Verifier
  import opened GitHubClient
  import opened Commitments
  import opened Records
  import opened Settlement
  import opened Services
  import opened Alone
  import opened Overlap
  import opened Finality
  import opened Payment

  /** Everything two participants bring to one task. */
  datatype Deal = Deal(
    id: u64,
    /** The number of the first of their four requests. */
    first: nat,
    form: Form,
    client: Address,
    developer: Address,
    github: string,
    pull: PullRequestRef,
    baseSha: string,
    fundTx: string,
    acceptTx: string,
    releaseTx: string)

  /** The participants are two accounts, neither the contract nor the verifier. */
  predicate Participants(cfg: Config, deal: Deal) {
    && deal.client.Account? && deal.developer.Account? && deal.client != deal.developer
    && deal.client !in {cfg.deployment.self, cfg.deployment.verifier}
    && deal.developer !in {cfg.deployment.self, cfg.deployment.verifier}
  }

  /** The terms are such as the forms and schemas let through, and the pull request is of that repository. */
  predicate Terms(deal: Deal) {
    && FormValid(deal.form)
    && 0 < deal.id <= MAX_SAFE_INTEGER
    && deal.form.amount <= MAX_SAFE_INTEGER && deal.form.deadline <= MAX_SAFE_INTEGER
    && AssignmentSchema(deal.acceptTx, deal.github)
    && IsName(deal.form.repoOwner) && IsName(deal.form.repoName)
    && deal.pull.owner == deal.form.repoOwner && deal.pull.repo == deal.form.repoName && deal.pull.pullNumber > 0
    && deal.baseSha != ""
  }

  /** The task is new, its deadline ahead, and the client can pay the reward. */
  ghost predicate Feasible(cfg: Config, s: System, deal: Deal) {
    && Participants(cfg, deal) && Terms(deal)
    && deal.id !in s.db && deal.id !in s.chain.bounties && deal.releaseTx !in s.txs
    && (forall req :: req >= deal.first ==> req !in s.inflight)
    && s.chain.now < deal.form.deadline
    && deal.form.amount <= GetOrZero(s.chain.balances, deal.client)
  }

  // ------------------------------------------------------------- the stages of a record

  ghost function NewRecord(cfg: Config, deal: Deal): Record {
    Created(cfg, deal.client, deal.form)
  }

  lemma NewIsFundable(cfg: Config, deal: Deal)
    requires Participants(cfg, deal) && Terms(deal)
    ensures FundBountyAccepts(deal.id, NewRecord(cfg, deal).row, deal.client, 0)
  {
    CreatedRowsCanBeFunded(cfg, deal.id, deal.client, deal.form, deal.client, 0);
  }

  ghost function OpenBounty(cfg: Config, deal: Deal): Bounty
    requires Participants(cfg, deal) && Terms(deal)
  {
    NewIsFundable(cfg, deal);
    FundedBounty(deal.id, NewRecord(cfg, deal).row, deal.client)
  }

  ghost function FundedRecord(cfg: Config, deal: Deal): Record
    requires Participants(cfg, deal) && Terms(deal)
  {
    Funded(NewRecord(cfg, deal), OpenBounty(cfg, deal), deal.fundTx, deal.baseSha)
  }

  ghost function TakenBounty(cfg: Config, deal: Deal): Bounty
    requires Participants(cfg, deal) && Terms(deal)
  {
    OpenBounty(cfg, deal).(developer := Some(deal.developer), status := Assigned)
  }

  ghost function AssignedRecord(cfg: Config, deal: Deal): Record
    requires Participants(cfg, deal) && Terms(deal)
  {
    Accepted(FundedRecord(cfg, deal), TakenBounty(cfg, deal), deal.github)
  }

  /** Where a task stands: its record, its bounty, time left, and request numbers nobody has used. */
  ghost predicate At(s: System, id: u64, r: Record, b: Bounty, next: nat) {
    && id in s.db && s.db[id] == r
    && id in s.chain.bounties && s.chain.bounties[id] == b
    && s.chain.now <= b.deadline
    && forall req :: req >= next ==> req !in s.inflight
  }

  /** The steps are of no request numbered `next` or more. */
  ghost predicate Below(actions: seq<Action>, next: nat) {
    forall a, req :: a in actions && req >= next ==> !About(a, req)
  }

  lemma StaysFree(cfg: Config, s: System, actions: seq<Action>, next: nat)
    requires Below(actions, next) && forall req :: req >= next ==> req !in s.inflight
    ensures forall req :: req >= next ==> req !in Settlement.Run(cfg, s, actions).inflight
  {
    hide Settlement.Run;
    forall req | req >= next ensures req !in Settlement.Run(cfg, s, actions).inflight {
      RunLeaves(cfg, s, actions, req);
    }
  }

  // ------------------------------------------------------------- locking the reward

  ghost function LockSteps(cfg: Config, deal: Deal): seq<Action>
    requires Participants(cfg, deal) && Terms(deal)
  {
    NewIsFundable(cfg, deal);
    [CreateTask(deal.id, deal.client, deal.form),
     Ledger(FundingCall(deal.id, NewRecord(cfg, deal).row, deal.client))]
  }

  /** The client's call goes through on chain. */
  lemma CallLocks(cfg: Config, chain: State, deal: Deal)
    requires Participants(cfg, deal) && Terms(deal) && SoundMoney(chain.balances)
    requires deal.id !in chain.bounties && chain.now < deal.form.deadline
    requires deal.form.amount <= GetOrZero(chain.balances, deal.client)
    ensures FundBountyAccepts(deal.id, NewRecord(cfg, deal).row, deal.client, 0)
    ensures var e := FundingCall(deal.id, NewRecord(cfg, deal).row, deal.client);
            var t := Escrow.Step(cfg.deployment, chain, e);
            && Outside(cfg.deployment, e)
            && deal.id in t.bounties && t.bounties[deal.id] == OpenBounty(cfg, deal)
            && t.now == chain.now <= OpenBounty(cfg, deal).deadline
            && Moved(chain, t, deal.client, cfg.deployment.self, deal.form.amount)
  {
    NewIsFundable(cfg, deal);
    var row := NewRecord(cfg, deal).row;
    CreateExactly(cfg.deployment, chain, {deal.client}, deal.id, deal.client, row.amount,
                  BytesOf(row.criteriaHash.value), row.deadline);
    hide CriteriaHash, BytesOf, Moved;
  }

  lemma Locks(cfg: Config, s: System, deal: Deal)
    requires Settlement.Inv(cfg, s) && Feasible(cfg, s, deal)
    ensures At(Settlement.Run(cfg, s, LockSteps(cfg, deal)), deal.id, NewRecord(cfg, deal), OpenBounty(cfg, deal),
               deal.first)
    ensures var t := Settlement.Run(cfg, s, LockSteps(cfg, deal));
            t.txs == s.txs && Moved(s.chain, t.chain, deal.client, cfg.deployment.self, deal.form.amount)
  {
    hide Settlement.Run, Created, FundBountyAccepts, Core, OpenBounty, AssignmentSchema, IsName, Outside, Escrow.Step;
    CallLocks(cfg, s.chain, deal);
    var steps := LockSteps(cfg, deal);
    RunPair(cfg, s, steps[0], steps[1]);
    assert DoCreate(cfg, s, deal.id, deal.client, deal.form) == s.(db := s.db[deal.id := NewRecord(cfg, deal)]);
  }

  // ------------------------------------------------------------- confirming the funding

  function FundSteps(deal: Deal): seq<Action> {
    [Begin(deal.first, ConfirmFunding(deal.id, deal.client, deal.fundTx)), ReadChain(deal.first),
     CommitFunding(deal.first, deal.baseSha)]
  }

  lemma FundingServed(cfg: Config, deal: Deal)
    requires Participants(cfg, deal) && Terms(deal)
    ensures ServeFunding(NewRecord(cfg, deal), deal.fundTx, deal.client, Read(OpenBounty(cfg, deal)), Ok(deal.baseSha),
                         true).record
         == FundedRecord(cfg, deal)
  {
    NewIsFundable(cfg, deal);
    FundedBountyMatches(deal.id, NewRecord(cfg, deal).row, deal.client);
    hide CheckFunding, FundBountyAccepts, FundedBounty, Terms;
  }

  lemma Funds(cfg: Config, s: System, deal: Deal)
    requires Participants(cfg, deal) && Terms(deal)
    requires At(s, deal.id, NewRecord(cfg, deal), OpenBounty(cfg, deal), deal.first)
    ensures At(Settlement.Run(cfg, s, FundSteps(deal)), deal.id, FundedRecord(cfg, deal), OpenBounty(cfg, deal),
               deal.first + 1)
    ensures var t := Settlement.Run(cfg, s, FundSteps(deal)); t.txs == s.txs && t.chain == s.chain
  {
    hide Settlement.Run, NewRecord, FundedRecord, OpenBounty, Terms, ServeFunding;
    FundingAlone(cfg, s, deal.first, deal.id, deal.fundTx, deal.client, deal.baseSha);
    FundingServed(cfg, deal);
    StaysFree(cfg, s, FundSteps(deal), deal.first + 1);
  }

  // ------------------------------------------------------------- accepting

  function AcceptSteps(cfg: Config, deal: Deal): seq<Action> {
    [Ledger(AcceptBounty({deal.developer}, deal.id, deal.developer)),
     Sign(deal.developer, OwnershipMessage(cfg, deal.id, deal.acceptTx, deal.developer, deal.github))]
  }

  lemma Accepts(cfg: Config, s: System, deal: Deal)
    requires Settlement.Inv(cfg, s) && Participants(cfg, deal) && Terms(deal)
    requires At(s, deal.id, FundedRecord(cfg, deal), OpenBounty(cfg, deal), deal.first + 1)
    ensures var t := Settlement.Run(cfg, s, AcceptSteps(cfg, deal));
            && At(t, deal.id, FundedRecord(cfg, deal), TakenBounty(cfg, deal), deal.first + 1) && t.txs == s.txs
            && t.chain.balances == s.chain.balances
            && HasSigned(t.signed, deal.developer,
                         OwnershipMessage(cfg, deal.id, deal.acceptTx, deal.developer, deal.github))
  {
    hide Settlement.Run, FundedRecord, Core, Terms, OwnershipMessage, BytesOf, CriteriaHash;
    var steps := AcceptSteps(cfg, deal);
    RunPair(cfg, s, steps[0], steps[1]);
  }

  // ------------------------------------------------------------- confirming the acceptance

  function AssignSteps(deal: Deal): seq<Action> {
    [Begin(deal.first + 1, ConfirmAssignment(deal.id, deal.developer, deal.acceptTx, deal.github)),
     ReadChain(deal.first + 1), CommitAssignment(deal.first + 1)]
  }

  lemma AssignmentServed(cfg: Config, signed: set<(Address, string)>, deal: Deal)
    requires Participants(cfg, deal) && Terms(deal)
    requires HasSigned(signed, deal.developer,
                       OwnershipMessage(cfg, deal.id, deal.acceptTx, deal.developer, deal.github))
    ensures ServeAssignment(cfg, signed, deal.id, FundedRecord(cfg, deal), deal.acceptTx, deal.github, deal.developer,
                            Read(TakenBounty(cfg, deal)), true).record
         == AssignedRecord(cfg, deal)
  {
    NewIsFundable(cfg, deal);
    FundedBountyMatches(deal.id, NewRecord(cfg, deal).row, deal.client);
    hide Terms, OwnershipMessage, BytesOf, CriteriaHash;
  }

  lemma Assigns(cfg: Config, s: System, deal: Deal)
    requires Participants(cfg, deal) && Terms(deal)
    requires At(s, deal.id, FundedRecord(cfg, deal), TakenBounty(cfg, deal), deal.first + 1)
    requires HasSigned(s.signed, deal.developer,
                       OwnershipMessage(cfg, deal.id, deal.acceptTx, deal.developer, deal.github))
    ensures At(Settlement.Run(cfg, s, AssignSteps(deal)), deal.id, AssignedRecord(cfg, deal), TakenBounty(cfg, deal),
               deal.first + 2)
    ensures var t := Settlement.Run(cfg, s, AssignSteps(deal)); t.txs == s.txs && t.chain == s.chain
  {
    hide Settlement.Run, FundedRecord, AssignedRecord, TakenBounty, ServeAssignment, AssignmentSchema, OwnershipMessage;
    AssignmentAlone(cfg, s, deal.first + 1, deal.id, deal.acceptTx, deal.developer, deal.github);
    AssignmentServed(cfg, s.signed, deal);
    StaysFree(cfg, s, AssignSteps(deal), deal.first + 2);
  }

  // ------------------------------------------------------------- submitting

  /** A finished, successful run of every required check on the head commit. */
  function GreenRuns(): seq<CheckRun> {
    [CheckRun(1, "build", COMPLETED_STATUS, Some(SUCCESS_CONCLUSION), ""),
     CheckRun(2, "regression-tests", COMPLETED_STATUS, Some(SUCCESS_CONCLUSION), ""),
     CheckRun(3, "acceptance-tests", COMPLETED_STATUS, Some(SUCCESS_CONCLUSION), "")]
  }

  /** The agreed pull request once its checks are through. */
  function Green(row: Row): Snapshot
    requires row.baseSha.Some?
  {
    Finality.Shown(row, false).(checkRuns := GreenRuns())
  }

  lemma GreenSucceeds(name: string)
    requires name in REQUIRED_CHECKS
    ensures Succeeded(name, GreenRuns(), "")
  {
    var runs := GreenRuns();
    assert runs[..2] == [runs[0], runs[1]] && runs[..2][..1] == [runs[0]] && [runs[0]][..0] == [];
    OfOneCommit(runs, "");
    SelectsLatest(name, runs);
    assert runs[0] in runs && runs[1] in runs && runs[2] in runs;
    assert exists r :: r in runs && r.name == name;
  }

  lemma {:induction false} OfOneCommit(runs: seq<CheckRun>, headSha: string)
    requires forall r :: r in runs ==> r.headSha == headSha
    ensures OfCommit(runs, headSha) == runs
  {
    if runs != [] {
      OfOneCommit(runs[..|runs| - 1], headSha);
    }
  }

  /** The pull request as GitHub shows it when it is submitted, its checks not yet run. */
  ghost function FirstLook(cfg: Config, deal: Deal): Snapshot
    requires Participants(cfg, deal) && Terms(deal)
  {
    Finality.Shown(AssignedRecord(cfg, deal).row, false)
  }

  ghost function SubmittedRecord(cfg: Config, deal: Deal): Record
    requires Participants(cfg, deal) && Terms(deal)
  {
    var r := AssignedRecord(cfg, deal);
    Record(r.row.(pullRequestNumber := Some(deal.pull.pullNumber), status := SUBMITTED),
           Some(Submission(CanonicalUrl(deal.pull), deal.pull.pullNumber, Some(deal.github), "", "")), [])
  }

  lemma PullIsOfRepository(cfg: Config, deal: Deal, row: Row)
    requires Terms(deal) && row.repoOwner == deal.form.repoOwner && row.repoName == deal.form.repoName
    ensures ParsePullRequestUrl(CanonicalUrl(deal.pull)) == Ok(deal.pull)
    ensures OfRepository(cfg, CanonicalUrl(deal.pull), row)
  {
    hide AssignmentSchema;
    UrlRoundTrip(deal.pull);
    FoldsAlike(cfg.fold, row.repoOwner);
    FoldsAlike(cfg.fold, row.repoName);
  }

  lemma SubmissionServed(cfg: Config, deal: Deal)
    requires Participants(cfg, deal) && Terms(deal)
    ensures ServeSubmission(cfg, AssignedRecord(cfg, deal), CanonicalUrl(deal.pull), deal.developer,
                            Ok(FirstLook(cfg, deal)), true).record
         == SubmittedRecord(cfg, deal)
  {
    var r, url := AssignedRecord(cfg, deal), CanonicalUrl(deal.pull);
    PullIsOfRepository(cfg, deal, r.row);
    ShownVerdict(cfg, url, r.row, false);
    ShownIsRead(url, r.row, false);
    hide OfRepository, CanonicalUrl, ParsePullRequestUrl, Verify, Inspect, BytesOf, CriteriaHash, IsName, IsHash;
  }

  function SubmitSteps(deal: Deal, first: Snapshot): seq<Action> {
    [Begin(deal.first + 2, RegisterSubmission(deal.id, deal.developer, CanonicalUrl(deal.pull))),
     CommitSubmission(deal.first + 2, first)]
  }

  lemma SubmitStepsAreBelow(deal: Deal, first: Snapshot)
    ensures Below(SubmitSteps(deal, first), deal.first + 3)
  {
  }

  lemma SubmissionLands(cfg: Config, s: System, req: nat, deal: Deal, first: Snapshot)
    requires Participants(cfg, deal) && Terms(deal) && first == FirstLook(cfg, deal)
    requires deal.id in s.db && s.db[deal.id] == AssignedRecord(cfg, deal) && req !in s.inflight
    ensures OnlyRecord(s, SubmissionRun(cfg, s, req, deal.id, CanonicalUrl(deal.pull), deal.developer, first), deal.id,
                       SubmittedRecord(cfg, deal))
  {
    hide SubmissionRun, AssignedRecord, SubmittedRecord, ServeSubmission, Terms, CanonicalUrl, FirstLook, OnlyRecord;
    SubmissionAlone(cfg, s, req, deal.id, CanonicalUrl(deal.pull), deal.developer, first);
    SubmissionServed(cfg, deal);
  }

  lemma Submits(cfg: Config, s: System, deal: Deal)
    requires Participants(cfg, deal) && Terms(deal)
    requires At(s, deal.id, AssignedRecord(cfg, deal), TakenBounty(cfg, deal), deal.first + 2)
    ensures var t := Settlement.Run(cfg, s, SubmitSteps(deal, FirstLook(cfg, deal)));
            At(t, deal.id, SubmittedRecord(cfg, deal), TakenBounty(cfg, deal), deal.first + 3)
            && t.txs == s.txs && t.chain == s.chain
  {
    hide Settlement.Run, AssignedRecord, SubmittedRecord, TakenBounty, Terms, CanonicalUrl, FirstLook, Below,
      Participants;
    var first := FirstLook(cfg, deal);
    SubmissionLands(cfg, s, deal.first + 2, deal, first);
    SubmitStepsAreBelow(deal, first);
    StaysFree(cfg, s, SubmitSteps(deal, first), deal.first + 3);
  }

  // ------------------------------------------------------------- verifying

  lemma GreenIsShown(cfg: Config, deal: Deal)
    requires Participants(cfg, deal) && Terms(deal)
    ensures var r := SubmittedRecord(cfg, deal);
            AdmitVerification(r, deal.developer).Proceed? && Shows(cfg, r, Green(r.row))
  {
    var r, url := SubmittedRecord(cfg, deal), CanonicalUrl(deal.pull);
    PullIsOfRepository(cfg, deal, r.row);
    ShownVerdict(cfg, url, r.row, false);
    ShownIsRead(url, r.row, false);
    FilesAreWholeOrRefused(Green(r.row));
    CheckRunsAreWholeOrRefused(Green(r.row));
    forall name | name in REQUIRED_CHECKS ensures Succeeded(name, GreenRuns(), "") {
      GreenSucceeds(name);
    }
    hide OfRepository, CanonicalUrl, ParsePullRequestUrl, Verify, BytesOf, CriteriaHash, IsName, IsHash, Succeeded,
      StructureValid, ListFiles, ListCheckRuns;
    assert Inspect(url, Green(r.row)) == Inspect(url, Finality.Shown(r.row, false));
    VerdictMeaning(cfg.fold, Inspect(url, Green(r.row)).value, [], ExpectedBy(r.row));
  }

  /** All that comes before the verification. */
  ghost function UpToVerification(cfg: Config, deal: Deal): seq<Action>
    requires Participants(cfg, deal) && Terms(deal)
  {
    LockSteps(cfg, deal) + FundSteps(deal) + AcceptSteps(cfg, deal) + AssignSteps(deal)
    + SubmitSteps(deal, FirstLook(cfg, deal))
  }

  lemma RunFive(cfg: Config, s: System, a: seq<Action>, b: seq<Action>, c: seq<Action>, d: seq<Action>, e: seq<Action>)
    ensures Settlement.Run(cfg, s, a + b + c + d + e)
         == (var t := Settlement.Run(cfg, Settlement.Run(cfg, s, a), b);
             Settlement.Run(cfg, Settlement.Run(cfg, Settlement.Run(cfg, t, c), d), e))
  {
    hide Settlement.Run;
    RunConcat(cfg, s, a + b + c + d, e);
    RunConcat(cfg, s, a + b + c, d);
    RunConcat(cfg, s, a + b, c);
    RunConcat(cfg, s, a, b);
  }

  lemma ReadyToVerify(cfg: Config, s: System, deal: Deal)
    requires Settlement.Inv(cfg, s) && Feasible(cfg, s, deal)
    ensures var t := Settlement.Run(cfg, s, UpToVerification(cfg, deal));
            && Settlement.Inv(cfg, t)
            && At(t, deal.id, SubmittedRecord(cfg, deal), TakenBounty(cfg, deal), deal.first + 3) && t.txs == s.txs
            && (forall who :: GetOrZero(t.chain.balances, who)
                  == if who == deal.client then GetOrZero(s.chain.balances, who) - deal.form.amount
                     else if who == cfg.deployment.self then GetOrZero(s.chain.balances, who) + deal.form.amount
                     else GetOrZero(s.chain.balances, who))
  {
    hide Settlement.Run, Settlement.Inv, At, Terms, NewRecord, FundedRecord, AssignedRecord, SubmittedRecord,
      OpenBounty, TakenBounty, LockSteps, FundSteps, AcceptSteps, AssignSteps, SubmitSteps, FirstLook;
    RunFive(cfg, s, LockSteps(cfg, deal), FundSteps(deal), AcceptSteps(cfg, deal), AssignSteps(deal),
            SubmitSteps(deal, FirstLook(cfg, deal)));
    Locks(cfg, s, deal);
    var locked := Settlement.Run(cfg, s, LockSteps(cfg, deal));
    Funds(cfg, locked, deal);
    var funded := Settlement.Run(cfg, locked, FundSteps(deal));
    RunKeeps(cfg, s, LockSteps(cfg, deal));
    RunKeeps(cfg, locked, FundSteps(deal));
    Accepts(cfg, funded, deal);
    var accepted := Settlement.Run(cfg, funded, AcceptSteps(cfg, deal));
    Assigns(cfg, accepted, deal);
    Submits(cfg, Settlement.Run(cfg, accepted, AssignSteps(deal)), deal);
    RunKeeps(cfg, s, UpToVerification(cfg, deal));
  }

  lemma JudgeKeepsDeveloper(cfg: Config, r: Record, seen: Snapshot)
    requires r.submission.Some? && r.row.baseSha.Some? && r.row.developerGithub.Some?
    ensures var judged := Judge(cfg, r, Ok(seen));
            judged.Ok? ==> judged.value.row.developerWallet == r.row.developerWallet
  {
    hide Examine;
  }

  /** The whole run. */
  ghost function HonestSteps(cfg: Config, deal: Deal): seq<Action>
    requires Participants(cfg, deal) && Terms(deal)
  {
    UpToVerification(cfg, deal)
    + VerificationSteps(deal.first + 3, deal.id, deal.developer, Green(SubmittedRecord(cfg, deal).row), deal.releaseTx)
  }

  /**
   From every reachable state, whatever else is in flight: a new task of honest participants can
   be carried to its payment. The row is PAID to the developer, the contract's bounty is Paid, and
   exactly the reward has gone from the client to the developer.
   */
  lemma HonestRunPays(cfg: Config, start: System, before: seq<Action>, deal: Deal)
    requires Initial(cfg, start) && Feasible(cfg, Settlement.Run(cfg, start, before), deal)
    ensures var s := Settlement.Run(cfg, start, before);
            var t := Settlement.Run(cfg, s, HonestSteps(cfg, deal));
            && IsPaid(t, deal.id) && t.db[deal.id].row.developerWallet == Some(deal.developer)
            && deal.id in t.chain.bounties && t.chain.bounties[deal.id].status == Paid
            && Moved(s.chain, t.chain, deal.client, deal.developer, deal.form.amount)
  {
    hide Settlement.Run, Settlement.Inv, Initial, Terms, UpToVerification, VerificationSteps, Shows, Green, EvidenceOf,
      Judge;
    RunFromStart(cfg, start, before);
    var s := Settlement.Run(cfg, start, before);
    ReadyToVerify(cfg, s, deal);
    var ready := Settlement.Run(cfg, s, UpToVerification(cfg, deal));
    var green := Green(SubmittedRecord(cfg, deal).row);
    GreenIsShown(cfg, deal);
    JudgeKeepsDeveloper(cfg, SubmittedRecord(cfg, deal), green);
    VerificationPays(cfg, ready, deal.first + 3, deal.id, deal.developer, green, deal.releaseTx);
    RunConcat(cfg, s, UpToVerification(cfg, deal),
              VerificationSteps(deal.first + 3, deal.id, deal.developer, green, deal.releaseTx));
  }
}
