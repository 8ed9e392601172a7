/**
 More of the system with requests overlapping freely: what a submission and an anchored
 evidence are about, and who signed for it.
 */
module Overlap {
  import opened Wrappers
  import opened Text
  import opened Escrow
  import opened Verifier
  import opened GitHubClient
  import opened Commitments
  import opened Messages
  import opened Records
  import opened Settlement

  // ------------------------------------------------------------- what a submission is about

  /** The URL is of a pull request of the row's repository. */
  predicate OfRepository(cfg: Config, url: string, row: Row) {
    var ref := ParsePullRequestUrl(url);
    && ref.Ok?
    && SameFolded(cfg.fold, ref.value.owner, row.repoOwner) && SameFolded(cfg.fold, ref.value.repo, row.repoName)
  }

  /** So is the submission, and its number is the one in its URL. */
  predicate Fits(cfg: Config, r: Record) {
    r.submission.Some? ==>
      && OfRepository(cfg, r.submission.value.url, r.row)
      && r.submission.value.number == ParsePullRequestUrl(r.submission.value.url).value.pullNumber
  }

  predicate AllFit(cfg: Config, s: System) {
    forall id :: id in s.db ==> Fits(cfg, s.db[id])
  }

  /** A request's record asks of the submission only what the URL says. */
  predicate WantFits(cfg: Config, loaded: Record, want: Record) {
    && want.row.repoOwner == loaded.row.repoOwner && want.row.repoName == loaded.row.repoName
    && (want.submission == loaded.submission
        || (want.submission.Some? && Fits(cfg, want)
            && (loaded.submission.Some? ==> want.submission.value.url == loaded.submission.value.url)))
  }

  lemma CommitFits(cfg: Config, loaded: Record, want: Record, current: Record)
    requires loaded.verifications <= want.verifications && Older(loaded, current)
    requires Fits(cfg, current) && WantFits(cfg, loaded, want)
    ensures var r := Commit(loaded, want, current); r.Some? ==> Fits(cfg, r.value)
  {
    hide ParsePullRequestUrl, SameFolded;
  }

  lemma FinishFits(cfg: Config, s: System, req: nat, id: u64, loaded: Record, want: Record)
    requires AllFit(cfg, s) && (id in s.db ==> Older(loaded, s.db[id]))
    requires loaded.verifications <= want.verifications && WantFits(cfg, loaded, want)
    ensures AllFit(cfg, Finish(s, req, id, loaded, want))
  {
    hide Fits, WantFits, Commit;
    if id in s.db {
      CommitFits(cfg, loaded, want, s.db[id]);
    }
  }

  lemma SubmittedFits(cfg: Config, r: Record, url: string, seen: Snapshot)
    requires r.row.baseSha.Some? && r.row.developerGithub.Some? && r.submission.None?
    requires Submit(cfg, r, url, Ok(seen)).Ok?
    ensures WantFits(cfg, r, Submit(cfg, r, url, Ok(seen)).value)
  {
    hide ParsePullRequestUrl, SameFolded, ListFiles;
    var i := Inspect(url, seen).value;
    VerdictMeaning(cfg.fold, i, [], ExpectedBy(r.row));
    FailsWithoutRepository(cfg.fold, i, [], ExpectedBy(r.row));
  }

  lemma FailsWithoutRepository(fold: char -> string, i: Inspection, runs: seq<CheckRun>, e: Expected)
    ensures Verify(fold, i, runs, e).status != FAIL ==> RepositoryValid(fold, i, e)
  {
  }

  lemma JudgedFits(cfg: Config, r: Record, seen: Snapshot)
    requires r.row.baseSha.Some? && r.row.developerGithub.Some?
    requires r.submission.Some? && OfRepository(cfg, r.submission.value.url, r.row)
    requires Judge(cfg, r, Ok(seen)).Ok?
    ensures WantFits(cfg, r, Judge(cfg, r, Ok(seen)).value)
  {
    hide ParsePullRequestUrl, SameFolded, Verify;
  }

  /** What a request loaded was about the same repository: nothing that decides it changes. */
  lemma LoadedIsOfRepository(cfg: Config, loaded: Record, current: Record)
    requires Older(loaded, current) && Fits(cfg, current) && loaded.submission.Some?
    ensures OfRepository(cfg, loaded.submission.value.url, loaded.row)
  {
    hide ParsePullRequestUrl, SameFolded;
  }

  lemma StepFits(cfg: Config, s: System, a: Action)
    requires Settlement.Inv(cfg, s) && AllFit(cfg, s)
    ensures AllFit(cfg, Settlement.Step(cfg, s, a))
  {
    match a
    case CreateTask(id, wallet, form) => CreateFits(cfg, s, id, wallet, form);
    case CommitFunding(req, baseSha) => FundingFits(cfg, s, req, baseSha);
    case CommitAssignment(req) => AssignmentFits(cfg, s, req);
    case CommitSubmission(req, seen) => SubmissionFits(cfg, s, req, seen);
    case CommitVerdict(req, seen) => VerdictFits(cfg, s, req, seen);
    case CommitPaid(req) => PaidFits(cfg, s, req);
    case _ => OnlyCommitsWrite(cfg, s, a);
  }

  lemma OnlyCommitsWrite(cfg: Config, s: System, a: Action)
    requires !a.CreateTask? && !a.CommitFunding? && !a.CommitAssignment? && !a.CommitSubmission?
    requires !a.CommitVerdict? && !a.CommitPaid?
    ensures Settlement.Step(cfg, s, a).db == s.db
  {
    hide Release, EvidenceText, Admit, CheckFunding, CheckAssignment;
  }

  lemma CreateFits(cfg: Config, s: System, id: u64, wallet: Address, form: Form)
    requires AllFit(cfg, s)
    ensures AllFit(cfg, DoCreate(cfg, s, id, wallet, form))
  {
    hide OfRepository, CriteriaHash;
  }

  lemma FundingFits(cfg: Config, s: System, req: nat, baseSha: string)
    requires Settlement.Inv(cfg, s) && AllFit(cfg, s)
    ensures AllFit(cfg, DoCommitFunding(s, req, baseSha))
  {
    hide OfRepository, AllFit, Lower;
    if req in s.inflight && s.inflight[req].FundingSeen? {
      var p := s.inflight[req];
      assert PendingOk(cfg, s, p);
      FinishFits(cfg, s, req, p.id, p.loaded, Funded(p.loaded, p.seen, p.txHash, baseSha));
    }
  }

  lemma AssignmentFits(cfg: Config, s: System, req: nat)
    requires Settlement.Inv(cfg, s) && AllFit(cfg, s)
    ensures AllFit(cfg, DoCommitAssignment(s, req))
  {
    hide OfRepository, AllFit;
    if req in s.inflight && s.inflight[req].AssignmentSeen? {
      var p := s.inflight[req];
      assert PendingOk(cfg, s, p);
      FinishFits(cfg, s, req, p.id, p.loaded, Accepted(p.loaded, p.seen, p.github));
    }
  }

  lemma SubmissionFits(cfg: Config, s: System, req: nat, seen: Snapshot)
    requires Settlement.Inv(cfg, s) && AllFit(cfg, s)
    ensures AllFit(cfg, DoCommitSubmission(cfg, s, req, seen))
  {
    hide WantFits, AllFit, Submit;
    if DoCommitSubmission(cfg, s, req, seen) != s {
      CommitSubmissionShape(cfg, s, req, seen);
      var p := s.inflight[req];
      assert PendingOk(cfg, s, p);
      SubmittedFits(cfg, p.loaded, p.url, seen);
      FinishFits(cfg, s, req, p.id, p.loaded, Submit(cfg, p.loaded, p.url, Ok(seen)).value);
    }
  }

  lemma VerdictFits(cfg: Config, s: System, req: nat, seen: Snapshot)
    requires Settlement.Inv(cfg, s) && AllFit(cfg, s)
    ensures AllFit(cfg, DoCommitVerdict(cfg, s, req, seen))
  {
    hide WantFits, Judge, OfRepository;
    if DoCommitVerdict(cfg, s, req, seen) != s {
      CommitVerdictShape(cfg, s, req, seen);
      var p := s.inflight[req];
      assert PendingOk(cfg, s, p);
      LoadedIsOfRepository(cfg, p.loaded, s.db[p.id]);
      JudgedFits(cfg, p.loaded, seen);
      FinishFits(cfg, s, req, p.id, p.loaded, Judge(cfg, p.loaded, Ok(seen)).value);
    }
  }

  lemma PaidFits(cfg: Config, s: System, req: nat)
    requires Settlement.Inv(cfg, s) && AllFit(cfg, s)
    ensures AllFit(cfg, DoCommitPaid(s, req))
  {
    hide OfRepository, AllFit;
    if DoCommitPaid(s, req) != s {
      var p := s.inflight[req];
      assert PendingOk(cfg, s, p);
      FinishFits(cfg, s, req, p.id, p.loaded, PaidBy(p.loaded, p.txHash));
    }
  }

  lemma {:induction false} RunFits(cfg: Config, s: System, actions: seq<Action>)
    requires Settlement.Inv(cfg, s) && AllFit(cfg, s)
    ensures Settlement.Inv(cfg, Settlement.Run(cfg, s, actions)) && AllFit(cfg, Settlement.Run(cfg, s, actions))
    decreases |actions|
  {
    hide Settlement.Inv, AllFit, Settlement.Step;
    if actions != [] {
      Settlement.StepKeeps(cfg, s, actions[0]);
      StepFits(cfg, s, actions[0]);
      RunFits(cfg, Settlement.Step(cfg, s, actions[0]), actions[1..]);
    }
  }

  /** Every submission is of its bounty's repository, and numbered as its URL says, whatever overlapped. */
  lemma SubmissionsFit(cfg: Config, start: System, actions: seq<Action>)
    requires Initial(cfg, start)
    ensures var s := Settlement.Run(cfg, start, actions); Settlement.Inv(cfg, s) && AllFit(cfg, s)
  {
    InitialIsInv(cfg, start);
    RunFits(cfg, start, actions);
  }

  // ------------------------------------------------------------- who signed for it

  /** The wallet signed, for this bounty on this contract, for that GitHub name. */
  ghost predicate SignedFor(cfg: Config, signed: set<(Address, string)>, id: u64, wallet: Address, github: string) {
    exists txHash :: AssignmentSchema(txHash, github)
      && HasSigned(signed, wallet, OwnershipMessage(cfg, id, txHash, wallet, github))
  }

  /** Addresses and the contract's id print on one line. */
  ghost predicate OneLineNames(cfg: Config) {
    '\n' !in cfg.contractId && forall a :: '\n' !in cfg.show(a)
  }

  /** The signed message says exactly that, whoever reads it. */
  lemma SignatureSays(cfg: Config, signed: set<(Address, string)>, id: u64, wallet: Address, github: string)
    requires OneLineNames(cfg) && SignedFor(cfg, signed, id, wallet, github)
    ensures exists message, txHash :: (wallet, message) in signed
              && ParseAssignment(message) == Some(Assignment(id, txHash, cfg.show(wallet), github, cfg.contractId))
  {
    var txHash :| AssignmentSchema(txHash, github)
      && HasSigned(signed, wallet, OwnershipMessage(cfg, id, txHash, wallet, github));
    AssignmentRoundTrip(Assignment(id, txHash, cfg.show(wallet), github, cfg.contractId));
  }

  /**
   Every GitHub name on a row was signed for by the row's developer wallet, in a message that
   reads as exactly this bounty, name, wallet and contract, whatever requests overlapped.
   */
  lemma NamesAreSigned(cfg: Config, start: System, actions: seq<Action>, id: u64)
    requires Initial(cfg, start) && OneLineNames(cfg)
    requires id in Settlement.Run(cfg, start, actions).db
    requires Settlement.Run(cfg, start, actions).db[id].row.developerGithub.Some?
    ensures var s := Settlement.Run(cfg, start, actions); var row := s.db[id].row;
            && row.developerWallet.Some?
            && exists message, txHash :: (row.developerWallet.value, message) in s.signed
                 && ParseAssignment(message)
                    == Some(Assignment(id, txHash, cfg.show(row.developerWallet.value), row.developerGithub.value,
                                       cfg.contractId))
  {
    hide Settlement.Run, OwnershipMessage, ParseAssignment;
    RunFromStart(cfg, start, actions);
    var s := Settlement.Run(cfg, start, actions);
    assert RecordOk(cfg, s, id, s.db[id]);
    SignatureSays(cfg, s.signed, id, s.db[id].row.developerWallet.value, s.db[id].row.developerGithub.value);
  }

  // ------------------------------------------------------------- what anchored evidence is about

  /** The pull request of the evidence is numbered as its URL says, and its developer's name was signed for. */
  ghost predicate FactsOk(cfg: Config, s: System, tx: ReleaseTx) {
    && tx.id in s.db && s.db[tx.id].row.developerWallet.Some?
    && ParsePullRequestUrl(tx.facts.pullRequestUrl).Ok?
    && tx.facts.pullRequestNumber == ParsePullRequestUrl(tx.facts.pullRequestUrl).value.pullNumber
    && SignedFor(cfg, s.signed, tx.id, s.db[tx.id].row.developerWallet.value, tx.facts.developerGithub)
  }

  ghost predicate AllFactsOk(cfg: Config, s: System) {
    forall h :: h in s.txs ==> FactsOk(cfg, s, s.txs[h])
  }

  lemma FactsStay(cfg: Config, s: System, t: System, tx: ReleaseTx)
    requires Extends(s, t) && FactsOk(cfg, s, tx)
    ensures FactsOk(cfg, t, tx)
  {
    hide ParsePullRequestUrl, OwnershipMessage;
    assert Older(s.db[tx.id], t.db[tx.id]);
  }

  lemma SendFacts(cfg: Config, s: System, id: u64, result: VerificationResult)
    requires id in s.db && HasFacts(s.db[id]) && RecordOk(cfg, s, id, s.db[id]) && Fits(cfg, s.db[id])
    ensures FactsOk(cfg, s, BuildRelease(cfg, id, s.db[id], result))
  {
    hide ParsePullRequestUrl, OwnershipMessage, EvidenceText, Lags, SameFolded;
  }

  lemma SendShape(cfg: Config, s: System, req: nat, txHash: string)
    ensures var t := DoSendRelease(cfg, s, req, txHash);
            || t.txs == s.txs
            || (&& req in s.inflight && s.inflight[req].Passed? && s.inflight[req].id in s.db
                && HasFacts(s.db[s.inflight[req].id])
                && t.txs == s.txs[txHash := BuildRelease(cfg, s.inflight[req].id, s.db[s.inflight[req].id],
                                                         s.inflight[req].result)])
  {
    hide BuildRelease;
  }

  lemma SentFactsOk(cfg: Config, s: System, req: nat, txHash: string)
    requires Core(cfg, s) && AllFit(cfg, s) && AllFactsOk(cfg, s)
    ensures forall h :: h in DoSendRelease(cfg, s, req, txHash).txs ==>
              FactsOk(cfg, s, DoSendRelease(cfg, s, req, txHash).txs[h])
  {
    SendShape(cfg, s, req, txHash);
    hide BuildRelease, FactsOk, DoSendRelease, Lags, PayoutIsReal, FateOk, PendingOk, TxOk;
    if DoSendRelease(cfg, s, req, txHash).txs != s.txs {
      var p := s.inflight[req];
      SendFacts(cfg, s, p.id, p.result);
    }
  }

  /** A step adds at most the release one request sends. */
  lemma AddedFacts(cfg: Config, s: System, a: Action)
    requires Settlement.Inv(cfg, s) && AllFit(cfg, s) && AllFactsOk(cfg, s)
    ensures forall h :: h in Settlement.Step(cfg, s, a).txs ==> FactsOk(cfg, s, Settlement.Step(cfg, s, a).txs[h])
  {
    hide FactsOk, DoSendRelease, Core, AllFit, Escrow.Inv;
    if a.SendRelease? {
      SentFactsOk(cfg, s, a.req, a.txHash);
    } else {
      OnlySendingAddsTransactions(cfg, s, a);
    }
  }

  lemma StepFacts(cfg: Config, s: System, a: Action)
    requires Settlement.Inv(cfg, s) && AllFit(cfg, s) && AllFactsOk(cfg, s)
    ensures AllFactsOk(cfg, Settlement.Step(cfg, s, a))
  {
    hide Settlement.Step, FactsOk, Settlement.Inv, Extends;
    var t := Settlement.Step(cfg, s, a);
    Settlement.StepKeeps(cfg, s, a);
    AddedFacts(cfg, s, a);
    forall h | h in t.txs ensures FactsOk(cfg, t, t.txs[h]) {
      FactsStay(cfg, s, t, t.txs[h]);
    }
  }

  lemma {:induction false} RunFacts(cfg: Config, s: System, actions: seq<Action>)
    requires Settlement.Inv(cfg, s) && AllFit(cfg, s) && AllFactsOk(cfg, s)
    ensures AllFactsOk(cfg, Settlement.Run(cfg, s, actions))
    decreases |actions|
  {
    hide Settlement.Inv, AllFit, AllFactsOk, Settlement.Step;
    if actions != [] {
      Settlement.StepKeeps(cfg, s, actions[0]);
      StepFits(cfg, s, actions[0]);
      StepFacts(cfg, s, actions[0]);
      RunFacts(cfg, Settlement.Step(cfg, s, actions[0]), actions[1..]);
    }
  }

  /** What the chain anchors for a paid bounty, and whose pull request that is. */
  ghost predicate AnchorsOwnWork(cfg: Config, s: System, id: u64, facts: Facts, result: VerificationResult)
    requires id in s.db && id in s.chain.bounties
  {
    && SpeaksOf(facts, id, s.db[id]) && HasPass(s.db[id], result)
    && s.chain.bounties[id].evidenceHash == Some(cfg.sha(EvidenceText(facts, result)))
    && ParsePullRequestUrl(facts.pullRequestUrl).Ok?
    && facts.pullRequestNumber == ParsePullRequestUrl(facts.pullRequestUrl).value.pullNumber
    && s.chain.bounties[id].developer.Some?
    && SignedFor(cfg, s.signed, id, s.chain.bounties[id].developer.value, facts.developerGithub)
  }

  /**
   The evidence of a paid bounty, with requests overlapping freely: it names this bounty's
   repository, criteria and pull request, a PASS in its history, the number in the URL, and a
   GitHub name the paid wallet signed for.
   */
  lemma PaidAnchorsOwnWork(cfg: Config, start: System, actions: seq<Action>, id: u64)
    returns (facts: Facts, result: VerificationResult)
    requires Initial(cfg, start)
    requires var s := Settlement.Run(cfg, start, actions); id in s.chain.bounties && s.chain.bounties[id].status == Paid
    ensures var s := Settlement.Run(cfg, start, actions); id in s.db && AnchorsOwnWork(cfg, s, id, facts, result)
  {
    hide Settlement.Run, EvidenceText, ParsePullRequestUrl;
    InitialIsInv(cfg, start);
    RunFits(cfg, start, actions);
    RunFacts(cfg, start, actions);
    RunKeepsEvidence(cfg, start, actions);
    var s := Settlement.Run(cfg, start, actions);
    assert ReleasedBySome(s.txs, s.fate, id);
    var h :| h in s.txs && h in s.fate && s.fate[h] && s.txs[h].id == id;
    assert TxOk(s, h) && FactsOk(cfg, s, s.txs[h]) && RecordOk(cfg, s, id, s.db[id]);
    facts, result := s.txs[h].facts, s.txs[h].result;
  }

  /**
   Two paid bounties anchor digests of two different texts: if the digests are equal, those
   two texts collide.
   */
  lemma PaidTextsDiffer(cfg: Config, start: System, actions: seq<Action>, id: u64, other: u64)
    requires Initial(cfg, start) && id != other
    requires var s := Settlement.Run(cfg, start, actions);
             id in s.chain.bounties && s.chain.bounties[id].status == Paid
             && other in s.chain.bounties && s.chain.bounties[other].status == Paid
    ensures var s := Settlement.Run(cfg, start, actions);
            exists f, r, g, q ::
              && id in s.db && other in s.db
              && AnchorsOwnWork(cfg, s, id, f, r) && AnchorsOwnWork(cfg, s, other, g, q)
              && EvidenceText(f, r) != EvidenceText(g, q)
  {
    hide Settlement.Run, EvidenceText;
    var f, r := PaidAnchorsOwnWork(cfg, start, actions, id);
    var g, q := PaidAnchorsOwnWork(cfg, start, actions, other);
    EvidenceTextIdentifies(f, r, g, q);
  }
}
