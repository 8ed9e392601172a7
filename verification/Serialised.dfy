/**
 The same system when requests on one row are served one at a time; crashes, late
 replies and everything outside the backend still come in between. Here the row
 tells its own history, and a payment can be traced to what earned it.
 */
module Serialised {
  import opened Wrappers
  import opened Text
  import opened Escrow
  import opened Verifier
  import opened GitHubClient
  import opened Commitments
  import opened Records
  import opened Settlement

  ghost predicate Busy(s: System, id: u64) {
    exists req :: req in s.inflight && s.inflight[req].id == id
  }

  ghost function SerialStep(cfg: Config, s: System, a: Action): System {
    if a.Begin? && Busy(s, a.request.id) then s else Settlement.Step(cfg, s, a)
  }

  ghost function SerialRun(cfg: Config, s: System, actions: seq<Action>): System
    decreases |actions|
  {
    if actions == [] then s else SerialRun(cfg, SerialStep(cfg, s, actions[0]), actions[1..])
  }

  // ------------------------------------------------------------- what a record tells

  predicate BeforeSubmission(status: RowStatus) {
    status == DRAFT || status == OPEN_FUNDED || status == ASSIGNED
  }

  /** The status is the image of the last verdict, or PAID on top of a PASS. */
  predicate TellsHistory(r: Record) {
    && r.row.status != CANCELLED_REFUNDED && r.row.status != EXPIRED_REFUNDED
    && (r.submission.None? <==> BeforeSubmission(r.row.status))
    && (r.verifications == [] <==> BeforeSubmission(r.row.status) || r.row.status == SUBMITTED)
    && (r.verifications != [] ==>
          match Last(r).result.status
          case FAIL => r.row.status == NEEDS_CHANGES
          case PENDING => r.row.status == VERIFYING
          case PASS => r.row.status == ELIGIBLE || r.row.status == PAID)
    && (r.row.releaseTx.Some? <==> r.row.status == PAID)
    && (r.row.developerWallet.Some? ==> WithDeveloper(r.row.status))
  }

  /** The number on the submission is the one in its URL. */
  predicate NumberFromUrl(r: Record) {
    r.submission.Some? ==>
      && ParsePullRequestUrl(r.submission.value.url).Ok?
      && r.submission.value.number == ParsePullRequestUrl(r.submission.value.url).value.pullNumber
  }

  /** The row's number is the submission's, and the submission is the pull request as last verified. */
  predicate UpToDate(r: Record) {
    r.submission.Some? ==>
      && r.row.pullRequestNumber == Some(r.submission.value.number)
      && (r.verifications != [] ==>
            && r.submission.value.author == Last(r).seen.author
            && r.submission.value.headRef == Last(r).seen.headRef
            && r.submission.value.headSha == Last(r).seen.headSha == Last(r).result.headSha)
  }

  /** This verification is the verdict on what GitHub showed, for what the row expects. */
  predicate IsVerdictFor(cfg: Config, r: Record, v: Verification) {
    && r.submission.Some? && r.row.baseSha.Some? && r.row.developerGithub.Some?
    && Inspect(r.submission.value.url, v.seen).Ok?
    && ListCheckRuns(v.seen).Ok?
    && v.result == Verify(cfg.fold, Inspect(r.submission.value.url, v.seen).value, ListCheckRuns(v.seen).value,
                          ExpectedBy(r.row))
  }

  predicate VerdictsHold(cfg: Config, r: Record) {
    forall v :: v in r.verifications ==> IsVerdictFor(cfg, r, v)
  }

  predicate RecordTells(cfg: Config, r: Record) {
    TellsHistory(r) && NumberFromUrl(r) && UpToDate(r) && VerdictsHold(cfg, r)
  }

  // ------------------------------------------------------------- the invariant

  /** What a request loaded is still what the database holds. */
  predicate Fresh(p: Pending, r: Record) {
    match p
    case Passed(_, result) => r.verifications != [] && Last(r).result == result && result.status == PASS
                              && r.row.status == ELIGIBLE
    case Releasing(_, loaded, _) => loaded == r && r.verifications != [] && Last(r).result.status == PASS
                                    && r.row.status == ELIGIBLE
    case FundingLoaded(_, _, _, loaded) => loaded == r && r.row.status == DRAFT
    case FundingSeen(_, _, _, loaded, _) => loaded == r && r.row.status == DRAFT
    case AssignmentLoaded(_, _, _, _, loaded) => loaded == r && r.row.status == OPEN_FUNDED
    case AssignmentSeen(_, _, _, _, loaded, _) => loaded == r && r.row.status == OPEN_FUNDED
    case SubmissionLoaded(_, _, loaded) => loaded == r && r.row.status == ASSIGNED
    case VerificationLoaded(_, loaded) => loaded == r && Verifiable(r.row.status)
  }

  /** The evidence in a release is the record's own, still. */
  predicate FactsHold(tx: ReleaseTx, r: Record) {
    HasFacts(r) && tx.facts == FactsOf(tx.id, r)
  }

  /** Replacing `r` by `want` leaves every release made from `r` accurate. */
  predicate KeepsFacts(r: Record, want: Record) {
    HasFacts(r) ==>
      && HasFacts(want) && want.row.repoOwner == r.row.repoOwner && want.row.repoName == r.row.repoName
      && want.row.baseBranch == r.row.baseBranch && want.row.baseSha == r.row.baseSha
      && want.row.criteriaHash == r.row.criteriaHash && want.row.developerGithub == r.row.developerGithub
      && want.submission.value.number == r.submission.value.number
      && want.submission.value.url == r.submission.value.url
  }

  ghost predicate Serial(cfg: Config, s: System) {
    && (forall id :: id in s.db ==> RecordTells(cfg, s.db[id]))
    && (forall q, r :: q in s.inflight && r in s.inflight && s.inflight[q].id == s.inflight[r].id ==> q == r)
    && (forall req :: req in s.inflight ==>
          s.inflight[req].id in s.db && Fresh(s.inflight[req], s.db[s.inflight[req].id]))
    && (forall h :: h in s.txs ==> s.txs[h].id in s.db && FactsHold(s.txs[h], s.db[s.txs[h].id]))
  }

  // ------------------------------------------------------------- one record's steps

  lemma DraftTells(cfg: Config, r: Record)
    requires Draft(r)
    ensures RecordTells(cfg, r)
  {
  }

  lemma FundedTells(cfg: Config, r: Record, b: Bounty, txHash: string, baseSha: string)
    requires RecordTells(cfg, r) && r.row.status == DRAFT
    ensures var want := Funded(r, b, txHash, baseSha);
            RecordTells(cfg, want) && KeepsFacts(r, want) && want.verifications == []
  {
  }

  lemma AcceptedTells(cfg: Config, r: Record, b: Bounty, github: string)
    requires RecordTells(cfg, r) && r.row.status == OPEN_FUNDED
    ensures var want := Accepted(r, b, github);
            RecordTells(cfg, want) && KeepsFacts(r, want) && want.verifications == []
  {
  }

  lemma SubmittedTells(cfg: Config, r: Record, url: string, seen: Snapshot)
    requires RecordTells(cfg, r) && r.row.status == ASSIGNED
    requires r.row.baseSha.Some? && r.row.developerGithub.Some?
    requires Submit(cfg, r, url, Ok(seen)).Ok?
    ensures var want := Submit(cfg, r, url, Ok(seen)).value;
            RecordTells(cfg, want) && KeepsFacts(r, want) && want.verifications == []
  {
  }

  lemma JudgedVerdicts(cfg: Config, r: Record, seen: Snapshot)
    requires VerdictsHold(cfg, r)
    requires r.submission.Some? && r.row.baseSha.Some? && r.row.developerGithub.Some?
    requires Judge(cfg, r, Ok(seen)).Ok?
    ensures VerdictsHold(cfg, Judge(cfg, r, Ok(seen)).value)
  {
    hide Verify, ParsePullRequestUrl;
    var want := Judge(cfg, r, Ok(seen)).value;
    forall v | v in want.verifications ensures IsVerdictFor(cfg, want, v) {
      if v in r.verifications {
        assert IsVerdictFor(cfg, r, v);
      }
    }
  }

  lemma JudgedHistory(cfg: Config, r: Record, seen: Snapshot)
    requires TellsHistory(r) && NumberFromUrl(r) && Verifiable(r.row.status)
    requires r.submission.Some? && r.row.baseSha.Some? && r.row.developerGithub.Some?
    ensures Judge(cfg, r, Ok(seen)).Ok? ==>
              var want := Judge(cfg, r, Ok(seen)).value;
              && TellsHistory(want) && NumberFromUrl(want) && KeepsFacts(r, want)
              && want.verifications == r.verifications + [Last(want)]
              && want.row.status == StatusAfter(Last(want).result.status)
  {
    hide Verify, ParsePullRequestUrl;
  }

  lemma JudgedUpToDate(cfg: Config, r: Record, seen: Snapshot)
    requires r.submission.Some? && r.row.baseSha.Some? && r.row.developerGithub.Some?
    requires Judge(cfg, r, Ok(seen)).Ok?
    ensures UpToDate(Judge(cfg, r, Ok(seen)).value)
  {
    hide ParsePullRequestUrl;
  }

  lemma JudgedTells(cfg: Config, r: Record, seen: Snapshot)
    requires RecordTells(cfg, r) && Verifiable(r.row.status)
    requires r.submission.Some? && r.row.baseSha.Some? && r.row.developerGithub.Some?
    requires Judge(cfg, r, Ok(seen)).Ok?
    ensures var want := Judge(cfg, r, Ok(seen)).value;
            && RecordTells(cfg, want) && KeepsFacts(r, want)
            && want.verifications == r.verifications + [Last(want)]
            && want.row.status == StatusAfter(Last(want).result.status)
  {
    JudgedVerdicts(cfg, r, seen);
    JudgedHistory(cfg, r, seen);
    JudgedUpToDate(cfg, r, seen);
  }

  lemma PaidTells(cfg: Config, r: Record, txHash: string)
    requires RecordTells(cfg, r) && r.row.status == ELIGIBLE
    ensures var want := PaidBy(r, txHash); RecordTells(cfg, want) && KeepsFacts(r, want)
  {
    forall v | v in r.verifications ensures IsVerdictFor(cfg, PaidBy(r, txHash), v) {
      assert IsVerdictFor(cfg, r, v);
    }
  }

  // ------------------------------------------------------------- the system's steps

  /** A request that loaded the record as it still is commits exactly what it computed. */
  lemma FreshFinish(s: System, req: nat, id: u64, loaded: Record, want: Record)
    requires id in s.db && loaded == s.db[id] && loaded.verifications <= want.verifications
    requires loaded.submission.Some? ==> want.submission.Some?
    ensures Finish(s, req, id, loaded, want) == s.(db := s.db[id := want], inflight := s.inflight - {req})
  {
    CommitUndisturbed(loaded, want);
  }

  lemma FactsFollow(tx: ReleaseTx, r: Record, want: Record)
    requires FactsHold(tx, r) && KeepsFacts(r, want)
    ensures FactsHold(tx, want)
  {
  }

  lemma SerialWrite(cfg: Config, s: System, req: nat, id: u64, want: Record)
    requires Serial(cfg, s) && req in s.inflight && s.inflight[req].id == id
    requires RecordTells(cfg, want) && KeepsFacts(s.db[id], want)
    ensures Serial(cfg, s.(db := s.db[id := want], inflight := s.inflight - {req}))
  {
    hide RecordTells;
    var t := s.(db := s.db[id := want], inflight := s.inflight - {req});
    forall q | q in t.inflight ensures t.inflight[q].id in t.db && Fresh(t.inflight[q], t.db[t.inflight[q].id]) {
      assert t.inflight[q].id != id;
    }
    forall h | h in t.txs ensures t.txs[h].id in t.db && FactsHold(t.txs[h], t.db[t.txs[h].id]) {
      if t.txs[h].id == id { FactsFollow(t.txs[h], s.db[id], want); }
    }
  }

  /** The commit of a request that loaded the record as it still is. */
  lemma SerialFinish(cfg: Config, s: System, req: nat, loaded: Record, want: Record)
    requires Serial(cfg, s) && req in s.inflight && s.db[s.inflight[req].id] == loaded
    requires loaded.verifications <= want.verifications && (loaded.submission.Some? ==> want.submission.Some?)
    requires RecordTells(cfg, want) && KeepsFacts(loaded, want)
    ensures var id := s.inflight[req].id; var t := Finish(s, req, id, loaded, want);
            Serial(cfg, t) && req !in t.inflight && t.db == s.db[id := want] && t.inflight == s.inflight - {req}
  {
    hide RecordTells;
    FreshFinish(s, req, s.inflight[req].id, loaded, want);
    SerialWrite(cfg, s, req, s.inflight[req].id, want);
  }

  /** The next stage of a request, or the first of a new one, on an untouched record. */
  lemma SerialStage(cfg: Config, s: System, req: nat, p: Pending)
    requires Serial(cfg, s) && p.id in s.db && Fresh(p, s.db[p.id])
    requires forall q :: q in s.inflight && q != req ==> s.inflight[q].id != p.id
    ensures Serial(cfg, s.(inflight := s.inflight[req := p]))
  {
    hide RecordTells;
  }

  lemma SerialCommitFunding(cfg: Config, s: System, req: nat, baseSha: string)
    requires Serial(cfg, s)
    ensures Serial(cfg, DoCommitFunding(s, req, baseSha))
  {
    hide RecordTells;
    if req in s.inflight && s.inflight[req].FundingSeen? {
      var p := s.inflight[req];
      FundedTells(cfg, p.loaded, p.seen, p.txHash, baseSha);
      SerialFinish(cfg, s, req, p.loaded, Funded(p.loaded, p.seen, p.txHash, baseSha));
    }
  }

  lemma SerialCommitAssignment(cfg: Config, s: System, req: nat)
    requires Serial(cfg, s)
    ensures Serial(cfg, DoCommitAssignment(s, req))
  {
    hide RecordTells;
    if req in s.inflight && s.inflight[req].AssignmentSeen? {
      var p := s.inflight[req];
      AcceptedTells(cfg, p.loaded, p.seen, p.github);
      SerialFinish(cfg, s, req, p.loaded, Accepted(p.loaded, p.seen, p.github));
    }
  }

  lemma SerialCommitSubmission(cfg: Config, s: System, req: nat, seen: Snapshot)
    requires Serial(cfg, s)
    ensures Serial(cfg, DoCommitSubmission(cfg, s, req, seen))
  {
    hide RecordTells, Submit;
    if DoCommitSubmission(cfg, s, req, seen) != s {
      CommitSubmissionShape(cfg, s, req, seen);
      var p := s.inflight[req];
      SubmittedTells(cfg, p.loaded, p.url, seen);
      SerialFinish(cfg, s, req, p.loaded, Submit(cfg, p.loaded, p.url, Ok(seen)).value);
    }
  }

  lemma SerialCommitVerdict(cfg: Config, s: System, req: nat, seen: Snapshot)
    requires Serial(cfg, s)
    ensures Serial(cfg, DoCommitVerdict(cfg, s, req, seen))
  {
    hide RecordTells, Judge;
    if DoCommitVerdict(cfg, s, req, seen) != s {
      CommitVerdictShape(cfg, s, req, seen);
      var p := s.inflight[req];
      JudgedTells(cfg, p.loaded, seen);
      SerialVerdict(cfg, s, req, p.loaded, Judge(cfg, p.loaded, Ok(seen)).value);
    }
  }

  lemma SerialVerdict(cfg: Config, s: System, req: nat, loaded: Record, want: Record)
    requires Serial(cfg, s) && req in s.inflight && s.db[s.inflight[req].id] == loaded
    requires RecordTells(cfg, want) && KeepsFacts(loaded, want) && (loaded.submission.Some? ==> want.submission.Some?)
    requires want.verifications != [] && want.verifications == loaded.verifications + [Last(want)]
    requires want.row.status == StatusAfter(Last(want).result.status)
    ensures Serial(cfg, AfterVerdict(s, req, s.inflight[req].id, loaded, want))
  {
    hide RecordTells;
    SerialFinish(cfg, s, req, loaded, want);
    if Last(want).result.status == PASS {
      var id := s.inflight[req].id;
      SerialStage(cfg, Finish(s, req, id, loaded, want), req, Passed(id, Last(want).result));
    }
  }

  lemma SerialCommitPaid(cfg: Config, s: System, req: nat)
    requires Serial(cfg, s)
    ensures Serial(cfg, DoCommitPaid(s, req))
  {
    hide RecordTells;
    if DoCommitPaid(s, req) != s {
      var p := s.inflight[req];
      PaidTells(cfg, p.loaded, p.txHash);
      SerialFinish(cfg, s, req, p.loaded, PaidBy(p.loaded, p.txHash));
    }
  }

  lemma SerialTx(cfg: Config, s: System, txHash: string, tx: ReleaseTx)
    requires Serial(cfg, s) && tx.id in s.db && FactsHold(tx, s.db[tx.id])
    ensures Serial(cfg, s.(txs := s.txs[txHash := tx]))
  {
    hide RecordTells;
  }

  lemma SerialSend(cfg: Config, s: System, req: nat, txHash: string)
    requires Serial(cfg, s)
    ensures Serial(cfg, DoSendRelease(cfg, s, req, txHash))
  {
    hide RecordTells;
    if DoSendRelease(cfg, s, req, txHash) != s {
      var p := s.inflight[req];
      var tx := BuildRelease(cfg, p.id, s.db[p.id], p.result);
      SerialTx(cfg, s, txHash, tx);
      SerialStage(cfg, s.(txs := s.txs[txHash := tx]), req, Releasing(p.id, s.db[p.id], txHash));
    }
  }

  lemma SerialBegin(cfg: Config, s: System, req: nat, q: Request)
    requires Serial(cfg, s) && !Busy(s, q.id)
    ensures Serial(cfg, DoBegin(cfg, s, req, q))
  {
    hide RecordTells;
    if DoBegin(cfg, s, req, q) != s {
      SerialStage(cfg, s, req, Admit(cfg, s.db[q.id], q).value);
    }
  }

  lemma SerialReadChain(cfg: Config, s: System, req: nat)
    requires Serial(cfg, s)
    ensures Serial(cfg, DoReadChain(cfg, s, req))
  {
    hide RecordTells;
    if DoReadChain(cfg, s, req) != s {
      var p := DoReadChain(cfg, s, req).inflight[req];
      SerialStage(cfg, s, req, p);
    }
  }

  lemma SerialCreate(cfg: Config, s: System, id: u64, wallet: Address, form: Form)
    requires Serial(cfg, s)
    ensures Serial(cfg, DoCreate(cfg, s, id, wallet, form))
  {
    if id !in s.db && FormValid(form) {
      SerialNew(cfg, s, id, Created(cfg, wallet, form));
    }
  }

  lemma SerialNew(cfg: Config, s: System, id: u64, r: Record)
    requires Serial(cfg, s) && id !in s.db && Draft(r)
    ensures Serial(cfg, s.(db := s.db[id := r]))
  {
    hide RecordTells;
    DraftTells(cfg, r);
  }

  /** Steps that touch neither the database nor the transactions, and start no request. */
  lemma SerialElsewhere(cfg: Config, s: System, t: System)
    requires Serial(cfg, s) && t.db == s.db && t.txs == s.txs
    requires forall req :: req in t.inflight ==> req in s.inflight && t.inflight[req] == s.inflight[req]
    ensures Serial(cfg, t)
  {
    hide RecordTells;
  }

  lemma SerialOutside(cfg: Config, s: System, a: Action)
    requires Serial(cfg, s) && (a.Ledger? || a.Sign? || a.Include? || a.Drop?)
    ensures Serial(cfg, Settlement.Step(cfg, s, a))
  {
    SerialElsewhere(cfg, s, Settlement.Step(cfg, s, a));
  }

  lemma SerialCommit(cfg: Config, s: System, a: Action)
    requires Serial(cfg, s)
    requires a.CommitFunding? || a.CommitAssignment? || a.CommitSubmission? || a.CommitVerdict? || a.CommitPaid?
    ensures Serial(cfg, Settlement.Step(cfg, s, a))
  {
    match a
    case CommitFunding(req, baseSha) => SerialCommitFunding(cfg, s, req, baseSha);
    case CommitAssignment(req) => SerialCommitAssignment(cfg, s, req);
    case CommitSubmission(req, seen) => SerialCommitSubmission(cfg, s, req, seen);
    case CommitVerdict(req, seen) => SerialCommitVerdict(cfg, s, req, seen);
    case CommitPaid(req) => SerialCommitPaid(cfg, s, req);
    case _ =>
  }

  lemma SerialStepKeeps(cfg: Config, s: System, a: Action)
    requires Serial(cfg, s)
    ensures Serial(cfg, SerialStep(cfg, s, a))
  {
    if !(a.Begin? && Busy(s, a.request.id)) {
      match a
      case CreateTask(id, wallet, form) => SerialCreate(cfg, s, id, wallet, form);
      case Begin(req, q) => SerialBegin(cfg, s, req, q);
      case ReadChain(req) => SerialReadChain(cfg, s, req);
      case SendRelease(req, txHash) => SerialSend(cfg, s, req, txHash);
      case CommitFunding(_, _) => SerialCommit(cfg, s, a);
      case CommitAssignment(_) => SerialCommit(cfg, s, a);
      case CommitSubmission(_, _) => SerialCommit(cfg, s, a);
      case CommitVerdict(_, _) => SerialCommit(cfg, s, a);
      case CommitPaid(_) => SerialCommit(cfg, s, a);
      case _ => SerialOutside(cfg, s, a);
    }
  }

  lemma {:induction false} SerialRunKeeps(cfg: Config, s: System, actions: seq<Action>)
    requires Settlement.Inv(cfg, s) && Serial(cfg, s) && AllEvidenced(cfg, s.txs)
    ensures var t := SerialRun(cfg, s, actions);
            Settlement.Inv(cfg, t) && Serial(cfg, t) && AllEvidenced(cfg, t.txs) && Extends(s, t)
    decreases |actions|
  {
    if actions == [] {
      NothingKeeps(cfg, s);
    } else {
      var t := SerialStep(cfg, s, actions[0]);
      SerialStepKeeps(cfg, s, actions[0]);
      if t == s {
        NothingKeeps(cfg, s);
      } else {
        StepKeeps(cfg, s, actions[0]);
        StepKeepsEvidence(cfg, s, actions[0]);
      }
      SerialRunKeeps(cfg, t, actions[1..]);
      ExtendsTransitive(s, t, SerialRun(cfg, s, actions));
    }
  }

  lemma SerialFromStart(cfg: Config, start: System, actions: seq<Action>)
    requires Initial(cfg, start)
    ensures var t := SerialRun(cfg, start, actions);
            Settlement.Inv(cfg, t) && Serial(cfg, t) && AllEvidenced(cfg, t.txs)
  {
    InitialIsInv(cfg, start);
    forall id | id in start.db ensures RecordTells(cfg, start.db[id]) {
      DraftTells(cfg, start.db[id]);
    }
    SerialRunKeeps(cfg, start, actions);
  }

  // ------------------------------------------------------------- theorems over every serialised run

  /**
   The status is the image of the last verdict or PAID on top of a PASS, a payout hash
   is there exactly when PAID, a submission exactly from SUBMITTED on, the refunded
   statuses never occur, and a developer is there only once assigned.
   */
  lemma RowTellsItsHistory(cfg: Config, start: System, actions: seq<Action>, id: u64)
    requires Initial(cfg, start) && id in SerialRun(cfg, start, actions).db
    ensures TellsHistory(SerialRun(cfg, start, actions).db[id])
  {
    hide Initial, SerialRun;
    SerialFromStart(cfg, start, actions);
    assert RecordTells(cfg, SerialRun(cfg, start, actions).db[id]);
  }

  /** The submission is the pull request of its URL, as last verified. */
  lemma SubmissionIsCurrent(cfg: Config, start: System, actions: seq<Action>, id: u64)
    requires Initial(cfg, start) && id in SerialRun(cfg, start, actions).db
    ensures NumberFromUrl(SerialRun(cfg, start, actions).db[id]) && UpToDate(SerialRun(cfg, start, actions).db[id])
  {
    hide Initial, SerialRun;
    SerialFromStart(cfg, start, actions);
    assert RecordTells(cfg, SerialRun(cfg, start, actions).db[id]);
  }

  /** No verification is ever lost or reordered, and what a record has established stays. */
  lemma HistoryOnlyGrows(cfg: Config, start: System, before: seq<Action>, after: seq<Action>, id: u64)
    requires Initial(cfg, start) && id in SerialRun(cfg, start, before).db
    ensures var s := SerialRun(cfg, start, before); var t := SerialRun(cfg, s, after);
            id in t.db && s.db[id].verifications <= t.db[id].verifications && Older(s.db[id], t.db[id])
            && TellsHistory(t.db[id])
  {
    hide Initial, SerialRun;
    SerialFromStart(cfg, start, before);
    SerialRunKeeps(cfg, SerialRun(cfg, start, before), after);
    assert RecordTells(cfg, SerialRun(cfg, SerialRun(cfg, start, before), after).db[id]);
  }

  /** This verification is what the contract's evidence hash commits to. */
  ghost predicate Anchored(cfg: Config, b: Bounty, id: u64, r: Record, v: Verification) {
    && HasFacts(r)
    && v in r.verifications
    && v.result.status == PASS
    && b.evidenceHash == Some(cfg.sha(EvidenceText(FactsOf(id, r), v.result)))
  }

  /**
   GitHub showed the agreed pull request, by the bound author, with every required check green
   among the runs it served, which are all there are when it counts them or they fit on a page.
   */
  ghost predicate Deserved(cfg: Config, r: Record, v: Verification)
    requires r.submission.Some? && r.row.baseSha.Some? && r.row.developerGithub.Some?
    requires ParsePullRequestUrl(r.submission.value.url).Ok?
  {
    var i := WholeInspection(ParsePullRequestUrl(r.submission.value.url).value, v.seen);
    && StructureValid(cfg.fold, i, ExpectedBy(r.row))
    && (forall name :: name in REQUIRED_CHECKS ==> Succeeded(name, ServedRuns(v.seen), v.seen.headSha))
    && (v.seen.countsRuns || |v.seen.checkRuns| <= MAX_CHECK_RUNS ==> ServedRuns(v.seen) == v.seen.checkRuns)
  }

  /** The one page of check runs the client asks for. */
  function ServedRuns(s: Snapshot): seq<CheckRun> {
    Page(s.checkRuns, MAX_CHECK_RUNS, 1)
  }

  lemma PassIsDeserved(cfg: Config, r: Record, v: Verification)
    ensures IsVerdictFor(cfg, r, v) && v.result.status == PASS ==>
              ParsePullRequestUrl(r.submission.value.url).Ok? && Deserved(cfg, r, v)
  {
    if IsVerdictFor(cfg, r, v) && v.result.status == PASS {
      var url := r.submission.value.url;
      FilesAreWholeOrRefused(v.seen);
      CheckRunsAreWholeOrRefused(v.seen);
      VerdictMeaning(cfg.fold, Inspect(url, v.seen).value, ListCheckRuns(v.seen).value, ExpectedBy(r.row));
    }
  }

  lemma AnchorOf(cfg: Config, b: Bounty, tx: ReleaseTx, r: Record) returns (v: Verification)
    requires FactsHold(tx, r) && Evidenced(cfg, tx) && HasPass(r, tx.result)
    requires b.evidenceHash == Some(tx.evidenceHash)
    ensures Anchored(cfg, b, tx.id, r, v)
  {
    v :| v in r.verifications && v.result == tx.result;
  }

  /** The one release that paid a bounty. */
  lemma ReleaseOf(bounties: map<u64, Bounty>, txs: map<string, ReleaseTx>, fate: map<string, bool>, id: u64)
    returns (h: string)
    requires FateOk(bounties, txs, fate)
    requires id in bounties && bounties[id].status == Paid
    ensures h in txs && txs[h].id == id && bounties[id].evidenceHash == Some(txs[h].evidenceHash)
  {
    assert ReleasedBySome(txs, fate, id);
    h :| h in txs && h in fate && fate[h] && txs[h].id == id;
  }

  /** The record holds a verification that is anchored on chain and was deserved. */
  ghost predicate Earned(cfg: Config, b: Bounty, id: u64, r: Record) {
    && HasFacts(r) && ParsePullRequestUrl(r.submission.value.url).Ok?
    && exists v :: Anchored(cfg, b, id, r, v) && Deserved(cfg, r, v)
  }

  lemma ReleaseEarns(cfg: Config, b: Bounty, tx: ReleaseTx, r: Record)
    requires FactsHold(tx, r) && Evidenced(cfg, tx) && HasPass(r, tx.result) && RecordTells(cfg, r)
    requires b.evidenceHash == Some(tx.evidenceHash)
    ensures Earned(cfg, b, tx.id, r)
  {
    var v := AnchorOf(cfg, b, tx, r);
    PassIsDeserved(cfg, r, v);
  }

  /** The paid wallet is the row's developer, not its client, and signed for the GitHub name. */
  ghost predicate PaidTheDeveloper(cfg: Config, s: System, id: u64)
    requires id in s.db && id in s.chain.bounties
  {
    var row := s.db[id].row;
    && row.developerWallet.Some?
    && s.chain.bounties[id].developer == row.developerWallet
    && row.developerWallet != row.clientWallet
    && Bound(cfg, s.signed, id, row)
  }

  lemma DeveloperOf(cfg: Config, s: System, id: u64)
    requires id in s.db && id in s.chain.bounties && RecordOk(cfg, s, id, s.db[id])
    requires TellsHistory(s.db[id]) && s.db[id].submission.Some?
    ensures PaidTheDeveloper(cfg, s, id)
  {
  }

  /**
   The trail of a payment: whenever the contract has paid a bounty, whatever crashed or
   was lost on the way, MergePay's record holds the PASS whose evidence is anchored on
   chain, that PASS was deserved, and the paid wallet is the row's developer, which is
   not its client and signed for the GitHub name that authored the pull request.
   */
  lemma EveryPaymentIsEarned(cfg: Config, start: System, actions: seq<Action>, id: u64)
    requires Initial(cfg, start)
    requires var s := SerialRun(cfg, start, actions); id in s.chain.bounties && s.chain.bounties[id].status == Paid
    ensures var s := SerialRun(cfg, start, actions);
            && id in s.db
            && Earned(cfg, s.chain.bounties[id], id, s.db[id])
            && PaidTheDeveloper(cfg, s, id)
  {
    SerialFromStart(cfg, start, actions);
    var s := SerialRun(cfg, start, actions);
    var h := ReleaseOf(s.chain.bounties, s.txs, s.fate, id);
    assert TxOk(s, h);
    ReleaseEarns(cfg, s.chain.bounties[id], s.txs[h], s.db[id]);
    DeveloperOf(cfg, s, id);
  }
}
