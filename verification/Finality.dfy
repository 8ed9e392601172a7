/**
 When PAID is final. Requests overlap freely, so a request that loaded the row before it was
 paid may still write its own status over PAID. It can exactly when one that has a status to
 write is in flight; with none, the whole record never changes again.
 */
module Finality {
  import opened Wrappers
  import opened Escrow
  import opened Verifier
  import opened GitHubClient
  import opened Records
  import opened Settlement
  import opened Overlap

  /** A request that has read what it needs and will write its own status when it commits. */
  predicate Unsettles(p: Pending) {
    p.FundingSeen? || p.AssignmentSeen? || p.VerificationLoaded?
  }

  /** Such a request is in flight on this row. */
  predicate Unsettled(s: System, id: u64) {
    exists req :: req in s.inflight && s.inflight[req].id == id && Unsettles(s.inflight[req])
  }

  predicate IsPaid(s: System, id: u64) {
    id in s.db && s.db[id].row.status == PAID
  }

  // ------------------------------------------------------------- nothing is left to write

  /** A paid row has its submission, and its bounty is paid on chain. */
  lemma PaidHasAll(cfg: Config, s: System, id: u64)
    requires Settlement.Inv(cfg, s) && IsPaid(s, id)
    ensures s.db[id].submission.Some? && s.db[id].row.releaseTx.Some?
    ensures Released(s, s.db[id].row.releaseTx.value, id)
    ensures id in s.chain.bounties && s.chain.bounties[id].status == Paid
  {
    assert RecordOk(cfg, s, id, s.db[id]);
    assert TxOk(s, s.db[id].row.releaseTx.value);
  }

  /** What one step leaves of a paid row nobody is about to write. */
  predicate Undisturbed(s: System, t: System, id: u64) {
    id in s.db && id in t.db && t.db[id] == s.db[id] && !Unsettled(t, id)
  }

  lemma StillUndisturbed(s: System, t: System, id: u64)
    requires id in s.db && id in t.db && t.db[id] == s.db[id] && !Unsettled(s, id)
    requires forall req :: req in t.inflight && t.inflight[req].id == id ==>
               !Unsettles(t.inflight[req]) || (req in s.inflight && t.inflight[req] == s.inflight[req])
    ensures Undisturbed(s, t, id)
  {
    forall req | req in t.inflight && t.inflight[req].id == id ensures !Unsettles(t.inflight[req]) {
      if req in s.inflight && t.inflight[req] == s.inflight[req] {
        assert s.inflight[req].id == id;
      }
    }
  }

  /** The end of a request on another row, or of one whose commit changes nothing. */
  lemma FinishUndisturbs(s: System, req: nat, id: u64, other: u64, loaded: Record, want: Record)
    requires id in s.db && !Unsettled(s, id) && loaded.verifications <= want.verifications
    requires other == id ==> Commit(loaded, want, s.db[id]) == Some(s.db[id]) || Commit(loaded, want, s.db[id]).None?
    ensures Undisturbed(s, Finish(s, req, other, loaded, want), id)
  {
    hide Commit;
    StillUndisturbed(s, Finish(s, req, other, loaded, want), id);
  }

  lemma BeginUndisturbs(cfg: Config, s: System, id: u64, req: nat, q: Request)
    requires IsPaid(s, id) && !Unsettled(s, id)
    ensures Undisturbed(s, DoBegin(cfg, s, req, q), id)
  {
    if q.id == id {
      PaidAdmitsNothing(cfg, s.db[id], q);
    }
    hide Admit;
    if q.id in s.db { AdmittedHasId(cfg, s, q); }
    StillUndisturbed(s, DoBegin(cfg, s, req, q), id);
  }

  lemma AdmittedHasId(cfg: Config, s: System, q: Request)
    requires q.id in s.db
    ensures var p := Admit(cfg, s.db[q.id], q); p.Some? ==> p.value.id == q.id
  {
  }

  lemma PaidAdmitsNothing(cfg: Config, r: Record, q: Request)
    requires r.row.status == PAID
    ensures Admit(cfg, r, q).None?
  {
    hide AssignmentSchema;
  }

  /** A paid bounty is neither open nor assigned, so nothing read of it now passes. */
  lemma PaidMatchesNothing(cfg: Config, signed: set<(Address, string)>, b: Bounty, row: Row, id: u64,
                           txHash: string, github: string, wallet: Address)
    requires b.status == Paid
    ensures CheckFunding(b, row, wallet).Some? && CheckAssignment(cfg, signed, b, row, id, txHash, github, wallet).Some?
  {
  }

  lemma ReadUndisturbs(cfg: Config, s: System, id: u64, req: nat)
    requires id in s.chain.bounties && s.chain.bounties[id].status == Paid && IsPaid(s, id) && !Unsettled(s, id)
    ensures Undisturbed(s, DoReadChain(cfg, s, req), id)
  {
    if req in s.inflight && s.inflight[req].id == id {
      var p := s.inflight[req];
      if p.FundingLoaded? {
        PaidMatchesNothing(cfg, s.signed, s.chain.bounties[id], p.loaded.row, id, p.txHash, "", p.wallet);
      } else if p.AssignmentLoaded? {
        PaidMatchesNothing(cfg, s.signed, s.chain.bounties[id], p.loaded.row, id, p.txHash, p.github, p.wallet);
      }
    }
    hide CheckFunding, CheckAssignment;
    StillUndisturbed(s, DoReadChain(cfg, s, req), id);
  }

  lemma FundingUndisturbs(cfg: Config, s: System, id: u64, req: nat, baseSha: string)
    requires IsPaid(s, id) && !Unsettled(s, id)
    ensures Undisturbed(s, DoCommitFunding(s, req, baseSha), id)
  {
    if req in s.inflight && s.inflight[req].FundingSeen? {
      var p := s.inflight[req];
      hide Commit;
      FinishUndisturbs(s, req, id, p.id, p.loaded, Funded(p.loaded, p.seen, p.txHash, baseSha));
    }
  }

  lemma AssignmentUndisturbs(cfg: Config, s: System, id: u64, req: nat)
    requires IsPaid(s, id) && !Unsettled(s, id)
    ensures Undisturbed(s, DoCommitAssignment(s, req), id)
  {
    if req in s.inflight && s.inflight[req].AssignmentSeen? {
      var p := s.inflight[req];
      hide Commit;
      FinishUndisturbs(s, req, id, p.id, p.loaded, Accepted(p.loaded, p.seen, p.github));
    }
  }

  /** A second submission of the same bounty fails on the UNIQUE column. */
  lemma SubmissionUndisturbs(cfg: Config, s: System, id: u64, req: nat, seen: Snapshot)
    requires Settlement.Inv(cfg, s) && IsPaid(s, id) && !Unsettled(s, id)
    ensures Undisturbed(s, DoCommitSubmission(cfg, s, req, seen), id)
  {
    PaidHasAll(cfg, s, id);
    if DoCommitSubmission(cfg, s, req, seen) != s {
      CommitSubmissionShape(cfg, s, req, seen);
      var p := s.inflight[req];
      assert PendingOk(cfg, s, p);
      hide Settlement.Inv, DoCommitSubmission, Submit;
      FinishUndisturbs(s, req, id, p.id, p.loaded, Submit(cfg, p.loaded, p.url, Ok(seen)).value);
    }
  }

  lemma VerdictUndisturbs(cfg: Config, s: System, id: u64, req: nat, seen: Snapshot)
    requires IsPaid(s, id) && !Unsettled(s, id)
    ensures Undisturbed(s, DoCommitVerdict(cfg, s, req, seen), id)
  {
    if DoCommitVerdict(cfg, s, req, seen) != s {
      CommitVerdictShape(cfg, s, req, seen);
      var p := s.inflight[req];
      hide DoCommitVerdict, Judge, Commit;
      var want := Judge(cfg, p.loaded, Ok(seen)).value;
      var done := Finish(s, req, p.id, p.loaded, want);
      FinishUndisturbs(s, req, id, p.id, p.loaded, want);
      assert p.id != id;
      StillUndisturbed(done, AfterVerdict(s, req, p.id, p.loaded, want), id);
    }
  }

  /** What a late commit #2 writes is what the row already says: only one release ever succeeds. */
  lemma PaidUndisturbs(cfg: Config, s: System, id: u64, req: nat)
    requires Settlement.Inv(cfg, s) && IsPaid(s, id) && !Unsettled(s, id)
    ensures Undisturbed(s, DoCommitPaid(s, req), id)
  {
    if DoCommitPaid(s, req) != s {
      var p := s.inflight[req];
      PaidHasAll(cfg, s, id);
      assert PendingOk(cfg, s, p);
      if p.id == id {
        assert s.db[id].row.releaseTx == Some(p.txHash);
        SamePayment(p.loaded, s.db[id], p.txHash);
      }
      hide Settlement.Inv, Commit;
      FinishUndisturbs(s, req, id, p.id, p.loaded, PaidBy(p.loaded, p.txHash));
    }
  }

  lemma SamePayment(loaded: Record, current: Record, txHash: string)
    requires current.row.status == PAID && current.row.releaseTx == Some(txHash)
    ensures Commit(loaded, PaidBy(loaded, txHash), current) == Some(current)
  {
    assert current.verifications + loaded.verifications[|loaded.verifications|..] == current.verifications;
  }

  lemma SendUndisturbs(cfg: Config, s: System, id: u64, req: nat, txHash: string)
    requires IsPaid(s, id) && !Unsettled(s, id)
    ensures Undisturbed(s, DoSendRelease(cfg, s, req, txHash), id)
  {
    hide BuildRelease, HasFacts;
    StillUndisturbed(s, DoSendRelease(cfg, s, req, txHash), id);
  }

  lemma CreateUndisturbs(cfg: Config, s: System, id: u64, other: u64, wallet: Address, form: Form)
    requires IsPaid(s, id) && !Unsettled(s, id)
    ensures Undisturbed(s, DoCreate(cfg, s, other, wallet, form), id)
  {
    hide Created;
    StillUndisturbed(s, DoCreate(cfg, s, other, wallet, form), id);
  }

  /** The ledger, a wallet's signature and an ending request write nothing. */
  lemma OutsideUndisturbs(cfg: Config, s: System, id: u64, a: Action)
    requires IsPaid(s, id) && !Unsettled(s, id) && (a.Ledger? || a.Sign? || a.Include? || a.Drop?)
    ensures Undisturbed(s, Settlement.Step(cfg, s, a), id)
  {
    hide Release, Escrow.Step, Unsettled;
    StillUndisturbed(s, Settlement.Step(cfg, s, a), id);
  }

  lemma StepUndisturbs(cfg: Config, s: System, id: u64, a: Action)
    requires Settlement.Inv(cfg, s) && IsPaid(s, id) && !Unsettled(s, id)
    ensures Undisturbed(s, Settlement.Step(cfg, s, a), id)
  {
    hide Settlement.Inv, Undisturbed, Unsettled, DoLedger, DoCreate, DoBegin, DoReadChain, DoCommitFunding,
      DoCommitAssignment, DoCommitSubmission, DoCommitVerdict, DoSendRelease, DoInclude, DoCommitPaid;
    match a
    case CreateTask(other, wallet, form) => CreateUndisturbs(cfg, s, id, other, wallet, form);
    case Begin(req, q) => BeginUndisturbs(cfg, s, id, req, q);
    case ReadChain(req) =>
      PaidHasAll(cfg, s, id);
      ReadUndisturbs(cfg, s, id, req);
    case CommitFunding(req, baseSha) => FundingUndisturbs(cfg, s, id, req, baseSha);
    case CommitAssignment(req) => AssignmentUndisturbs(cfg, s, id, req);
    case CommitSubmission(req, seen) => SubmissionUndisturbs(cfg, s, id, req, seen);
    case CommitVerdict(req, seen) => VerdictUndisturbs(cfg, s, id, req, seen);
    case SendRelease(req, txHash) => SendUndisturbs(cfg, s, id, req, txHash);
    case CommitPaid(req) => PaidUndisturbs(cfg, s, id, req);
    case _ => OutsideUndisturbs(cfg, s, id, a);
  }

  /** With nobody about to write it, a paid record never changes again, whatever happens. */
  lemma {:induction false} PaidStays(cfg: Config, s: System, id: u64, actions: seq<Action>)
    requires Settlement.Inv(cfg, s) && IsPaid(s, id) && !Unsettled(s, id)
    ensures var t := Settlement.Run(cfg, s, actions); id in t.db && t.db[id] == s.db[id]
    decreases |actions|
  {
    hide Settlement.Inv, Unsettled, Settlement.Step;
    if actions != [] {
      StepUndisturbs(cfg, s, id, actions[0]);
      Settlement.StepKeeps(cfg, s, actions[0]);
      PaidStays(cfg, Settlement.Step(cfg, s, actions[0]), id, actions[1..]);
    }
  }

  // ------------------------------------------------------------- something is

  /** A pull request as agreed, untouched and without check runs; as a draft, it fails. */
  function Shown(row: Row, draft: bool): Snapshot
    requires row.baseSha.Some?
  {
    Snapshot("open", draft, row.developerGithub, row.baseBranch, row.baseSha.value, "", "", [], [], true)
  }

  lemma ShownIsRead(url: string, row: Row, draft: bool)
    requires row.baseSha.Some? && ParsePullRequestUrl(url).Ok?
    ensures var ref := ParsePullRequestUrl(url).value;
            Inspect(url, Shown(row, draft))
            == Ok(Inspection(ref.owner, ref.repo, ref.pullNumber, "open", draft, row.developerGithub,
                             row.baseBranch, row.baseSha.value, "", "", []))
    ensures ListCheckRuns(Shown(row, draft)) == Ok([])
  {
    hide ParsePullRequestUrl;
    FilesAreWholeOrRefused(Shown(row, draft));
    CheckRunsAreWholeOrRefused(Shown(row, draft));
  }

  /** Its verdict: FAIL as a draft, otherwise PENDING. */
  lemma ShownVerdict(cfg: Config, url: string, row: Row, draft: bool)
    requires row.baseSha.Some? && row.developerGithub.Some? && OfRepository(cfg, url, row)
    ensures Inspect(url, Shown(row, draft)).Ok?
    ensures Verify(cfg.fold, Inspect(url, Shown(row, draft)).value, [], ExpectedBy(row)).status
         == if draft then FAIL else PENDING
  {
    hide ParsePullRequestUrl, SameFolded, Verify;
    ShownIsRead(url, row, draft);
    var i := Inspect(url, Shown(row, draft)).value;
    VerdictMeaning(cfg.fold, i, [], ExpectedBy(row));
    FoldsAlike(cfg.fold, row.developerGithub.value);
    assert Unfinished(REQUIRED_CHECKS[0], [], i.headSha);
    assert REQUIRED_CHECKS[0] in REQUIRED_CHECKS;
  }

  lemma FoldsAlike(fold: char -> string, s: string)
    ensures SameFolded(fold, s, s)
  {
  }

  /** The verdict to show so that what is written differs from what was loaded. */
  function Spoiler(loaded: Record): Snapshot
    requires loaded.row.baseSha.Some?
  {
    Shown(loaded.row, loaded.row.status != NEEDS_CHANGES)
  }

  /** What a request with a status to write has loaded. */
  predicate WriterOk(cfg: Config, s: System, p: Pending) {
    && p.id in s.db && !p.Passed? && Older(p.loaded, s.db[p.id])
    && match p
       case FundingSeen(_, _, _, loaded, _) => loaded.row.status == DRAFT
       case AssignmentSeen(_, _, _, _, loaded, _) => loaded.row.status == OPEN_FUNDED
       case VerificationLoaded(_, loaded) => Staffed(loaded.row) && loaded.submission.Some?
       case _ => false
  }

  lemma WritersAreOk(cfg: Config, s: System, req: nat)
    requires Settlement.Inv(cfg, s) && req in s.inflight && Unsettles(s.inflight[req])
    ensures WriterOk(cfg, s, s.inflight[req])
  {
    assert PendingOk(cfg, s, s.inflight[req]);
  }

  /** A commit writes a status that differs from the one loaded, whatever is there by now. */
  lemma FinishWrites(s: System, req: nat, id: u64, loaded: Record, want: Record)
    requires id in s.db && loaded.verifications <= want.verifications && want.row.status != loaded.row.status
    requires want.submission == loaded.submission || loaded.submission.Some?
    ensures var t := Finish(s, req, id, loaded, want); id in t.db && t.db[id].row.status == want.row.status
  {
  }

  /** A verification that loaded the row earlier writes its own verdict over PAID. */
  lemma VerdictOverwrites(cfg: Config, s: System, req: nat)
    requires req in s.inflight && s.inflight[req].VerificationLoaded? && WriterOk(cfg, s, s.inflight[req])
    requires OfRepository(cfg, s.inflight[req].loaded.submission.value.url, s.inflight[req].loaded.row)
    ensures var loaded := s.inflight[req].loaded; var id := s.inflight[req].id;
            var t := DoCommitVerdict(cfg, s, req, Spoiler(loaded));
            id in t.db && t.db[id].row.status == if loaded.row.status == NEEDS_CHANGES then VERIFYING else NEEDS_CHANGES
  {
    var p := s.inflight[req];
    var url := p.loaded.submission.value.url;
    var draft := p.loaded.row.status != NEEDS_CHANGES;
    ShownVerdict(cfg, url, p.loaded.row, draft);
    ShownIsRead(url, p.loaded.row, draft);
    hide ParsePullRequestUrl, Verify, Inspect, ListCheckRuns, SameFolded, Finish, Older;
    FinishWrites(s, req, p.id, p.loaded, Judge(cfg, p.loaded, Ok(Spoiler(p.loaded))).value);
  }

  lemma FundingOverwrites(cfg: Config, s: System, req: nat)
    requires req in s.inflight && s.inflight[req].FundingSeen? && WriterOk(cfg, s, s.inflight[req])
    ensures var t := DoCommitFunding(s, req, ""); var id := s.inflight[req].id;
            id in t.db && t.db[id].row.status == OPEN_FUNDED
  {
    var p := s.inflight[req];
    hide Finish;
    FinishWrites(s, req, p.id, p.loaded, Funded(p.loaded, p.seen, p.txHash, ""));
  }

  lemma AssignmentOverwrites(cfg: Config, s: System, req: nat)
    requires req in s.inflight && s.inflight[req].AssignmentSeen? && WriterOk(cfg, s, s.inflight[req])
    ensures var t := DoCommitAssignment(s, req); var id := s.inflight[req].id;
            id in t.db && t.db[id].row.status == ASSIGNED
  {
    var p := s.inflight[req];
    hide Finish;
    FinishWrites(s, req, p.id, p.loaded, Accepted(p.loaded, p.seen, p.github));
  }

  /** The commit that takes PAID away. */
  function Overwriting(req: nat, p: Pending): Action
    requires Unsettles(p) && (p.VerificationLoaded? ==> p.loaded.row.baseSha.Some?)
  {
    match p
    case FundingSeen(_, _, _, _, _) => CommitFunding(req, "")
    case AssignmentSeen(_, _, _, _, _, _) => CommitAssignment(req)
    case VerificationLoaded(_, loaded) => CommitVerdict(req, Spoiler(loaded))
  }

  lemma WriterOverwrites(cfg: Config, s: System, req: nat)
    requires req in s.inflight && Unsettles(s.inflight[req]) && WriterOk(cfg, s, s.inflight[req])
    requires s.inflight[req].VerificationLoaded? ==>
               OfRepository(cfg, s.inflight[req].loaded.submission.value.url, s.inflight[req].loaded.row)
    ensures !IsPaid(Settlement.Step(cfg, s, Overwriting(req, s.inflight[req])), s.inflight[req].id)
  {
    hide OfRepository, Older, DoCommitFunding, DoCommitAssignment, DoCommitVerdict;
    match s.inflight[req]
    case FundingSeen(_, _, _, _, _) => FundingOverwrites(cfg, s, req);
    case AssignmentSeen(_, _, _, _, _, _) => AssignmentOverwrites(cfg, s, req);
    case VerificationLoaded(_, _) => VerdictOverwrites(cfg, s, req);
  }

  /** One step takes PAID away when such a request is in flight. */
  lemma SomethingOverwrites(cfg: Config, s: System, id: u64) returns (a: Action)
    requires Settlement.Inv(cfg, s) && AllFit(cfg, s) && IsPaid(s, id) && Unsettled(s, id)
    ensures !IsPaid(Settlement.Step(cfg, s, a), id)
  {
    hide Settlement.Inv, Settlement.Step, IsPaid, OfRepository;
    var req :| req in s.inflight && s.inflight[req].id == id && Unsettles(s.inflight[req]);
    var p := s.inflight[req];
    WritersAreOk(cfg, s, req);
    if p.VerificationLoaded? {
      LoadedIsOfRepository(cfg, p.loaded, s.db[id]);
    }
    WriterOverwrites(cfg, s, req);
    a := Overwriting(req, p);
  }

  // ------------------------------------------------------------- the exact condition

  /**
   In every reachable state of the overlapping system: a PAID row is PAID in everything that
   may follow if and only if no request that loaded it earlier is in flight with a status of
   its own to write; and then nothing of its record ever changes.
   */
  lemma PaidIsFinalExactly(cfg: Config, start: System, before: seq<Action>, id: u64)
    requires Initial(cfg, start) && IsPaid(Settlement.Run(cfg, start, before), id)
    ensures var s := Settlement.Run(cfg, start, before);
            (forall after :: IsPaid(Settlement.Run(cfg, s, after), id)) <==> !Unsettled(s, id)
    ensures var s := Settlement.Run(cfg, start, before);
            !Unsettled(s, id) ==> forall after ::
              id in Settlement.Run(cfg, s, after).db && Settlement.Run(cfg, s, after).db[id] == s.db[id]
  {
    hide Settlement.Run, Settlement.Inv, Unsettled, AllFit, Settlement.Step;
    SubmissionsFit(cfg, start, before);
    var s := Settlement.Run(cfg, start, before);
    if Unsettled(s, id) {
      var a := SomethingOverwrites(cfg, s, id);
      RunAction(cfg, s, a);
      assert !IsPaid(Settlement.Run(cfg, s, [a]), id);
    } else {
      forall after ensures id in Settlement.Run(cfg, s, after).db && Settlement.Run(cfg, s, after).db[id] == s.db[id] {
        PaidStays(cfg, s, id, after);
      }
    }
  }

  lemma RunAction(cfg: Config, s: System, a: Action)
    ensures Settlement.Run(cfg, s, [a]) == Settlement.Step(cfg, s, a)
  {
    hide Settlement.Step;
    assert [a][1..] == [];
    assert Settlement.Run(cfg, s, [a]) == Settlement.Run(cfg, Settlement.Step(cfg, s, a), []);
  }
}
