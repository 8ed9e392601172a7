/**
 Who asked for what the database holds: over every run of the overlapping system, each task goes
 back to the form it was created with, and each submission, verification, developer and funding to
 a request of the wallet whose right it was.
 */
module Requests {
  import opened Wrappers
  import opened Text
  import opened Escrow
  import opened Verifier
  import opened GitHubClient
  import opened Commitments
  import opened Records
  import opened Settlement
  import Decisions
  import Provenance

  // ------------------------------------------------------------- requests in flight

  /** This request is what that wallet asked for, and the wallet had the right to on the record it loaded. */
  predicate AskedFor(q: Request, p: Pending) {
    match p
    case FundingLoaded(id, txHash, wallet, _) => q == ConfirmFunding(id, wallet, txHash)
    case FundingSeen(id, txHash, wallet, _, _) => q == ConfirmFunding(id, wallet, txHash)
    case AssignmentLoaded(id, txHash, wallet, github, _) => q == ConfirmAssignment(id, wallet, txHash, github)
    case AssignmentSeen(id, txHash, wallet, github, _, _) => q == ConfirmAssignment(id, wallet, txHash, github)
    case SubmissionLoaded(id, url, loaded) =>
      q.RegisterSubmission? && q.id == id && q.url == url && loaded.row.developerWallet == Some(q.wallet)
    case VerificationLoaded(id, loaded) =>
      q.RunVerification? && q.id == id
      && (loaded.row.clientWallet == Some(q.wallet) || loaded.row.developerWallet == Some(q.wallet))
    case Passed(_, _) => true
    case Releasing(_, _, _) => true
  }

  lemma AdmittedAsked(cfg: Config, r: Record, q: Request)
    requires Admit(cfg, r, q).Some?
    ensures AskedFor(q, Admit(cfg, r, q).value)
  {
    hide AssignmentSchema;
  }

  /** Whoever asked for the one asked for the other. */
  ghost predicate SameAsking(before: Pending, after: Pending) {
    forall q :: AskedFor(q, before) ==> AskedFor(q, after)
  }

  lemma BeginAsks(cfg: Config, s: System, begun: nat, q: Request, req: nat)
    requires req in DoBegin(cfg, s, begun, q).inflight
    ensures var p := DoBegin(cfg, s, begun, q).inflight[req];
            (begun == req && AskedFor(q, p)) || (req in s.inflight && s.inflight[req] == p)
  {
    if q.id in s.db && Admit(cfg, s.db[q.id], q).Some? {
      AdmittedAsked(cfg, s.db[q.id], q);
    }
    hide Admit, AskedFor;
  }

  lemma ReadAsks(cfg: Config, s: System, read: nat, req: nat)
    requires req in DoReadChain(cfg, s, read).inflight
    ensures req in s.inflight && SameAsking(s.inflight[req], DoReadChain(cfg, s, read).inflight[req])
  {
    hide CheckFunding, CheckAssignment;
  }

  lemma OtherStepAsks(cfg: Config, s: System, a: Action, req: nat)
    requires !a.Begin? && !a.ReadChain? && req in Settlement.Step(cfg, s, a).inflight
    ensures var p := Settlement.Step(cfg, s, a).inflight[req];
            req in s.inflight && (p == s.inflight[req] || p.Passed? || p.Releasing?)
  {
    hide Judge, Submit, Commit, BuildRelease, HasFacts, Release, Escrow.Step;
  }

  lemma LaterStage(before: Pending, after: Pending)
    requires after == before || after.Passed? || after.Releasing?
    ensures SameAsking(before, after)
  {
  }

  /** A request's stages are of one asking. */
  lemma StepAsks(cfg: Config, s: System, a: Action, req: nat)
    requires req in Settlement.Step(cfg, s, a).inflight
    ensures var p := Settlement.Step(cfg, s, a).inflight[req];
            (a.Begin? && AskedFor(a.request, p)) || (req in s.inflight && SameAsking(s.inflight[req], p))
  {
    hide DoLedger, DoCreate, DoBegin, DoReadChain, DoCommitFunding, DoCommitAssignment, DoCommitSubmission,
      DoCommitVerdict, DoSendRelease, DoInclude, DoCommitPaid, AskedFor, SameAsking;
    if a.Begin? {
      BeginAsks(cfg, s, a.req, a.request, req);
      if req in s.inflight { LaterStage(s.inflight[req], s.inflight[req]); }
    } else if a.ReadChain? {
      ReadAsks(cfg, s, a.req, req);
    } else {
      OtherStepAsks(cfg, s, a, req);
      LaterStage(s.inflight[req], Settlement.Step(cfg, s, a).inflight[req]);
    }
  }

  lemma {:induction false} InFlightWasAsked(cfg: Config, start: System, actions: seq<Action>, req: nat) returns (k: nat)
    requires Initial(cfg, start) && req in Settlement.Run(cfg, start, actions).inflight
    ensures k < |actions| && actions[k].Begin?
    ensures AskedFor(actions[k].request, Settlement.Run(cfg, start, actions).inflight[req])
    decreases |actions|
  {
    hide Settlement.Step, Deployed, AskedFor;
    assert actions != [];
    hide Settlement.Run, Initial;
    var n := |actions| - 1;
    Provenance.RunLast(cfg, start, actions);
    var s := Settlement.Run(cfg, start, actions[..n]);
    StepAsks(cfg, s, actions[n], req);
    if req in s.inflight && SameAsking(s.inflight[req], Settlement.Run(cfg, start, actions).inflight[req]) {
      k := InFlightWasAsked(cfg, start, actions[..n], req);
    } else {
      k := n;
    }
  }

  // ------------------------------------------------------------- which step wrote it

  /** The end of a request that asks nothing new of these columns. */
  lemma FinishKeepsSubmission(s: System, req: nat, id: u64, loaded: Record, want: Record, other: u64)
    requires loaded.verifications <= want.verifications && want.submission == loaded.submission
    requires other in Finish(s, req, id, loaded, want).db
    ensures other in s.db && Finish(s, req, id, loaded, want).db[other].submission == s.db[other].submission
  {
    hide PickRow;
  }

  /** A submission was there, or is the one a request just committed. */
  lemma StepSubmits(cfg: Config, s: System, a: Action, id: u64)
    requires Settlement.Inv(cfg, s)
    requires var t := Settlement.Step(cfg, s, a); id in t.db && t.db[id].submission.Some?
    ensures var url := Settlement.Step(cfg, s, a).db[id].submission.value.url;
            || (id in s.db && s.db[id].submission.Some? && s.db[id].submission.value.url == url)
            || (a.CommitSubmission? && a.req in s.inflight && s.inflight[a.req].SubmissionLoaded?
                && s.inflight[a.req].id == id && s.inflight[a.req].url == url)
  {
    Settlement.StepKeeps(cfg, s, a);
    if id in s.db && s.db[id].submission.Some? {
      assert Older(s.db[id], Settlement.Step(cfg, s, a).db[id]);
    } else {
      NewlySubmitted(cfg, s, a, id);
    }
  }

  lemma NewlySubmitted(cfg: Config, s: System, a: Action, id: u64)
    requires Settlement.Inv(cfg, s) && (id in s.db ==> s.db[id].submission.None?)
    requires var t := Settlement.Step(cfg, s, a); id in t.db && t.db[id].submission.Some?
    ensures a.CommitSubmission? && a.req in s.inflight && s.inflight[a.req].SubmissionLoaded?
    ensures s.inflight[a.req].id == id
            && s.inflight[a.req].url == Settlement.Step(cfg, s, a).db[id].submission.value.url
  {
    hide Settlement.Inv, DoLedger, DoCreate, DoBegin, DoReadChain, DoCommitFunding, DoCommitAssignment,
      DoCommitSubmission, DoCommitVerdict, DoSendRelease, DoInclude, DoCommitPaid;
    if a.CommitSubmission? {
      SubmissionCommitted(cfg, s, a.req, a.seen, id);
    } else if a.CommitVerdict? {
      VerdictSubmitsNothing(cfg, s, a.req, a.seen, id);
    } else {
      OthersSubmitNothing(cfg, s, a, id);
    }
  }

  lemma SubmissionCommitted(cfg: Config, s: System, req: nat, seen: Snapshot, id: u64)
    requires id in s.db ==> s.db[id].submission.None?
    requires var t := DoCommitSubmission(cfg, s, req, seen); id in t.db && t.db[id].submission.Some?
    ensures req in s.inflight && s.inflight[req].SubmissionLoaded? && s.inflight[req].id == id
    ensures s.inflight[req].url == DoCommitSubmission(cfg, s, req, seen).db[id].submission.value.url
  {
    hide Examine, PickRow;
    if DoCommitSubmission(cfg, s, req, seen) != s {
      CommitSubmissionShape(cfg, s, req, seen);
    }
  }

  lemma VerdictSubmitsNothing(cfg: Config, s: System, req: nat, seen: Snapshot, id: u64)
    requires Settlement.Inv(cfg, s) && (id in s.db ==> s.db[id].submission.None?)
    requires id in DoCommitVerdict(cfg, s, req, seen).db
    ensures DoCommitVerdict(cfg, s, req, seen).db[id].submission.None?
  {
    if DoCommitVerdict(cfg, s, req, seen) != s {
      CommitVerdictShape(cfg, s, req, seen);
      LoadedIsSubmitted(cfg, s, req);
      hide Settlement.Inv, DoCommitVerdict, Judge, Commit;
      var p := s.inflight[req];
      FinishElsewhere(s, req, p.id, p.loaded, Judge(cfg, p.loaded, Ok(seen)).value, id);
      hide Finish;
    }
  }

  lemma LoadedIsSubmitted(cfg: Config, s: System, req: nat)
    requires Settlement.Inv(cfg, s) && req in s.inflight && s.inflight[req].VerificationLoaded?
    ensures s.inflight[req].id in s.db && s.db[s.inflight[req].id].submission.Some?
  {
    assert PendingOk(cfg, s, s.inflight[req]);
  }

  lemma FinishElsewhere(s: System, req: nat, id: u64, loaded: Record, want: Record, other: u64)
    requires loaded.verifications <= want.verifications
    ensures Finish(s, req, id, loaded, want).db.Keys == s.db.Keys
    ensures other != id && other in s.db ==> Finish(s, req, id, loaded, want).db[other] == s.db[other]
  {
    hide Commit;
  }

  lemma OthersSubmitNothing(cfg: Config, s: System, a: Action, id: u64)
    requires !a.CommitSubmission? && !a.CommitVerdict? && id in Settlement.Step(cfg, s, a).db
    ensures id in s.db ==> Settlement.Step(cfg, s, a).db[id].submission == s.db[id].submission
    ensures id !in s.db ==> Settlement.Step(cfg, s, a).db[id].submission.None?
  {
    hide PickRow, PickSubmission, EvidenceText, HasFacts, Release, CheckFunding, CheckAssignment, Admit, Escrow.Step,
      CriteriaHash;
  }

  // ------------------------------------------------------------- submissions

  /** The wallet's own asking, at this place in the run. */
  predicate Submits(actions: seq<Action>, k: nat, id: u64, wallet: Address, url: string) {
    k < |actions| && actions[k].Begin? && actions[k].request == RegisterSubmission(id, wallet, url)
  }

  /** Every stored submission was asked for by the row's developer, and by nobody else. */
  lemma {:induction false} SubmittedByDeveloper(cfg: Config, start: System, actions: seq<Action>, id: u64)
    returns (k: nat)
    requires Initial(cfg, start)
    requires var s := Settlement.Run(cfg, start, actions); id in s.db && s.db[id].submission.Some?
    ensures var r := Settlement.Run(cfg, start, actions).db[id];
            r.row.developerWallet.Some? && Submits(actions, k, id, r.row.developerWallet.value, r.submission.value.url)
    decreases |actions|
  {
    hide Settlement.Step, Deployed, Settlement.Inv, Submits;
    assert actions != [];
    var n := |actions| - 1;
    RunFromStart(cfg, start, actions[..n]);
    hide Settlement.Run, Initial;
    Provenance.RunLast(cfg, start, actions);
    var s := Settlement.Run(cfg, start, actions[..n]);
    StepSubmits(cfg, s, actions[n], id);
    Settlement.StepKeeps(cfg, s, actions[n]);
    if id in s.db && s.db[id].submission.Some? {
      k := SubmittedByDeveloper(cfg, start, actions[..n], id);
      Earlier(actions, n, k, id, s.db[id].row.developerWallet.value, s.db[id].submission.value.url);
    } else {
      k := InFlightWasAsked(cfg, start, actions[..n], actions[n].req);
      AskedByDeveloper(cfg, s, actions[n].req, actions[k].request, id);
      assert Submits(actions, k, id, actions[k].request.wallet, actions[k].request.url) by {
        OneRequest(actions, k, id);
      }
    }
  }

  lemma Earlier(actions: seq<Action>, n: nat, k: nat, id: u64, wallet: Address, url: string)
    requires n <= |actions| && Submits(actions[..n], k, id, wallet, url)
    ensures Submits(actions, k, id, wallet, url)
  {
  }

  lemma OneRequest(actions: seq<Action>, k: nat, id: u64)
    requires k < |actions| && actions[k].Begin? && actions[k].request.RegisterSubmission?
    requires actions[k].request.id == id
    ensures Submits(actions, k, id, actions[k].request.wallet, actions[k].request.url)
  {
  }

  /** The developer who asked is still the row's. */
  lemma AskedByDeveloper(cfg: Config, s: System, req: nat, q: Request, id: u64)
    requires Settlement.Inv(cfg, s) && req in s.inflight && s.inflight[req].SubmissionLoaded?
    requires s.inflight[req].id == id && AskedFor(q, s.inflight[req])
    ensures q.RegisterSubmission? && q.id == id && q.url == s.inflight[req].url
    ensures id in s.db && s.db[id].row.developerWallet == Some(q.wallet)
  {
    assert PendingOk(cfg, s, s.inflight[req]);
  }

  // ------------------------------------------------------------- verifications

  /** Whoever asked takes part in the task, still. */
  lemma AskedByParticipant(cfg: Config, s: System, req: nat, q: Request, id: u64)
    requires Settlement.Inv(cfg, s) && req in s.inflight && s.inflight[req].VerificationLoaded?
    requires s.inflight[req].id == id && AskedFor(q, s.inflight[req])
    ensures q.RunVerification? && q.id == id && id in s.db && Decisions.Participates(s.db[id].row, q.wallet)
  {
    assert PendingOk(cfg, s, s.inflight[req]);
  }

  predicate Verifies(actions: seq<Action>, k: nat, id: u64, row: Row) {
    && k < |actions| && actions[k].Begin? && actions[k].request.RunVerification? && actions[k].request.id == id
    && Decisions.Participates(row, actions[k].request.wallet)
  }

  lemma StillVerifies(actions: seq<Action>, n: nat, k: nat, id: u64, before: Record, after: Record)
    requires n <= |actions| && Verifies(actions[..n], k, id, before.row) && Older(before, after)
    ensures Verifies(actions, k, id, after.row)
  {
  }

  /** Every stored verification was asked for by the row's client or its developer. */
  lemma {:induction false} VerifiedByParticipant(cfg: Config, start: System, actions: seq<Action>, id: u64,
                                                 v: Verification)
    returns (k: nat)
    requires Initial(cfg, start)
    requires var s := Settlement.Run(cfg, start, actions); id in s.db && v in s.db[id].verifications
    ensures Verifies(actions, k, id, Settlement.Run(cfg, start, actions).db[id].row)
    decreases |actions|
  {
    hide Settlement.Step, Deployed, Settlement.Inv, Older, Verifies;
    assert actions != [];
    var n := |actions| - 1;
    RunFromStart(cfg, start, actions[..n]);
    hide Settlement.Run, Initial;
    Provenance.RunLast(cfg, start, actions);
    var s := Settlement.Run(cfg, start, actions[..n]);
    var req := Provenance.StepJudges(cfg, s, actions[n], id, v);
    Settlement.StepKeeps(cfg, s, actions[n]);
    if id in s.db && v in s.db[id].verifications {
      k := VerifiedByParticipant(cfg, start, actions[..n], id, v);
    } else {
      k := InFlightWasAsked(cfg, start, actions[..n], req);
      AskedByParticipant(cfg, s, req, actions[k].request, id);
      ItVerifies(actions[..n], k, id, s.db[id].row);
    }
    StillVerifies(actions, n, k, id, s.db[id], Settlement.Run(cfg, start, actions).db[id]);
  }

  lemma ItVerifies(actions: seq<Action>, k: nat, id: u64, row: Row)
    requires k < |actions| && actions[k].Begin? && actions[k].request.RunVerification? && actions[k].request.id == id
    requires Decisions.Participates(row, actions[k].request.wallet)
    ensures Verifies(actions, k, id, row)
  {
  }

  // ------------------------------------------------------------- terms

  /** The task was created here, by this row's client, with these terms and criteria. */
  ghost predicate Creates(cfg: Config, actions: seq<Action>, k: nat, id: u64, row: Row) {
    && k < |actions| && actions[k].CreateTask? && actions[k].id == id
    && row.clientWallet == Some(actions[k].wallet)
    && var form := actions[k].form;
       && form.amount > 0 && form.deadline > 0 && form.criteria != []
       && row.repoOwner == form.repoOwner && row.repoName == form.repoName && row.baseBranch == form.baseBranch
       && row.amount == form.amount && row.deadline == form.deadline
       && row.criteriaHash.Some? && Decisions.CommitsTo(cfg, row.criteriaHash.value, form.criteria)
  }

  lemma StillCreates(cfg: Config, actions: seq<Action>, n: nat, k: nat, id: u64, before: Record, after: Record)
    requires n <= |actions| && Creates(cfg, actions[..n], k, id, before.row) && Older(before, after)
    ensures Creates(cfg, actions, k, id, after.row)
  {
    hide Decisions.CommitsTo;
  }

  /** A record is there already, or this step creates it. */
  lemma StepCreates(cfg: Config, s: System, a: Action, id: u64)
    requires id !in s.db && id in Settlement.Step(cfg, s, a).db
    ensures a.CreateTask? && a.id == id && a.form.amount > 0 && a.form.deadline > 0 && a.form.criteria != []
    ensures Settlement.Step(cfg, s, a).db[id] == Created(cfg, a.wallet, a.form)
  {
    hide Commit, Created, EvidenceText, HasFacts, Release, CheckFunding, CheckAssignment, Admit, Escrow.Step, Submit,
      Judge;
  }

  /**
   Every task created in the run keeps its form's terms, the commitment to that form's criteria and
   the wallet that created it, whatever requests overlap.
   */
  lemma {:induction false} TermsAreTheForms(cfg: Config, start: System, actions: seq<Action>, id: u64) returns (k: nat)
    requires Initial(cfg, start) && id !in start.db && id in Settlement.Run(cfg, start, actions).db
    ensures Creates(cfg, actions, k, id, Settlement.Run(cfg, start, actions).db[id].row)
    decreases |actions|
  {
    hide Settlement.Step, Settlement.Inv, Older, Deployed, Creates;
    assert actions != [];
    var n := |actions| - 1;
    RunFromStart(cfg, start, actions[..n]);
    hide Settlement.Run, Initial;
    Provenance.RunLast(cfg, start, actions);
    var s := Settlement.Run(cfg, start, actions[..n]);
    Settlement.StepKeeps(cfg, s, actions[n]);
    if id in s.db {
      k := TermsAreTheForms(cfg, start, actions[..n], id);
      StillCreates(cfg, actions, n, k, id, s.db[id], Settlement.Run(cfg, start, actions).db[id]);
    } else {
      k := n;
      StepCreates(cfg, s, actions[n], id);
      CreatedHere(cfg, actions, n, id);
    }
  }

  lemma CreatedHere(cfg: Config, actions: seq<Action>, k: nat, id: u64)
    requires k < |actions| && actions[k].CreateTask? && actions[k].id == id
    requires var form := actions[k].form; form.amount > 0 && form.deadline > 0 && form.criteria != []
    ensures Creates(cfg, actions, k, id, Created(cfg, actions[k].wallet, actions[k].form).row)
  {
    Decisions.CreatesExactly(cfg, actions[k].wallet, actions[k].form);
    hide Created, Decisions.CommitsTo;
  }

  // ------------------------------------------------------------- developers and fundings

  /** The columns only one kind of request writes. */
  predicate SameClaims(a: Row, b: Row) {
    a.developerWallet == b.developerWallet && a.developerGithub == b.developerGithub && a.createTx == b.createTx
  }

  /** A commit leaves each column it did not change, and writes the one it did. */
  lemma FinishClaims(s: System, req: nat, id: u64, loaded: Record, want: Record, other: u64)
    requires loaded.verifications <= want.verifications && other in Finish(s, req, id, loaded, want).db
    ensures other in s.db
    ensures var t := Finish(s, req, id, loaded, want).db[other].row; var r := s.db[other].row;
            && (t.developerGithub == r.developerGithub
                || (other == id && t.developerGithub == want.row.developerGithub))
            && (t.createTx == r.createTx || (other == id && t.createTx == want.row.createTx))
            && (SameClaims(want.row, loaded.row) ==> SameClaims(t, r))
            && (want.row.createTx == loaded.row.createTx ==> t.createTx == r.createTx)
            && (want.row.developerGithub == loaded.row.developerGithub ==> t.developerGithub == r.developerGithub)
  {
    hide PickSubmission;
  }

  /** Steps that are neither confirmation claim nothing new. */
  lemma OthersClaimNothing(cfg: Config, s: System, a: Action, id: u64)
    requires !a.CommitFunding? && !a.CommitAssignment? && id in Settlement.Step(cfg, s, a).db
    ensures var t := Settlement.Step(cfg, s, a).db[id].row;
            if id in s.db then SameClaims(t, s.db[id].row) else t.developerGithub.None? && t.createTx.None?
  {
    hide EvidenceText, HasFacts, Release, CheckFunding, CheckAssignment, Admit, Escrow.Step, CriteriaHash, Examine,
      PickSubmission;
  }

  lemma StepNames(cfg: Config, s: System, a: Action, id: u64)
    requires var t := Settlement.Step(cfg, s, a); id in t.db && t.db[id].row.developerGithub.Some?
    ensures var github := Settlement.Step(cfg, s, a).db[id].row.developerGithub;
            || (id in s.db && s.db[id].row.developerGithub == github)
            || (a.CommitAssignment? && a.req in s.inflight && s.inflight[a.req].AssignmentSeen?
                && s.inflight[a.req].id == id && github == Some(s.inflight[a.req].github))
  {
    hide Finish;
    if a.CommitAssignment? && a.req in s.inflight && s.inflight[a.req].AssignmentSeen? {
      var p := s.inflight[a.req];
      FinishClaims(s, a.req, p.id, p.loaded, Accepted(p.loaded, p.seen, p.github), id);
    } else if a.CommitFunding? && a.req in s.inflight && s.inflight[a.req].FundingSeen? {
      var p := s.inflight[a.req];
      FinishClaims(s, a.req, p.id, p.loaded, Funded(p.loaded, p.seen, p.txHash, a.baseSha), id);
    } else if !a.CommitAssignment? && !a.CommitFunding? {
      OthersClaimNothing(cfg, s, a, id);
    }
  }

  lemma StepFunds(cfg: Config, s: System, a: Action, id: u64)
    requires var t := Settlement.Step(cfg, s, a); id in t.db && t.db[id].row.createTx.Some?
    ensures var createTx := Settlement.Step(cfg, s, a).db[id].row.createTx;
            || (id in s.db && s.db[id].row.createTx == createTx)
            || (a.CommitFunding? && a.req in s.inflight && s.inflight[a.req].FundingSeen?
                && s.inflight[a.req].id == id && createTx == Some(Lower(s.inflight[a.req].txHash)))
  {
    hide Finish;
    if a.CommitAssignment? && a.req in s.inflight && s.inflight[a.req].AssignmentSeen? {
      var p := s.inflight[a.req];
      FinishClaims(s, a.req, p.id, p.loaded, Accepted(p.loaded, p.seen, p.github), id);
    } else if a.CommitFunding? && a.req in s.inflight && s.inflight[a.req].FundingSeen? {
      var p := s.inflight[a.req];
      FinishClaims(s, a.req, p.id, p.loaded, Funded(p.loaded, p.seen, p.txHash, a.baseSha), id);
    } else if !a.CommitAssignment? && !a.CommitFunding? {
      OthersClaimNothing(cfg, s, a, id);
    }
  }

  predicate Names(actions: seq<Action>, k: nat, id: u64, row: Row) {
    && k < |actions| && actions[k].Begin? && actions[k].request.ConfirmAssignment? && actions[k].request.id == id
    && row.developerWallet == Some(actions[k].request.wallet)
    && row.developerGithub == Some(actions[k].request.github)
  }

  predicate Funds(actions: seq<Action>, k: nat, id: u64, row: Row) {
    && k < |actions| && actions[k].Begin? && actions[k].request.ConfirmFunding? && actions[k].request.id == id
    && row.clientWallet == Some(actions[k].request.wallet)
    && row.createTx == Some(Lower(actions[k].request.txHash))
  }

  /** Who confirms an acceptance is the developer of the row it leaves. */
  lemma AssigneeIsDeveloper(cfg: Config, s: System, t: System, req: nat, id: u64)
    requires Settlement.Inv(cfg, s) && Settlement.Inv(cfg, t) && Extends(s, t)
    requires req in s.inflight && s.inflight[req].AssignmentSeen? && s.inflight[req].id == id
    requires id in t.db && t.db[id].row.developerGithub.Some?
    ensures t.db[id].row.developerWallet == Some(s.inflight[req].wallet)
  {
    hide OwnershipMessage, AssignmentSchema, MatchesAssignment, TxOk, FateOk, Escrow.Inv;
    assert PendingOk(cfg, s, s.inflight[req]);
    assert RecordOk(cfg, t, id, t.db[id]);
    assert Later(s.chain.bounties[id], t.chain.bounties[id]);
  }

  /** Every GitHub name on a row was sent in a request of the developer whose row it is. */
  lemma {:induction false} NamedByDeveloper(cfg: Config, start: System, actions: seq<Action>, id: u64) returns (k: nat)
    requires Initial(cfg, start)
    requires var s := Settlement.Run(cfg, start, actions); id in s.db && s.db[id].row.developerGithub.Some?
    ensures Names(actions, k, id, Settlement.Run(cfg, start, actions).db[id].row)
    decreases |actions|
  {
    hide Settlement.Step, Deployed, Settlement.Inv, AskedFor, Extends;
    assert actions != [];
    var n := |actions| - 1;
    RunFromStart(cfg, start, actions[..n]);
    RunFromStart(cfg, start, actions);
    hide Settlement.Run, Initial;
    Provenance.RunLast(cfg, start, actions);
    var s, t := Settlement.Run(cfg, start, actions[..n]), Settlement.Run(cfg, start, actions);
    StepNames(cfg, s, actions[n], id);
    Settlement.StepKeeps(cfg, s, actions[n]);
    if id in s.db && s.db[id].row.developerGithub == t.db[id].row.developerGithub {
      k := NamedByDeveloper(cfg, start, actions[..n], id);
      NameStays(cfg, s, t, id);
    } else {
      k := InFlightWasAsked(cfg, start, actions[..n], actions[n].req);
      AssigneeIsDeveloper(cfg, s, t, actions[n].req, id);
      AskedAsAssignee(actions[k].request, s.inflight[actions[n].req]);
    }
  }

  lemma NameStays(cfg: Config, s: System, t: System, id: u64)
    requires Settlement.Inv(cfg, s) && Extends(s, t) && id in s.db && s.db[id].row.developerGithub.Some?
    ensures id in t.db && t.db[id].row.developerWallet == s.db[id].row.developerWallet
  {
    assert RecordOk(cfg, s, id, s.db[id]);
  }

  lemma AskedAsAssignee(q: Request, p: Pending)
    requires AskedFor(q, p)
    ensures p.AssignmentSeen? ==> q == ConfirmAssignment(p.id, p.wallet, p.txHash, p.github)
    ensures p.FundingSeen? ==> q == ConfirmFunding(p.id, p.wallet, p.txHash)
  {
  }

  /** Who confirms a funding is the client of the row it leaves. */
  lemma FunderIsClient(cfg: Config, s: System, t: System, req: nat, id: u64)
    requires Settlement.Inv(cfg, s) && Settlement.Inv(cfg, t) && Extends(s, t)
    requires req in s.inflight && s.inflight[req].FundingSeen? && s.inflight[req].id == id
    requires id in s.db && id in t.db && t.db[id].row.createTx != s.db[id].row.createTx
    ensures t.db[id].row.clientWallet == Some(s.inflight[req].wallet)
  {
    hide MatchesTask, TxOk, FateOk, Escrow.Inv;
    assert PendingOk(cfg, s, s.inflight[req]);
    assert Older(s.db[id], t.db[id]);
    assert RecordOk(cfg, t, id, t.db[id]);
    assert Later(s.chain.bounties[id], t.chain.bounties[id]);
  }

  lemma ClientStays(cfg: Config, s: System, t: System, id: u64)
    requires Extends(s, t) && id in s.db && s.db[id].row.clientWallet.Some?
    ensures id in t.db && t.db[id].row.clientWallet == s.db[id].row.clientWallet
  {
  }

  /** Every funding transaction on a row was sent in a request of the client whose row it is. */
  lemma {:induction false} FundedByClient(cfg: Config, start: System, actions: seq<Action>, id: u64) returns (k: nat)
    requires Initial(cfg, start)
    requires var s := Settlement.Run(cfg, start, actions); id in s.db && s.db[id].row.createTx.Some?
    ensures Funds(actions, k, id, Settlement.Run(cfg, start, actions).db[id].row)
    decreases |actions|
  {
    hide Settlement.Step, Deployed, Settlement.Inv, AskedFor, Extends, Lower;
    assert actions != [];
    var n := |actions| - 1;
    RunFromStart(cfg, start, actions[..n]);
    RunFromStart(cfg, start, actions);
    hide Settlement.Run, Initial;
    Provenance.RunLast(cfg, start, actions);
    var s, t := Settlement.Run(cfg, start, actions[..n]), Settlement.Run(cfg, start, actions);
    StepFunds(cfg, s, actions[n], id);
    Settlement.StepKeeps(cfg, s, actions[n]);
    if id in s.db && s.db[id].row.createTx == t.db[id].row.createTx {
      k := FundedByClient(cfg, start, actions[..n], id);
      ClientStays(cfg, s, t, id);
    } else {
      k := InFlightWasAsked(cfg, start, actions[..n], actions[n].req);
      FundedIsThere(cfg, s, actions[n].req);
      FunderIsClient(cfg, s, t, actions[n].req, id);
      AskedAsAssignee(actions[k].request, s.inflight[actions[n].req]);
    }
  }

  lemma FundedIsThere(cfg: Config, s: System, req: nat)
    requires Settlement.Inv(cfg, s) && req in s.inflight
    ensures s.inflight[req].id in s.db
  {
    assert PendingOk(cfg, s, s.inflight[req]);
  }

  /** A task is created exactly from a form with a reward, a deadline and criteria, under an id that is free. */
  lemma TasksAreCreatedExactly(cfg: Config, s: System, id: u64, wallet: Address, form: Form)
    ensures Settlement.Step(cfg, s, CreateTask(id, wallet, form))
         == if id !in s.db && form.amount > 0 && form.deadline > 0 && |form.criteria| > 0
            then s.(db := s.db[id := Created(cfg, wallet, form)])
            else s
  {
    hide Created;
  }


  // ------------------------------------------------------------- admission

  /** What the schema of a confirmed acceptance lets through: 64 lower-case digits and a GitHub name. */
  predicate WellSent(txHash: string, github: string) {
    && |txHash| == 64 && (forall c :: c in txHash ==> '0' <= c <= '9' || 'a' <= c <= 'f')
    && 1 <= |github| <= 39
    && forall c :: c in github ==> 'A' <= c <= 'Z' || 'a' <= c <= 'z' || '0' <= c <= '9' || c == '-'
  }

  lemma SchemaAlike(txHash: string, github: string)
    ensures AssignmentSchema(txHash, github) <==> WellSent(txHash, github)
  {
    if WellSent(txHash, github) {
      forall k | 0 <= k < |txHash| ensures Lower(txHash)[k] == txHash[k] {
        assert txHash[k] in txHash;
      }
    } else if IsHash(txHash) && Lower(txHash) == txHash {
      forall c | c in txHash ensures '0' <= c <= '9' || 'a' <= c <= 'f' {
        var k :| 0 <= k < |txHash| && txHash[k] == c;
        assert Lower(txHash)[k] == c;
      }
    }
  }

  /** When a request gets past its first checks, on the row as it is at that moment. */
  predicate MayBegin(r: Record, q: Request) {
    match q
    case ConfirmFunding(_, wallet, _) =>
      r.row.status == DRAFT && r.row.criteriaHash.Some? && Decisions.ClientsOwn(r.row, wallet)
    case ConfirmAssignment(_, wallet, txHash, github) =>
      && WellSent(txHash, github) && r.row.status == OPEN_FUNDED && r.row.clientWallet != Some(wallet)
      && Decisions.Whole(r.row)
    case RegisterSubmission(_, wallet, _) => Decisions.MaySubmit(r, wallet)
    case RunVerification(_, wallet) => Decisions.Participates(r.row, wallet) && Decisions.Awaits(r)
  }

  /** A request is under way exactly if it may begin, carries the row it found, and has changed nothing yet. */
  lemma BeginsExactly(cfg: Config, s: System, req: nat, q: Request)
    requires req !in s.inflight
    ensures var t := Settlement.Step(cfg, s, Begin(req, q));
            && t == s.(inflight := t.inflight)
            && (if q.id in s.db && MayBegin(s.db[q.id], q)
                then t.inflight.Keys == s.inflight.Keys + {req} && t.inflight - {req} == s.inflight
                     && t.inflight[req].id == q.id && t.inflight[req].loaded == s.db[q.id]
                else t == s)
  {
    if q.ConfirmAssignment? {
      SchemaAlike(q.txHash, q.github);
    }
    hide AssignmentSchema, WellSent, Lower;
  }


  // ------------------------------------------------------------- releases

  /** The transaction releases this bounty to the digest of a text of this result and this record's facts. */
  ghost predicate Carries(cfg: Config, tx: ReleaseTx, id: u64, r: Record, result: VerificationResult) {
    && tx.id == id && tx.result == result && Decisions.Describes(tx.facts, id, r)
    && tx.evidenceHash == cfg.sha(EvidenceText(tx.facts, result))
  }

  /**
   A PASS sends its release for the record as it is now, whatever hash the transaction gets, unless another
   transaction has it already; an equal one sent before is the same one.
   */
  lemma SendsExactly(cfg: Config, s: System, req: nat, txHash: string)
    requires req in s.inflight && s.inflight[req].Passed? && s.inflight[req].id in s.db
    requires HasFacts(s.db[s.inflight[req].id])
    ensures var p := s.inflight[req]; var r := s.db[p.id]; var t := Settlement.Step(cfg, s, SendRelease(req, txHash));
            if txHash in s.txs && !Carries(cfg, s.txs[txHash], p.id, r, p.result) then t == s
            else
              && t == s.(txs := t.txs, inflight := s.inflight[req := Releasing(p.id, r, txHash)])
              && txHash in t.txs && t.txs == s.txs[txHash := t.txs[txHash]]
              && (txHash in s.txs ==> t.txs == s.txs)
              && Carries(cfg, t.txs[txHash], p.id, r, p.result)
  {
    hide EvidenceText;
  }
}
