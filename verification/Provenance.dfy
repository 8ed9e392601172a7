/**
 Where every stored verdict and every release came from, with requests overlapping freely: the
 record a verification loaded was the database's at one moment of the run, and so was the record
 its evidence was made of.
 */
module Provenance {
  import opened Wrappers
  import opened Escrow
  import opened Verifier
  import opened GitHubClient
  import opened Commitments
  import opened Records
  import opened Settlement
  import opened Overlap
  import opened HonestRun
  import opened LateFunding
  import opened Serialised
  import Alone
  import Payment
  import Rules

  /** The system after the first `k` actions. */
  ghost function Moment(cfg: Config, start: System, actions: seq<Action>, k: nat): System
    requires k <= |actions|
  {
    Settlement.Run(cfg, start, actions[..k])
  }

  /** This was the record of the bounty then. */
  ghost predicate RecordAt(cfg: Config, start: System, actions: seq<Action>, k: nat, id: u64, r: Record) {
    k <= |actions| && id in Moment(cfg, start, actions, k).db && Moment(cfg, start, actions, k).db[id] == r
  }

  lemma RunLast(cfg: Config, s: System, actions: seq<Action>)
    requires actions != []
    ensures var n := |actions| - 1;
            Settlement.Run(cfg, s, actions) == Settlement.Step(cfg, Settlement.Run(cfg, s, actions[..n]), actions[n])
  {
    hide Settlement.Run, Settlement.Step;
    var n := |actions| - 1;
    assert actions == actions[..n] + [actions[n]];
    Payment.RunConcat(cfg, s, actions[..n], [actions[n]]);
    Finality.RunAction(cfg, Settlement.Run(cfg, s, actions[..n]), actions[n]);
  }

  /** A moment of a shorter run is one of the longer run. */
  lemma EarlierMoment(cfg: Config, start: System, actions: seq<Action>, n: nat, k: nat, id: u64, r: Record)
    requires n <= |actions| && RecordAt(cfg, start, actions[..n], k, id, r)
    ensures RecordAt(cfg, start, actions, k, id, r)
  {
    hide Settlement.Run;
    assert actions[..n][..k] == actions[..k];
  }

  // ------------------------------------------------------------- what a verification loaded

  lemma StepLoads(cfg: Config, s: System, a: Action, req: nat)
    requires var t := Settlement.Step(cfg, s, a); req in t.inflight && t.inflight[req].VerificationLoaded?
    ensures var p := Settlement.Step(cfg, s, a).inflight[req];
            (req in s.inflight && s.inflight[req] == p) || (p.id in s.db && s.db[p.id] == p.loaded)
  {
    hide AdmitFunding, AdmitAssignment, AdmitSubmission, AdmitVerification, AssignmentSchema, Judge, Submit, Commit,
      BuildRelease, HasFacts, Release, CheckFunding, CheckAssignment, Escrow.Step;
  }

  lemma {:induction false} WasLoaded(cfg: Config, start: System, actions: seq<Action>, req: nat) returns (k: nat)
    requires Initial(cfg, start)
    requires var s := Settlement.Run(cfg, start, actions); req in s.inflight && s.inflight[req].VerificationLoaded?
    ensures var p := Settlement.Run(cfg, start, actions).inflight[req];
            RecordAt(cfg, start, actions, k, p.id, p.loaded)
    decreases |actions|
  {
    hide Settlement.Step, Deployed;
    assert actions != [];
    hide Settlement.Run, Initial;
    var n := |actions| - 1;
    RunLast(cfg, start, actions);
    var s := Settlement.Run(cfg, start, actions[..n]);
    var p := Settlement.Run(cfg, start, actions).inflight[req];
    StepLoads(cfg, s, actions[n], req);
    if req in s.inflight && s.inflight[req] == p {
      k := WasLoaded(cfg, start, actions[..n], req);
      EarlierMoment(cfg, start, actions, n, k, p.id, p.loaded);
    } else {
      k := n;
    }
  }

  // ------------------------------------------------------------- what a verdict is about

  /** A stored verification was there before, or is the verdict a request just reached on what it loaded. */
  lemma VerdictJudges(cfg: Config, s: System, req: nat, seen: Snapshot, id: u64, v: Verification)
    requires var t := DoCommitVerdict(cfg, s, req, seen); id in t.db && v in t.db[id].verifications
    ensures (id in s.db && v in s.db[id].verifications)
            || (req in s.inflight && s.inflight[req].VerificationLoaded? && s.inflight[req].id == id
                && IsVerdictFor(cfg, s.inflight[req].loaded, v))
  {
    if DoCommitVerdict(cfg, s, req, seen) != s {
      CommitVerdictShape(cfg, s, req, seen);
      var p := s.inflight[req];
      JudgeIsVerdict(cfg, p.loaded, seen);
      hide DoCommitVerdict, Judge, IsVerdictFor, Finish;
      FinishAppends(s, req, p.id, p.loaded, Judge(cfg, p.loaded, Ok(seen)).value, id, v);
    }
  }

  lemma FinishAppends(s: System, req: nat, id: u64, loaded: Record, want: Record, other: u64, v: Verification)
    requires want.verifications != [] && want.verifications == loaded.verifications + [Last(want)]
    requires var t := Finish(s, req, id, loaded, want); other in t.db && v in t.db[other].verifications
    ensures other in s.db && (v in s.db[other].verifications || (other == id && v == Last(want)))
  {
    hide PickRow, PickSubmission;
  }

  lemma JudgeIsVerdict(cfg: Config, r: Record, seen: Snapshot)
    requires r.submission.Some? && r.row.baseSha.Some? && r.row.developerGithub.Some?
    requires Judge(cfg, r, Ok(seen)).Ok?
    ensures var want := Judge(cfg, r, Ok(seen)).value;
            want.verifications != [] && IsVerdictFor(cfg, r, Last(want))
  {
    hide Verify, ParsePullRequestUrl;
  }

  /** Every other step leaves the verifications that are there. */
  lemma OthersJudgeNothing(cfg: Config, s: System, a: Action, id: u64)
    requires !a.CommitVerdict? && id in Settlement.Step(cfg, s, a).db
    ensures id in s.db ==> Settlement.Step(cfg, s, a).db[id].verifications == s.db[id].verifications
    ensures id !in s.db ==> Settlement.Step(cfg, s, a).db[id].verifications == []
  {
    hide PickRow, PickSubmission, Examine, EvidenceText, HasFacts, Release, CheckFunding, CheckAssignment, Admit,
      Escrow.Step, CriteriaHash;
  }

  lemma StepJudges(cfg: Config, s: System, a: Action, id: u64, v: Verification) returns (req: nat)
    requires var t := Settlement.Step(cfg, s, a); id in t.db && v in t.db[id].verifications
    ensures (id in s.db && v in s.db[id].verifications)
            || (req in s.inflight && s.inflight[req].VerificationLoaded? && s.inflight[req].id == id
                && IsVerdictFor(cfg, s.inflight[req].loaded, v))
  {
    if a.CommitVerdict? {
      req := a.req;
      hide IsVerdictFor, DoCommitVerdict;
      VerdictJudges(cfg, s, a.req, a.seen, id, v);
    } else {
      req := 0;
      hide Settlement.Step, IsVerdictFor;
      OthersJudgeNothing(cfg, s, a, id);
    }
  }

  /** Every stored verification is the verdict for a record the database held at some moment before. */
  lemma {:induction false} WasJudged(cfg: Config, start: System, actions: seq<Action>, id: u64, v: Verification)
    returns (k: nat, l: Record)
    requires Initial(cfg, start)
    requires var s := Settlement.Run(cfg, start, actions); id in s.db && v in s.db[id].verifications
    ensures RecordAt(cfg, start, actions, k, id, l) && IsVerdictFor(cfg, l, v)
    decreases |actions|
  {
    hide Settlement.Step, Deployed, IsVerdictFor;
    assert actions != [];
    hide Settlement.Run, Initial;
    var n := |actions| - 1;
    RunLast(cfg, start, actions);
    var s := Settlement.Run(cfg, start, actions[..n]);
    var req := StepJudges(cfg, s, actions[n], id, v);
    if id in s.db && v in s.db[id].verifications {
      k, l := WasJudged(cfg, start, actions[..n], id, v);
    } else {
      k := WasLoaded(cfg, start, actions[..n], req);
      l := s.inflight[req].loaded;
    }
    EarlierMoment(cfg, start, actions, n, k, id, l);
  }

  // ------------------------------------------------------------- what a release was made of

  lemma StepSends(cfg: Config, s: System, a: Action, h: string)
    requires Settlement.Inv(cfg, s) && h in Settlement.Step(cfg, s, a).txs
    ensures var tx := Settlement.Step(cfg, s, a).txs[h];
            || (h in s.txs && s.txs[h] == tx)
            || (tx.id in s.db && FactsHold(tx, s.db[tx.id]) && HasPass(s.db[tx.id], tx.result))
  {
    if a.SendRelease? {
      SendShape(cfg, s, a.req, a.txHash);
      if a.req in s.inflight && s.inflight[a.req].Passed? {
        assert PendingOk(cfg, s, s.inflight[a.req]);
      }
      hide DoSendRelease, HasFacts, EvidenceText, Settlement.Inv;
    } else {
      OnlySendingAddsTransactions(cfg, s, a);
    }
  }

  /** Every release carries the facts of a record the database held when it already held the PASS. */
  lemma {:induction false} WasSent(cfg: Config, start: System, actions: seq<Action>, h: string)
    returns (j: nat, r: Record)
    requires Initial(cfg, start) && h in Settlement.Run(cfg, start, actions).txs
    ensures var tx := Settlement.Run(cfg, start, actions).txs[h];
            RecordAt(cfg, start, actions, j, tx.id, r) && FactsHold(tx, r) && HasPass(r, tx.result)
    decreases |actions|
  {
    hide Settlement.Step, Deployed, Settlement.Inv, FactsHold, HasPass;
    assert actions != [];
    var n := |actions| - 1;
    RunFromStart(cfg, start, actions[..n]);
    hide Settlement.Run, Initial;
    RunLast(cfg, start, actions);
    var s := Settlement.Run(cfg, start, actions[..n]);
    var tx := Settlement.Run(cfg, start, actions).txs[h];
    StepSends(cfg, s, actions[n], h);
    if h in s.txs && s.txs[h] == tx {
      j, r := WasSent(cfg, start, actions[..n], h);
      EarlierMoment(cfg, start, actions, n, j, tx.id, r);
    } else {
      j, r := n, s.db[tx.id];
    }
  }

  // ------------------------------------------------------------- from one moment to a later one

  lemma Onwards(cfg: Config, start: System, actions: seq<Action>, k: nat, j: nat)
    requires Initial(cfg, start) && k <= j <= |actions|
    ensures var s := Moment(cfg, start, actions, k); var t := Moment(cfg, start, actions, j);
            && Settlement.Inv(cfg, s) && Settlement.Inv(cfg, t) && Extends(s, t)
            && t == Settlement.Run(cfg, s, actions[k..j])
  {
    hide Settlement.Run, Initial, Settlement.Inv, Extends;
    assert actions[..j] == actions[..k] + actions[k..j];
    Payment.RunConcat(cfg, start, actions[..k], actions[k..j]);
    RunFromStart(cfg, start, actions[..k]);
    RunKeeps(cfg, Settlement.Run(cfg, start, actions[..k]), actions[k..j]);
  }

  /** The paid wallet signed for the name this record holds. */
  lemma NameIsSigned(cfg: Config, s: System, t: System, id: u64)
    requires Settlement.Inv(cfg, s) && Extends(s, t) && id in s.db && Staffed(s.db[id].row)
    requires Settlement.Inv(cfg, t) && id in t.db && id in t.chain.bounties
    ensures t.chain.bounties[id].developer.Some?
    ensures SignedFor(cfg, t.signed, id, t.chain.bounties[id].developer.value, s.db[id].row.developerGithub.value)
  {
    hide OwnershipMessage, AssignmentSchema, PendingOk, TxOk, FateOk, Escrow.Inv;
    assert RecordOk(cfg, s, id, s.db[id]) && RecordOk(cfg, t, id, t.db[id]);
    assert Older(s.db[id], t.db[id]);
  }

  /** With no confirmation in flight when it was loaded, the base commit judged is the one in the evidence. */
  lemma SameBaseOnwards(cfg: Config, start: System, actions: seq<Action>, k: nat, j: nat, id: u64)
    requires Initial(cfg, start) && k <= j <= |actions|
    requires HasDeveloper(Moment(cfg, start, actions, k), id)
    requires !Confirming(Moment(cfg, start, actions, k), id)
    ensures SameBase(Moment(cfg, start, actions, k), Moment(cfg, start, actions, j), id)
  {
    hide Settlement.Run, Initial, Settlement.Inv, Extends, Confirming;
    Onwards(cfg, start, actions, k, j);
    RunStaysQuiet(cfg, Moment(cfg, start, actions, k), id, actions[k..j]);
  }

  // ------------------------------------------------------------- every payment

  /**
   The trail of a payment. `l` is what the verification loaded at moment `k`, and `v` is the PASS it
   reached, deserved by what GitHub showed; `r` is what the evidence was made of at moment `j`, by
   which `v` was stored. Both are this bounty: its repository, branch, criteria, submission and
   developer, each with a GitHub name the paid wallet signed for.
   */
  ghost predicate Trail(cfg: Config, start: System, actions: seq<Action>, id: u64, k: nat, l: Record, j: nat, r: Record,
                        v: Verification)
  {
    var s := Settlement.Run(cfg, start, actions);
    && k <= j
    && RecordAt(cfg, start, actions, k, id, l) && RecordAt(cfg, start, actions, j, id, r)
    && id in s.db && Older(l, r) && Older(r, s.db[id])
    && Staffed(l.row) && l.submission.Some? && ParsePullRequestUrl(l.submission.value.url).Ok? && Deserved(cfg, l, v)
    && id in s.chain.bounties && Anchored(cfg, s.chain.bounties[id], id, r, v)
    && s.chain.bounties[id].developer.Some?
    && SignedFor(cfg, s.signed, id, s.chain.bounties[id].developer.value, l.row.developerGithub.value)
    && SignedFor(cfg, s.signed, id, s.chain.bounties[id].developer.value, r.row.developerGithub.value)
  }

  /** The transaction that paid a bounty, in a state that is reachable. */
  lemma PaidByRelease(cfg: Config, start: System, actions: seq<Action>, id: u64) returns (h: string)
    requires Initial(cfg, start)
    requires var s := Settlement.Run(cfg, start, actions); id in s.chain.bounties && s.chain.bounties[id].status == Paid
    ensures var s := Settlement.Run(cfg, start, actions);
            && h in s.txs && s.txs[h].id == id && id in s.db && Evidenced(cfg, s.txs[h])
            && s.chain.bounties[id].evidenceHash == Some(s.txs[h].evidenceHash)
  {
    hide Settlement.Run, EvidenceText;
    RunFromStart(cfg, start, actions);
    RunKeepsEvidence(cfg, start, actions);
    var s := Settlement.Run(cfg, start, actions);
    h := ReleaseOf(s.chain.bounties, s.txs, s.fate, id);
    assert TxOk(s, h);
  }

  /** What was loaded before a verdict and what was read after it, each with its moment. */
  lemma TrailOf(cfg: Config, start: System, actions: seq<Action>, id: u64, j: nat, r: Record, v: Verification)
    returns (k: nat, l: Record)
    requires Initial(cfg, start) && RecordAt(cfg, start, actions, j, id, r) && v in r.verifications
    ensures k <= j && RecordAt(cfg, start, actions, k, id, l) && IsVerdictFor(cfg, l, v) && Older(l, r)
  {
    hide Settlement.Run, Initial, IsVerdictFor, Settlement.Inv;
    k, l := WasJudged(cfg, start, actions[..j], id, v);
    EarlierMoment(cfg, start, actions, j, k, id, l);
    Onwards(cfg, start, actions, k, j);
  }

  lemma NamedIsStaffed(cfg: Config, s: System, id: u64)
    requires Settlement.Inv(cfg, s) && id in s.db
    requires s.db[id].row.developerGithub.Some? && s.db[id].row.baseSha.Some?
    ensures Staffed(s.db[id].row)
  {
    assert RecordOk(cfg, s, id, s.db[id]);
  }

  /** A record held at some moment, in what every later state can say of it. */
  lemma HeldThen(cfg: Config, start: System, actions: seq<Action>, k: nat, id: u64, r: Record)
    requires Initial(cfg, start) && RecordAt(cfg, start, actions, k, id, r)
    requires r.row.developerGithub.Some? && r.row.baseSha.Some?
    requires id in Settlement.Run(cfg, start, actions).chain.bounties
    ensures var s := Settlement.Run(cfg, start, actions);
            && Staffed(r.row) && id in s.db && Older(r, s.db[id])
            && s.chain.bounties[id].developer.Some?
            && SignedFor(cfg, s.signed, id, s.chain.bounties[id].developer.value, r.row.developerGithub.value)
  {
    hide Settlement.Run, Initial, Settlement.Inv, SignedFor;
    Onwards(cfg, start, actions, k, |actions|);
    assert actions[..|actions|] == actions;
    NamedIsStaffed(cfg, Moment(cfg, start, actions, k), id);
    NameIsSigned(cfg, Moment(cfg, start, actions, k), Settlement.Run(cfg, start, actions), id);
  }

  /**
   With requests overlapping freely, every payment is earned: whenever the contract has paid a
   bounty, there is such a trail. The base commit in the evidence is the one that was judged unless
   a funding confirmation was in flight when the verification loaded the row.
   */
  lemma PaymentsAreEarned(cfg: Config, start: System, actions: seq<Action>, id: u64)
    returns (k: nat, l: Record, j: nat, r: Record, v: Verification)
    requires Initial(cfg, start)
    requires var s := Settlement.Run(cfg, start, actions); id in s.chain.bounties && s.chain.bounties[id].status == Paid
    ensures Trail(cfg, start, actions, id, k, l, j, r, v)
    ensures !Confirming(Moment(cfg, start, actions, k), id) ==> l.row.baseSha == r.row.baseSha
  {
    hide Settlement.Run, Initial, EvidenceText, Deserved, SignedFor, Confirming, StructureValid;
    var h := PaidByRelease(cfg, start, actions, id);
    var s := Settlement.Run(cfg, start, actions);
    var tx := s.txs[h];
    j, r := WasSent(cfg, start, actions, h);
    v :| v in r.verifications && v.result == tx.result;
    k, l := TrailOf(cfg, start, actions, id, j, r, v);
    HeldThen(cfg, start, actions, k, id, l);
    HeldThen(cfg, start, actions, j, id, r);
    PassIsDeserved(cfg, l, v);
    if !Confirming(Moment(cfg, start, actions, k), id) {
      SameBaseOnwards(cfg, start, actions, k, j, id);
    }
  }

  /**
   What a payment was for: a pull request of the bounty's repository and branch, open and not a draft,
   with nothing protected touched and its three checks passed among the runs served, whose author is
   the GitHub name the paid wallet signed for.
   */
  ghost predicate SignersWork(cfg: Config, s: System, id: u64, v: Verification, github: string)
    requires id in s.db && id in s.chain.bounties && s.chain.bounties[id].developer.Some?
  {
    var row, seen := s.db[id].row, v.seen;
    && v in s.db[id].verifications && v.result.status == PASS
    && SignedFor(cfg, s.signed, id, s.chain.bounties[id].developer.value, github)
    && seen.author.Some? && CaseFold(cfg.fold, seen.author.value) == CaseFold(cfg.fold, github)
    && s.db[id].submission.Some? && ParsePullRequestUrl(s.db[id].submission.value.url).Ok?
    && var ref := ParsePullRequestUrl(s.db[id].submission.value.url).value;
    && CaseFold(cfg.fold, ref.owner) == CaseFold(cfg.fold, row.repoOwner)
    && CaseFold(cfg.fold, ref.repo) == CaseFold(cfg.fold, row.repoName)
    && seen.baseRef == row.baseBranch && seen.state == "open" && !seen.draft && Rules.NothingProtected(seen.files)
    && Rules.AllPassed(ServedRuns(seen), seen.headSha)
  }

  /** Every payment is for such work, and the contract anchors evidence with that very result. */
  lemma PaidForTheSignersWork(cfg: Config, start: System, actions: seq<Action>, id: u64)
    returns (v: Verification, github: string, facts: Facts)
    requires Initial(cfg, start)
    requires var s := Settlement.Run(cfg, start, actions); id in s.chain.bounties && s.chain.bounties[id].status == Paid
    ensures var s := Settlement.Run(cfg, start, actions);
            && id in s.db && s.chain.bounties[id].developer.Some? && SignersWork(cfg, s, id, v, github)
            && s.chain.bounties[id].evidenceHash == Some(cfg.sha(EvidenceText(facts, v.result)))
  {
    hide Settlement.Run, Initial, EvidenceText, SignedFor, Confirming, ParsePullRequestUrl, StructureValid, Succeeded,
      Rules.NothingProtected, Rules.AllPassed, CaseFold, Moment, RecordAt;
    var k, l, j, r;
    k, l, j, r, v := PaymentsAreEarned(cfg, start, actions, id);
    github, facts := l.row.developerGithub.value, FactsOf(id, r);
    var i := WholeInspection(ParsePullRequestUrl(l.submission.value.url).value, v.seen);
    Rules.RulesAlike(cfg.fold, i, ExpectedBy(l.row));
    Rules.ChecksAlike(ServedRuns(v.seen), v.seen.headSha);
  }

  // ------------------------------------------------------------- the run in which the base commits differ

  /** A verification commits a PASS over a row whose base commit was replaced since it was loaded. */
  lemma PassOver(cfg: Config, s: System, req: nat, id: u64, r: Record, seen: Snapshot) returns (v: Verification)
    requires req in s.inflight && s.inflight[req] == VerificationLoaded(id, r) && id in s.db
    requires Payment.Shows(cfg, r, seen) && HasFacts(s.db[id]) && r.verifications <= s.db[id].verifications
    ensures var t := DoCommitVerdict(cfg, s, req, seen);
            && IsVerdictFor(cfg, r, v) && v.result.status == PASS
            && t == s.(db := t.db, inflight := t.inflight)
            && req in t.inflight && t.inflight[req] == Passed(id, v.result)
            && id in t.db && t.db[id].verifications != [] && Last(t.db[id]) == v
            && t.db[id].row.baseSha == s.db[id].row.baseSha && HasFacts(t.db[id])
  {
    JudgeIsVerdict(cfg, r, seen);
    Payment.JudgedPasses(cfg, r, seen);
    hide Payment.Shows, Examine, IsVerdictFor, Verify;
    var want := Judge(cfg, r, Ok(seen)).value;
    v := Last(want);
    VerdictKeepsFacts(r, want, s.db[id]);
    hide Judge, HasFacts, Commit;
  }

  lemma PassOverRebased(cfg: Config, s: System, req: nat, id: u64, r: Record, seen: Snapshot) returns (v: Verification)
    requires req in s.inflight && s.inflight[req] == VerificationLoaded(id, r) && id in s.db
    requires Payment.Shows(cfg, r, seen) && HasFacts(s.db[id]) && r.verifications <= s.db[id].verifications
    ensures var t := Settlement.Step(cfg, s, CommitVerdict(req, seen));
            && IsVerdictFor(cfg, r, v) && v.result.status == PASS
            && t == s.(db := t.db, inflight := t.inflight)
            && req in t.inflight && t.inflight[req] == Passed(id, v.result)
            && id in t.db && t.db[id].verifications != [] && Last(t.db[id]) == v
            && t.db[id].row.baseSha == s.db[id].row.baseSha && HasFacts(t.db[id])
  {
    hide DoCommitVerdict, Payment.Shows, HasFacts, IsVerdictFor;
    v := PassOver(cfg, s, req, id, r, seen);
  }

  lemma VerdictKeepsFacts(loaded: Record, want: Record, current: Record)
    requires HasFacts(current) && loaded.submission.Some? && want.submission.Some?
    requires want.verifications != [] && want.verifications == loaded.verifications + [Last(want)]
    requires want.row == loaded.row.(pullRequestNumber := want.row.pullRequestNumber, status := want.row.status)
    ensures var r := Commit(loaded, want, current);
            && r.Some? && HasFacts(r.value) && r.value.row.baseSha == current.row.baseSha
            && r.value.verifications == current.verifications + [Last(want)]
  {
  }

  /** While one confirmation waits: everything up to the submission, and a verification that loads the row. */
  ghost function UpToLoading(cfg: Config, deal: Deal): seq<Action>
    requires Participants(cfg, deal) && Terms(deal)
  {
    NextIsTheSame(cfg, deal);
    AcceptedMeanwhile(cfg, deal) + SubmitSteps(Next(deal), FirstLook(cfg, Next(deal)))
    + [Begin(deal.first + 4, RunVerification(deal.id, deal.developer))]
  }

  /** Then the confirmation commits, and the verification goes on. */
  function RebasedSteps(late: nat, req: nat, seen: Snapshot, txHash: string, other: string): seq<Action> {
    [CommitFunding(late, other), CommitVerdict(req, seen), SendRelease(req, txHash), Include(txHash), CommitPaid(req)]
  }

  lemma LoadsMeanwhile(cfg: Config, s: System, deal: Deal)
    requires Settlement.Inv(cfg, s) && Feasible(cfg, s, deal)
    ensures Participants(cfg, Next(deal)) && Terms(Next(deal))
    ensures var t := Settlement.Run(cfg, s, UpToLoading(cfg, deal)); var r := SubmittedRecord(cfg, Next(deal));
            && Settlement.Inv(cfg, t) && deal.releaseTx !in t.txs
            && deal.id in t.db && t.db[deal.id] == r && Payment.Payable(t.chain, deal.id)
            && deal.first in t.inflight && deal.first + 4 in t.inflight
            && t.inflight[deal.first + 4] == VerificationLoaded(deal.id, r)
            && t.inflight[deal.first]
               == FundingSeen(deal.id, deal.fundTx, deal.client, NewRecord(cfg, deal), OpenBounty(cfg, deal))
  {
    hide Settlement.Run, Settlement.Inv, Terms, Participants, NewRecord, AssignedRecord, SubmittedRecord, OpenBounty,
      AcceptedMeanwhile, SubmitSteps, FirstLook, Payment.Shows, Green;
    NextIsTheSame(cfg, deal);
    var next := Next(deal);
    MeanwhileLeads(cfg, s, deal);
    var taken := Settlement.Run(cfg, s, AcceptedMeanwhile(cfg, deal));
    Submits(cfg, taken, next);
    var steps := SubmitSteps(next, FirstLook(cfg, next));
    var submitted := Settlement.Run(cfg, taken, steps);
    SubmitLeaves(cfg, taken, next, FirstLook(cfg, next), deal.first);
    GreenIsShown(cfg, next);
    var begin := Begin(deal.first + 4, RunVerification(deal.id, deal.developer));
    Payment.BeginsOther(cfg, submitted, deal.first + 4, deal.id, deal.developer);
    Payment.RunConcat(cfg, s, AcceptedMeanwhile(cfg, deal), steps);
    Payment.RunConcat(cfg, s, AcceptedMeanwhile(cfg, deal) + steps, [begin]);
    Finality.RunAction(cfg, submitted, begin);
    RunKeeps(cfg, s, UpToLoading(cfg, deal));
  }

  lemma SubmitLeaves(cfg: Config, s: System, deal: Deal, first: Snapshot, req: nat)
    requires req < deal.first
    ensures Payment.SameRequest(s, Settlement.Run(cfg, s, SubmitSteps(deal, first)), req)
  {
    hide Settlement.Run;
    Payment.RunLeaves(cfg, s, SubmitSteps(deal, first), req);
  }

  lemma SubmittedHasFacts(cfg: Config, deal: Deal)
    requires Participants(cfg, deal) && Terms(deal)
    ensures HasFacts(SubmittedRecord(cfg, deal))
    ensures SubmittedRecord(cfg, deal).row.baseSha == Some(deal.baseSha)
  {
    hide CanonicalUrl, IsName, AssignmentSchema;
    CreatedRowsCanBeFunded(cfg, deal.id, deal.client, deal.form, deal.client, 0);
  }

  lemma FactsSurvive(r: Record, later: Record)
    requires HasFacts(r) && Older(r, later)
    ensures HasFacts(later)
  {
  }

  /** A confirmation and a verification that have both loaded the row. */
  ghost predicate BothLoaded(cfg: Config, s: System, id: u64, late: nat, req: nat) {
    && Settlement.Inv(cfg, s) && id in s.db && HasFacts(s.db[id]) && late != req
    && late in s.inflight && s.inflight[late].FundingSeen? && s.inflight[late].id == id
    && req in s.inflight && s.inflight[req] == VerificationLoaded(id, s.db[id])
  }

  /** The confirmation commits under the verification. */
  lemma Rebases(cfg: Config, s: System, id: u64, late: nat, req: nat, other: string)
    requires BothLoaded(cfg, s, id, late, req) && s.inflight[late].loaded.row.baseSha != Some(other)
    ensures var t := Settlement.Step(cfg, s, CommitFunding(late, other));
            && Settlement.Inv(cfg, t) && t == s.(db := t.db, inflight := t.inflight)
            && req in t.inflight && t.inflight[req] == s.inflight[req]
            && id in t.db && t.db[id].row.baseSha == Some(other) && HasFacts(t.db[id])
            && s.db[id].verifications <= t.db[id].verifications
  {
    hide Settlement.Inv, HasFacts, Commit;
    var a := CommitFunding(late, other);
    LateConfirmation(cfg, s, id, late, other);
    Settlement.StepKeeps(cfg, s, a);
    Payment.StepLeaves(cfg, s, a, req);
    FactsSurvive(s.db[id], Settlement.Step(cfg, s, a).db[id]);
  }

  /** Then the verification commits the PASS it judged before. */
  lemma RebasedPasses(cfg: Config, s: System, id: u64, late: nat, req: nat, seen: Snapshot, other: string)
    returns (v: Verification)
    requires BothLoaded(cfg, s, id, late, req) && s.inflight[late].loaded.row.baseSha != Some(other)
    requires Payment.Shows(cfg, s.db[id], seen)
    ensures var t := Settlement.Step(cfg, s, CommitFunding(late, other));
            var u := Settlement.Step(cfg, t, CommitVerdict(req, seen));
            && IsVerdictFor(cfg, s.db[id], v) && v.result.status == PASS
            && u == s.(db := u.db, inflight := u.inflight)
            && req in u.inflight && u.inflight[req] == Passed(id, v.result)
            && id in u.db && u.db[id].verifications != [] && Last(u.db[id]) == v
            && u.db[id].row.baseSha == Some(other) && HasFacts(u.db[id])
  {
    Rebases(cfg, s, id, late, req, other);
    hide Settlement.Inv, Settlement.Step, HasFacts, IsVerdictFor, Payment.Shows;
    var t := Settlement.Step(cfg, s, CommitFunding(late, other));
    v := PassOverRebased(cfg, t, req, id, s.db[id], seen);
  }

  lemma UnusedHasNoFate(cfg: Config, s: System, h: string)
    requires Settlement.Inv(cfg, s) && h !in s.txs
    ensures h !in s.fate && Escrow.Inv(cfg.deployment, s.chain)
  {
  }

  lemma RebasedRun(cfg: Config, s: System, late: nat, req: nat, seen: Snapshot, txHash: string, other: string)
    ensures var t := Settlement.Step(cfg, s, CommitFunding(late, other));
            Settlement.Run(cfg, s, RebasedSteps(late, req, seen, txHash, other))
            == Alone.PayoutRun(cfg, Settlement.Step(cfg, t, CommitVerdict(req, seen)), req, txHash)
  {
    hide Settlement.Run, Settlement.Step;
    var steps := RebasedSteps(late, req, seen, txHash, other);
    Alone.RunPair(cfg, s, steps[0], steps[1]);
    var u := Settlement.Run(cfg, s, [steps[0], steps[1]]);
    Alone.RunTriple(cfg, u, steps[2], steps[3], steps[4]);
    Payment.RunConcat(cfg, s, [steps[0], steps[1]], [steps[2], steps[3], steps[4]]);
    assert steps == [steps[0], steps[1]] + [steps[2], steps[3], steps[4]];
  }

  /** Paid on a verdict for the base commit that was loaded, with evidence that names another one. */
  ghost predicate PaidOnAnotherBase(cfg: Config, r: Record, chain: State, id: u64, v: Verification, facts: Facts)
  {
    && IsVerdictFor(cfg, r, v) && v.result.status == PASS
    && id in chain.bounties && chain.bounties[id].status == Paid
    && chain.bounties[id].evidenceHash == Some(cfg.sha(EvidenceText(facts, v.result)))
    && facts.bountyId == id && Some(facts.baseSha) != r.row.baseSha
  }

  /** Whenever both have loaded the row and the verification would pay, the evidence may name another base commit. */
  lemma RebasedIsAnchored(cfg: Config, s: System, id: u64, late: nat, req: nat, seen: Snapshot, txHash: string,
                          other: string)
    returns (v: Verification, facts: Facts)
    requires BothLoaded(cfg, s, id, late, req) && s.inflight[late].loaded.row.baseSha != Some(other)
    requires Payment.Shows(cfg, s.db[id], seen) && Payment.Payable(s.chain, id) && txHash !in s.txs
    requires s.db[id].row.baseSha != Some(other)
    ensures PaidOnAnotherBase(cfg, s.db[id], Settlement.Run(cfg, s, RebasedSteps(late, req, seen, txHash, other)).chain,
                              id, v, facts)
    ensures facts.baseSha == other
  {
    hide Settlement.Run, Settlement.Step, Settlement.Inv, EvidenceText, HasFacts, IsVerdictFor, Payment.Shows, Moved,
      RebasedSteps, Alone.PayoutRun;
    v := RebasedPasses(cfg, s, id, late, req, seen, other);
    var t := Settlement.Step(cfg, s, CommitFunding(late, other));
    var u := Settlement.Step(cfg, t, CommitVerdict(req, seen));
    UnusedHasNoFate(cfg, s, txHash);
    Payment.PayoutPays(cfg, u, req, id, v, txHash);
    facts := FactsOf(id, u.db[id]);
    RebasedRun(cfg, s, late, req, seen, txHash, other);
  }

  lemma LoadsBoth(cfg: Config, s: System, deal: Deal)
    requires Settlement.Inv(cfg, s) && Feasible(cfg, s, deal)
    ensures Participants(cfg, Next(deal)) && Terms(Next(deal))
    ensures var t := Settlement.Run(cfg, s, UpToLoading(cfg, deal)); var r := SubmittedRecord(cfg, Next(deal));
            && BothLoaded(cfg, t, deal.id, deal.first, deal.first + 4) && t.db[deal.id] == r
            && t.inflight[deal.first].loaded.row.baseSha.None? && r.row.baseSha == Some(deal.baseSha)
            && Payment.Shows(cfg, r, Green(r.row)) && Payment.Payable(t.chain, deal.id) && deal.releaseTx !in t.txs
  {
    LoadsMeanwhile(cfg, s, deal);
    SubmittedHasFacts(cfg, Next(deal));
    GreenIsShown(cfg, Next(deal));
    hide Settlement.Run, Settlement.Inv, Terms, Participants, UpToLoading, SubmittedRecord, OpenBounty, Green, HasFacts,
      Payment.Shows, Payment.Payable;
  }

  /**
   From every reachable state and for every feasible new task: a run in which the verification
   judges the pull request against the base commit it loaded, a funding confirmation that waited
   replaces that commit on the row, and the evidence anchored for the payment names the new one.
   */
  lemma AnotherBaseIsAnchored(cfg: Config, start: System, before: seq<Action>, deal: Deal, other: string)
    returns (seen: Snapshot, v: Verification, facts: Facts)
    requires Initial(cfg, start) && Feasible(cfg, Settlement.Run(cfg, start, before), deal) && other != deal.baseSha
    ensures var s := Settlement.Run(cfg, Settlement.Run(cfg, start, before), UpToLoading(cfg, deal));
            var t := Settlement.Run(cfg, s, RebasedSteps(deal.first, deal.first + 4, seen, deal.releaseTx, other));
            && deal.id in s.db && s.db[deal.id].row.baseSha == Some(deal.baseSha)
            && PaidOnAnotherBase(cfg, s.db[deal.id], t.chain, deal.id, v, facts) && facts.baseSha == other
  {
    hide Settlement.Run, Settlement.Inv, Terms, Participants, UpToLoading, Initial, SubmittedRecord, Payment.Shows,
      PaidOnAnotherBase, RebasedSteps, HasFacts, Payment.Payable;
    RunFromStart(cfg, start, before);
    LoadsBoth(cfg, Settlement.Run(cfg, start, before), deal);
    var s := Settlement.Run(cfg, Settlement.Run(cfg, start, before), UpToLoading(cfg, deal));
    seen := Green(s.db[deal.id].row);
    v, facts := RebasedIsAnchored(cfg, s, deal.id, deal.first, deal.first + 4, seen, deal.releaseTx, other);
  }
}
