/**
 A service that nothing interrupts is a run of the system: the steps the interleaved
 model is made of, taken one after the other, leave in the database exactly what the
 service does, and hand the network exactly the evidence it sends.
 */
module Alone {
  import opened Wrappers
  import opened Escrow
  import opened Verifier
  import opened GitHubClient
  import opened Commitments
  import opened Records
  import opened Settlement
  import opened StellarClient
  import opened Services

  /** What reading the contract through the backend's client gives. */
  function ReadOf(chain: State, id: u64): StellarRead {
    if id in chain.bounties then Read(chain.bounties[id]) else ReadFailed
  }

  /** The system with one record replaced, requests in flight aside. */
  predicate OnlyRecord(s: System, t: System, id: u64, r: Record) {
    t.db == s.db[id := r] && t.chain == s.chain && t.txs == s.txs && t.fate == s.fate && t.signed == s.signed
  }

  lemma RunPair(cfg: Config, s: System, a: Action, b: Action)
    ensures Settlement.Run(cfg, s, [a, b]) == Settlement.Step(cfg, Settlement.Step(cfg, s, a), b)
  {
    hide Settlement.Step;
    var t := Settlement.Step(cfg, s, a);
    assert [a, b][1..] == [b] && [b][1..] == [];
    assert Settlement.Run(cfg, t, [b]) == Settlement.Run(cfg, Settlement.Step(cfg, t, b), []);
  }

  lemma RunTriple(cfg: Config, s: System, a: Action, b: Action, c: Action)
    ensures Settlement.Run(cfg, s, [a, b, c])
         == Settlement.Step(cfg, Settlement.Step(cfg, Settlement.Step(cfg, s, a), b), c)
  {
    hide Settlement.Step;
    assert [a, b, c][1..] == [b, c];
    RunPair(cfg, Settlement.Step(cfg, s, a), b, c);
  }

  lemma FinishAlone(s: System, req: nat, id: u64, loaded: Record, want: Record)
    requires id in s.db && s.db[id] == loaded && loaded.verifications <= want.verifications
    requires loaded.submission.Some? ==> want.submission.Some?
    ensures Finish(s, req, id, loaded, want) == s.(db := s.db[id := want], inflight := s.inflight - {req})
  {
    CommitUndisturbed(loaded, want);
  }

  /** One funding confirmation, start to finish. */
  ghost function FundingRun(cfg: Config, s: System, req: nat, id: u64, txHash: string, wallet: Address,
                            baseSha: string): System
  {
    Settlement.Run(cfg, s,
                   [Begin(req, ConfirmFunding(id, wallet, txHash)), ReadChain(req), CommitFunding(req, baseSha)])
  }

  /** Its three steps, each by its own function. */
  function FundingSteps(cfg: Config, s: System, req: nat, id: u64, txHash: string, wallet: Address,
                        baseSha: string): System
  {
    DoCommitFunding(DoReadChain(cfg, DoBegin(cfg, s, req, ConfirmFunding(id, wallet, txHash)), req), req, baseSha)
  }

  /** The request is admitted and what it reads passes. */
  predicate FundingPasses(s: System, id: u64, txHash: string, wallet: Address)
    requires id in s.db
  {
    AdmitFunding(s.db[id].row, txHash, wallet).Proceed? && id in s.chain.bounties
    && CheckFunding(s.chain.bounties[id], s.db[id].row, wallet).None?
  }

  lemma FundingProceeds(cfg: Config, s: System, req: nat, id: u64, txHash: string, wallet: Address, baseSha: string)
    requires id in s.db && req !in s.inflight && FundingPasses(s, id, txHash, wallet)
    ensures OnlyRecord(s, FundingSteps(cfg, s, req, id, txHash, wallet, baseSha), id,
                       Funded(s.db[id], s.chain.bounties[id], txHash, baseSha))
  {
    hide AdmitFunding, CheckFunding, Funded, Finish;
    var r, b := s.db[id], s.chain.bounties[id];
    var t := s.(inflight := s.inflight[req := FundingSeen(id, txHash, wallet, r, b)]);
    assert DoReadChain(cfg, DoBegin(cfg, s, req, ConfirmFunding(id, wallet, txHash)), req) == t;
    FundedKeepsHistory(r, b, txHash, baseSha);
    FinishAlone(t, req, id, r, Funded(r, b, txHash, baseSha));
  }

  lemma FundedKeepsHistory(r: Record, b: Bounty, txHash: string, baseSha: string)
    ensures var want := Funded(r, b, txHash, baseSha);
            want.verifications == r.verifications && want.submission == r.submission
  {
  }

  lemma FundingStops(cfg: Config, s: System, req: nat, id: u64, txHash: string, wallet: Address, baseSha: string)
    requires id in s.db && req !in s.inflight && !FundingPasses(s, id, txHash, wallet)
    ensures OnlyRecord(s, FundingSteps(cfg, s, req, id, txHash, wallet, baseSha), id, s.db[id])
  {
    hide AdmitFunding, CheckFunding, Finish;
    var t := DoBegin(cfg, s, req, ConfirmFunding(id, wallet, txHash));
    assert DoReadChain(cfg, t, req) == t && DoCommitFunding(t, req, baseSha) == t;
    assert s.db[id := s.db[id]] == s.db;
  }

  lemma FundingAlone(cfg: Config, s: System, req: nat, id: u64, txHash: string, wallet: Address, baseSha: string)
    requires id in s.db && req !in s.inflight
    ensures OnlyRecord(s, FundingRun(cfg, s, req, id, txHash, wallet, baseSha), id,
                       ServeFunding(s.db[id], txHash, wallet, ReadOf(s.chain, id), Ok(baseSha), true).record)
  {
    hide Settlement.Run, AdmitFunding, CheckFunding, DoBegin, DoReadChain, DoCommitFunding, OnlyRecord;
    RunTriple(cfg, s, Begin(req, ConfirmFunding(id, wallet, txHash)), ReadChain(req), CommitFunding(req, baseSha));
    if FundingPasses(s, id, txHash, wallet) {
      FundingProceeds(cfg, s, req, id, txHash, wallet, baseSha);
    } else {
      FundingStops(cfg, s, req, id, txHash, wallet, baseSha);
    }
  }

  ghost function AssignmentRun(cfg: Config, s: System, req: nat, id: u64, txHash: string, wallet: Address,
                               github: string): System
  {
    Settlement.Run(cfg, s,
                   [Begin(req, ConfirmAssignment(id, wallet, txHash, github)), ReadChain(req), CommitAssignment(req)])
  }

  function AssignmentSteps(cfg: Config, s: System, req: nat, id: u64, txHash: string, wallet: Address,
                           github: string): System
  {
    DoCommitAssignment(DoReadChain(cfg, DoBegin(cfg, s, req, ConfirmAssignment(id, wallet, txHash, github)), req), req)
  }

  predicate AssignmentPasses(cfg: Config, s: System, id: u64, txHash: string, wallet: Address, github: string)
    requires id in s.db
  {
    AdmitAssignment(cfg, s.db[id].row, github, wallet).Proceed? && id in s.chain.bounties
    && CheckAssignment(cfg, s.signed, s.chain.bounties[id], s.db[id].row, id, txHash, github, wallet).None?
  }

  lemma AssignmentProceeds(cfg: Config, s: System, req: nat, id: u64, txHash: string, wallet: Address, github: string)
    requires id in s.db && req !in s.inflight && AssignmentSchema(txHash, github)
    requires AssignmentPasses(cfg, s, id, txHash, wallet, github)
    ensures OnlyRecord(s, AssignmentSteps(cfg, s, req, id, txHash, wallet, github), id,
                       Accepted(s.db[id], s.chain.bounties[id], github))
  {
    hide AdmitAssignment, CheckAssignment, AssignmentSchema, Finish;
    var r, b := s.db[id], s.chain.bounties[id];
    var t := s.(inflight := s.inflight[req := AssignmentSeen(id, txHash, wallet, github, r, b)]);
    assert DoReadChain(cfg, DoBegin(cfg, s, req, ConfirmAssignment(id, wallet, txHash, github)), req) == t;
    FinishAlone(t, req, id, r, Accepted(r, b, github));
  }

  lemma AssignmentStops(cfg: Config, s: System, req: nat, id: u64, txHash: string, wallet: Address, github: string)
    requires id in s.db && req !in s.inflight && !AssignmentPasses(cfg, s, id, txHash, wallet, github)
    ensures OnlyRecord(s, AssignmentSteps(cfg, s, req, id, txHash, wallet, github), id, s.db[id])
  {
    hide AdmitAssignment, CheckAssignment, AssignmentSchema, Finish;
    var t := DoBegin(cfg, s, req, ConfirmAssignment(id, wallet, txHash, github));
    assert DoReadChain(cfg, t, req) == t && DoCommitAssignment(t, req) == t;
    assert s.db[id := s.db[id]] == s.db;
  }

  lemma AssignmentAlone(cfg: Config, s: System, req: nat, id: u64, txHash: string, wallet: Address, github: string)
    requires id in s.db && req !in s.inflight && AssignmentSchema(txHash, github)
    ensures OnlyRecord(s, AssignmentRun(cfg, s, req, id, txHash, wallet, github), id,
                       ServeAssignment(cfg, s.signed, id, s.db[id], txHash, github, wallet, ReadOf(s.chain, id),
                                       true).record)
  {
    hide Settlement.Run, AdmitAssignment, CheckAssignment, AssignmentSchema, DoBegin, DoReadChain, DoCommitAssignment,
      OnlyRecord;
    RunTriple(cfg, s, Begin(req, ConfirmAssignment(id, wallet, txHash, github)), ReadChain(req), CommitAssignment(req));
    if AssignmentPasses(cfg, s, id, txHash, wallet, github) {
      AssignmentProceeds(cfg, s, req, id, txHash, wallet, github);
    } else {
      AssignmentStops(cfg, s, req, id, txHash, wallet, github);
    }
  }

  ghost function SubmissionRun(cfg: Config, s: System, req: nat, id: u64, url: string, wallet: Address,
                               seen: Snapshot): System
  {
    Settlement.Run(cfg, s, [Begin(req, RegisterSubmission(id, wallet, url)), CommitSubmission(req, seen)])
  }

  lemma SubmissionAlone(cfg: Config, s: System, req: nat, id: u64, url: string, wallet: Address, seen: Snapshot)
    requires id in s.db && req !in s.inflight
    ensures OnlyRecord(s, SubmissionRun(cfg, s, req, id, url, wallet, seen), id,
                       ServeSubmission(cfg, s.db[id], url, wallet, Ok(seen), true).record)
  {
    hide Settlement.Run, Examine;
    var r := s.db[id];
    RunPair(cfg, s, Begin(req, RegisterSubmission(id, wallet, url)), CommitSubmission(req, seen));
    assert s.db[id := r] == s.db;
    if AdmitSubmission(r, wallet).Proceed? && Submit(cfg, r, url, Ok(seen)).Ok? {
      var t := s.(inflight := s.inflight[req := SubmissionLoaded(id, url, r)]);
      assert DoBegin(cfg, s, req, RegisterSubmission(id, wallet, url)) == t;
      FinishAlone(t, req, id, r, Submit(cfg, r, url, Ok(seen)).value);
    }
  }

  // ------------------------------------------------------------- verification

  /** The steps of a verification: its verdict, then a payout that the ledger executes if it is sent. */
  function VerificationSteps(req: nat, id: u64, wallet: Address, seen: Snapshot, txHash: string): seq<Action> {
    [Begin(req, RunVerification(id, wallet)), CommitVerdict(req, seen), SendRelease(req, txHash), Include(txHash),
     CommitPaid(req)]
  }

  /** A verification up to commit #1. */
  ghost function JudgedRun(cfg: Config, s: System, req: nat, id: u64, wallet: Address, seen: Snapshot): System {
    Settlement.Step(cfg, Settlement.Step(cfg, s, Begin(req, RunVerification(id, wallet))), CommitVerdict(req, seen))
  }

  /** Commit #1 alone. */
  lemma VerdictAlone(cfg: Config, s: System, req: nat, id: u64, wallet: Address, seen: Snapshot)
    requires id in s.db && req !in s.inflight && AdmitVerification(s.db[id], wallet).Proceed?
    ensures var judged := ServeVerdict(cfg, s.db[id], Ok(seen), true);
            var t := JudgedRun(cfg, s, req, id, wallet, seen);
            match judged.answer
            case Err(_) => t == s.(inflight := s.inflight[req := VerificationLoaded(id, s.db[id])])
            case Ok(v) =>
              OnlyRecord(s, t, id, judged.record)
              && judged.record.verifications != [] && Last(judged.record) == v
              && (if v.result.status == PASS then req in t.inflight && t.inflight[req] == Passed(id, v.result)
                  else req !in t.inflight)
  {
    hide Settlement.Run, Examine;
    var r := s.db[id];
    var t := s.(inflight := s.inflight[req := VerificationLoaded(id, r)]);
    assert DoBegin(cfg, s, req, RunVerification(id, wallet)) == t;
    if Judge(cfg, r, Ok(seen)).Ok? {
      FinishAlone(t, req, id, r, Judge(cfg, r, Ok(seen)).value);
    }
  }

  /** What the network says of a release it was handed: it succeeded, or nothing that says so. */
  function ReplyOf(t: System, txHash: string): ReleaseReply {
    if txHash in t.fate && t.fate[txHash] then ReleaseSucceeded(txHash) else ReleaseErrored
  }

  ghost function PayoutRun(cfg: Config, s: System, req: nat, txHash: string): System {
    var sent := Settlement.Step(cfg, Settlement.Step(cfg, s, SendRelease(req, txHash)), Include(txHash));
    Settlement.Step(cfg, sent, CommitPaid(req))
  }

  /** Nothing is sent: the steps of the payout find nothing to do. */
  lemma NothingSent(cfg: Config, s: System, req: nat, txHash: string)
    requires req in s.inflight ==> !s.inflight[req].Releasing? && (s.inflight[req].Passed? ==>
               s.inflight[req].id in s.db && !HasFacts(s.db[s.inflight[req].id]))
    requires txHash !in s.txs
    ensures PayoutRun(cfg, s, req, txHash) == s
  {
    hide HasFacts, EvidenceText, Release, BuildRelease, Finish;
    assert DoSendRelease(cfg, s, req, txHash) == s;
    assert DoInclude(cfg, s, txHash) == s;
  }

  /** The payout up to the ledger's verdict on it. */
  lemma Sent(cfg: Config, s: System, req: nat, id: u64, result: VerificationResult, txHash: string)
    requires id in s.db && req in s.inflight && s.inflight[req] == Passed(id, result) && HasFacts(s.db[id])
    requires txHash !in s.txs && txHash !in s.fate
    ensures var t := Settlement.Step(cfg, Settlement.Step(cfg, s, SendRelease(req, txHash)), Include(txHash));
            var r := Release(cfg.deployment, s.chain, {cfg.deployment.verifier}, id,
                             BuildRelease(cfg, id, s.db[id], result).evidenceHash);
            && t == s.(chain := r.state, fate := s.fate[txHash := r.outcome == Done],
                       txs := s.txs[txHash := BuildRelease(cfg, id, s.db[id], result)],
                       inflight := s.inflight[req := Releasing(id, s.db[id], txHash)])
  {
    hide HasFacts, EvidenceText, Release;
    var t := s.(txs := s.txs[txHash := BuildRelease(cfg, id, s.db[id], result)],
                inflight := s.inflight[req := Releasing(id, s.db[id], txHash)]);
    assert DoSendRelease(cfg, s, req, txHash) == t;
  }

  /** The payout alone, once there is evidence to send. */
  lemma PayoutAlone(cfg: Config, s: System, req: nat, id: u64, v: Verification, txHash: string)
    requires id in s.db && req in s.inflight && s.inflight[req] == Passed(id, v.result)
    requires s.db[id].verifications != [] && Last(s.db[id]) == v && HasFacts(s.db[id])
    requires txHash !in s.txs && txHash !in s.fate
    ensures var t := PayoutRun(cfg, s, req, txHash);
            && t.db == s.db[id := ServePayout(s.db[id], ReplyOf(t, txHash), true).record]
            && t.txs == s.txs[txHash := BuildRelease(cfg, id, s.db[id], v.result)]
  {
    hide HasFacts, BuildRelease, DoSendRelease, DoInclude;
    Sent(cfg, s, req, id, v.result, txHash);
    var r := s.db[id];
    var t := Settlement.Step(cfg, Settlement.Step(cfg, s, SendRelease(req, txHash)), Include(txHash));
    if txHash in t.fate && t.fate[txHash] {
      FinishAlone(t, req, id, r, PaidBy(r, txHash));
    } else {
      assert DoCommitPaid(t, req) == t;
      assert s.db[id := r] == s.db;
    }
  }

  lemma RunVerificationSteps(cfg: Config, s: System, req: nat, id: u64, wallet: Address, seen: Snapshot, txHash: string)
    ensures Settlement.Run(cfg, s, VerificationSteps(req, id, wallet, seen, txHash))
         == PayoutRun(cfg, JudgedRun(cfg, s, req, id, wallet, seen), req, txHash)
  {
    hide Settlement.Step;
    var steps := VerificationSteps(req, id, wallet, seen, txHash);
    var t := Settlement.Step(cfg, s, steps[0]);
    var u := Settlement.Step(cfg, t, steps[1]);
    assert steps[1..][1..] == [steps[2], steps[3], steps[4]];
    RunTriple(cfg, u, steps[2], steps[3], steps[4]);
    assert Settlement.Run(cfg, t, steps[1..]) == Settlement.Run(cfg, u, steps[1..][1..]);
  }

  ghost function VerificationRun(cfg: Config, s: System, req: nat, id: u64, wallet: Address, seen: Snapshot,
                                 txHash: string): System
  {
    Settlement.Run(cfg, s, VerificationSteps(req, id, wallet, seen, txHash))
  }

  lemma NotAdmitted(cfg: Config, s: System, req: nat, id: u64, wallet: Address, seen: Snapshot)
    requires id in s.db && req !in s.inflight && !AdmitVerification(s.db[id], wallet).Proceed?
    ensures JudgedRun(cfg, s, req, id, wallet, seen) == s
  {
    hide AdmitVerification;
    assert DoBegin(cfg, s, req, RunVerification(id, wallet)) == s;
  }

  /** What the network holds after a verification: the release the service sends, if it sends one. */
  ghost predicate Handed(cfg: Config, s: System, t: System, id: u64, sent: Option<(Facts, VerificationResult)>,
                         txHash: string)
  {
    match sent
    case None => t.txs == s.txs
    case Some(e) =>
      && txHash in t.txs && t.txs == s.txs[txHash := t.txs[txHash]]
      && t.txs[txHash].id == id && t.txs[txHash].facts == e.0 && t.txs[txHash].result == e.1
      && Evidenced(cfg, t.txs[txHash])
  }

  /**
   An uninterrupted verification is those five steps: the record ends as the service leaves
   it given what the ledger did, and a release is handed over exactly when, and with
   exactly the evidence that, the service sends.
   */
  lemma VerificationAlone(cfg: Config, s: System, req: nat, id: u64, wallet: Address, seen: Snapshot, txHash: string)
    requires id in s.db && req !in s.inflight && txHash !in s.txs && txHash !in s.fate
    ensures var t := VerificationRun(cfg, s, req, id, wallet, seen, txHash);
            var reply := ReplyOf(t, txHash);
            && t.db == s.db[id := ServeVerification(cfg, s.db[id], wallet, Ok(seen), true, reply, true).record]
            && Handed(cfg, s, t, id, EvidenceSent(cfg, id, s.db[id], wallet, Ok(seen), true, reply), txHash)
  {
    hide Settlement.Run, Settlement.Step, PayoutRun, Judge, HasFacts, EvidenceText, ServePayout;
    RunVerificationSteps(cfg, s, req, id, wallet, seen, txHash);
    assert s.db[id := s.db[id]] == s.db;
    var u := JudgedRun(cfg, s, req, id, wallet, seen);
    if !AdmitVerification(s.db[id], wallet).Proceed? {
      NotAdmitted(cfg, s, req, id, wallet, seen);
      NothingSent(cfg, s, req, txHash);
    } else {
      VerdictAlone(cfg, s, req, id, wallet, seen);
      var judged := ServeVerdict(cfg, s.db[id], Ok(seen), true);
      if judged.answer.Err? || judged.answer.value.result.status != PASS {
        NothingSent(cfg, u, req, txHash);
      } else if !HasFacts(judged.record) {
        NothingSent(cfg, u, req, txHash);
        NothingPaid(judged.record, ReplyOf(u, txHash));
      } else {
        PayoutAlone(cfg, u, req, id, judged.answer.value, txHash);
      }
    }
  }

  lemma NothingPaid(r: Record, reply: ReleaseReply)
    requires r.verifications != [] && !HasFacts(r)
    ensures ServePayout(r, reply, true).record == r
  {
  }
}
