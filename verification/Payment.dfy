/**
 When a verification pays: the exact condition for one that nothing interrupts, how a request
 that is still in flight takes PAID back, and an honest run from a new task to its payment.
 */
module Payment {
  import opened Wrappers
  import opened Text
  import opened HexCodec
  import opened Escrow
  import opened Verifier
  import opened GitHubClient
  import opened Commitments
  import opened Records
  import opened Settlement
  import opened StellarClient
  import opened Services
  import opened Alone
  import opened Overlap
  import opened Finality

  // ------------------------------------------------------------- the exact condition

  /** The contract would execute a release of this bounty now. */
  predicate Payable(chain: State, id: u64) {
    && id in chain.bounties
    && chain.bounties[id].status == Assigned
    && chain.now <= chain.bounties[id].deadline
  }

  /** GitHub shows the agreed pull request, in order, with every required check green. */
  ghost predicate Shows(cfg: Config, r: Record, seen: Snapshot) {
    && r.submission.Some? && r.row.baseSha.Some? && r.row.developerGithub.Some?
    && var url := r.submission.value.url;
    && Inspect(url, seen).Ok?
    && ListCheckRuns(seen).Ok?
    && StructureValid(cfg.fold, Inspect(url, seen).value, ExpectedBy(r.row))
    && forall name :: name in REQUIRED_CHECKS ==> Succeeded(name, ListCheckRuns(seen).value, seen.headSha)
  }

  /** The whole reward went from the escrow to the developer, and the evidence is anchored. */
  ghost predicate PaidOut(d: Deployment, s: State, t: State, id: u64, evidenceHash: Bytes32) {
    && id in s.bounties && s.bounties[id].developer.Some?
    && OnlyBounty(s, t, id)
    && Moved(s, t, d.self, s.bounties[id].developer.value, s.bounties[id].amount)
    && t.bounties[id] == s.bounties[id].(evidenceHash := Some(evidenceHash), status := Paid)
  }

  /** Commit #1 writes a PASS exactly when GitHub shows one, and never PAID. */
  lemma JudgedPasses(cfg: Config, r: Record, seen: Snapshot)
    requires r.submission.Some? && r.row.baseSha.Some? && r.row.developerGithub.Some?
    ensures var judged := ServeVerdict(cfg, r, Ok(seen), true);
            && (judged.answer.Ok? && judged.answer.value.result.status == PASS <==> Shows(cfg, r, seen))
            && (judged.answer.Ok? ==> judged.record.row.status != PAID)
  {
    hide Verify, ParsePullRequestUrl, StructureValid, Succeeded;
    var url := r.submission.value.url;
    if Inspect(url, seen).Ok? && ListCheckRuns(seen).Ok? {
      VerdictMeaning(cfg.fold, Inspect(url, seen).value, ListCheckRuns(seen).value, ExpectedBy(r.row));
    }
  }

  /** The evidence of a verification can always be computed: the row's criteria hash is the contract's. */
  lemma JudgedHasFacts(cfg: Config, s: System, id: u64, wallet: Address, seen: Snapshot)
    requires id in s.db && RecordOk(cfg, s, id, s.db[id]) && AdmitVerification(s.db[id], wallet).Proceed?
    requires ServeVerdict(cfg, s.db[id], Ok(seen), true).answer.Ok?
    ensures HasFacts(ServeVerdict(cfg, s.db[id], Ok(seen), true).record)
  {
    hide Examine;
    var row := s.db[id].row;
    var onChain := s.chain.bounties[id].criteriaHash;
    BytesOfHexOf(onChain);
    assert HexOf(onChain) == Lower(row.criteriaHash.value);
    LoweredHash(row.criteriaHash.value);
  }

  lemma LoweredHash(s: string)
    requires IsHash(Lower(s))
    ensures IsHash(s)
  {
    forall c | c in s ensures IsHexDigit(c) {
      var k :| 0 <= k < |s| && s[k] == c;
      assert Lower(s)[k] in Lower(s);
    }
  }

  /** The payout of a PASS is executed and recorded exactly when the contract pays. */
  lemma PayoutPays(cfg: Config, s: System, req: nat, id: u64, v: Verification, txHash: string)
    requires id in s.db && req in s.inflight && s.inflight[req] == Passed(id, v.result)
    requires s.db[id].verifications != [] && Last(s.db[id]) == v && HasFacts(s.db[id])
    requires txHash !in s.txs && txHash !in s.fate && Escrow.Inv(cfg.deployment, s.chain)
    ensures var t := PayoutRun(cfg, s, req, txHash);
            if Payable(s.chain, id) then
              t.db == s.db[id := PaidBy(s.db[id], txHash)]
              && PaidOut(cfg.deployment, s.chain, t.chain, id, cfg.sha(EvidenceText(FactsOf(id, s.db[id]), v.result)))
            else t.db == s.db && t.chain == s.chain
  {
    hide HasFacts, EvidenceText, Release, DoSendRelease, DoInclude, Escrow.Inv, OnlyBounty, Moved;
    Sent(cfg, s, req, id, v.result, txHash);
    var r := s.db[id];
    var t := Settlement.Step(cfg, Settlement.Step(cfg, s, SendRelease(req, txHash)), Include(txHash));
    ReleaseExactly(cfg.deployment, s.chain, {cfg.deployment.verifier}, id,
                   BuildRelease(cfg, id, r, v.result).evidenceHash);
    if Payable(s.chain, id) {
      FinishAlone(t, req, id, r, PaidBy(r, txHash));
    } else {
      assert DoCommitPaid(t, req) == t;
    }
  }

  /** A verification that is admitted, sees a PASS and finds the contract ready to pay. */
  ghost predicate Pays(cfg: Config, s: System, id: u64, wallet: Address, seen: Snapshot)
    requires id in s.db
  {
    AdmitVerification(s.db[id], wallet).Proceed? && Shows(cfg, s.db[id], seen) && Payable(s.chain, id)
  }

  /** The evidence such a verification anchors. */
  ghost function EvidenceOf(cfg: Config, r: Record, id: u64, seen: Snapshot): Bytes32
    requires r.submission.Some? && r.row.baseSha.Some? && r.row.developerGithub.Some?
    requires Judge(cfg, r, Ok(seen)).Ok? && HasFacts(Judge(cfg, r, Ok(seen)).value)
  {
    var judged := Judge(cfg, r, Ok(seen)).value;
    assert judged.verifications != [] by {
      hide Verify, ParsePullRequestUrl;
    }
    cfg.sha(EvidenceText(FactsOf(id, judged), Last(judged).result))
  }

  /** The record is the judged one, paid by this transaction, and the contract paid for its evidence. */
  ghost predicate Settles(cfg: Config, s: System, t: System, id: u64, seen: Snapshot, txHash: string) {
    && id in s.db && s.db[id].submission.Some?
    && s.db[id].row.baseSha.Some? && s.db[id].row.developerGithub.Some?
    && Judge(cfg, s.db[id], Ok(seen)).Ok?
    && HasFacts(Judge(cfg, s.db[id], Ok(seen)).value)
    && t.db == s.db[id := PaidBy(Judge(cfg, s.db[id], Ok(seen)).value, txHash)]
    && PaidOut(cfg.deployment, s.chain, t.chain, id, EvidenceOf(cfg, s.db[id], id, seen))
  }

  lemma VerificationPays(cfg: Config, s: System, req: nat, id: u64, wallet: Address, seen: Snapshot, txHash: string)
    requires Settlement.Inv(cfg, s) && id in s.db && s.db[id].row.status != PAID
    requires req !in s.inflight && txHash !in s.txs
    ensures var t := VerificationRun(cfg, s, req, id, wallet, seen, txHash);
            if Pays(cfg, s, id, wallet, seen) then Settles(cfg, s, t, id, seen, txHash)
            else id in t.db && t.db[id].row.status != PAID && t.chain == s.chain
  {
    hide Settlement.Run, Settlement.Step, PayoutRun, Judge, HasFacts, EvidenceText, Shows, Payable, PaidOut, PaidBy,
      PendingOk, TxOk, Escrow.Inv, RecordOk;
    RunVerificationSteps(cfg, s, req, id, wallet, seen, txHash);
    var u := JudgedRun(cfg, s, req, id, wallet, seen);
    if !AdmitVerification(s.db[id], wallet).Proceed? {
      NotAdmitted(cfg, s, req, id, wallet, seen);
      NothingSent(cfg, s, req, txHash);
    } else {
      VerdictAlone(cfg, s, req, id, wallet, seen);
      JudgedPasses(cfg, s.db[id], seen);
      var judged := ServeVerdict(cfg, s.db[id], Ok(seen), true);
      if judged.answer.Err? || judged.answer.value.result.status != PASS {
        NothingSent(cfg, u, req, txHash);
      } else {
        JudgedHasFacts(cfg, s, id, wallet, seen);
        PayoutPays(cfg, u, req, id, judged.answer.value, txHash);
      }
    }
  }

  /**
   In every reachable state, a verification that nothing interrupts ends PAID if and only if it
   is admitted, GitHub shows a PASS and the contract has the bounty assigned and in time; then
   exactly the reward moves to the developer, and otherwise the ledger does not change.
   */
  lemma PaysExactly(cfg: Config, start: System, before: seq<Action>, req: nat, id: u64, wallet: Address,
                    seen: Snapshot, txHash: string)
    requires Initial(cfg, start)
    requires var s := Settlement.Run(cfg, start, before);
             id in s.db && s.db[id].row.status != PAID && req !in s.inflight && txHash !in s.txs
    ensures var s := Settlement.Run(cfg, start, before);
            var t := VerificationRun(cfg, s, req, id, wallet, seen, txHash);
            && id in t.db
            && (t.db[id].row.status == PAID <==> Pays(cfg, s, id, wallet, seen))
            && (t.db[id].row.status == PAID ==> Settles(cfg, s, t, id, seen, txHash))
            && (t.db[id].row.status != PAID ==> t.chain == s.chain)
  {
    hide Settlement.Run, VerificationRun, Settlement.Inv, Initial, Pays, PaidOut, Judge, EvidenceOf;
    RunFromStart(cfg, start, before);
    VerificationPays(cfg, Settlement.Run(cfg, start, before), req, id, wallet, seen, txHash);
  }

  // ------------------------------------------------------------- and taken back

  /** A step of this request. */
  predicate About(a: Action, req: nat) {
    match a
    case Begin(r, _) => r == req
    case ReadChain(r) => r == req
    case CommitFunding(r, _) => r == req
    case CommitAssignment(r) => r == req
    case CommitSubmission(r, _) => r == req
    case CommitVerdict(r, _) => r == req
    case SendRelease(r, _) => r == req
    case CommitPaid(r) => r == req
    case Drop(r) => r == req
    case _ => false
  }

  /** It is as it was, in flight or not. */
  predicate SameRequest(s: System, t: System, req: nat) {
    (req in t.inflight <==> req in s.inflight) && (req in s.inflight ==> t.inflight[req] == s.inflight[req])
  }

  lemma StepLeaves(cfg: Config, s: System, a: Action, req: nat)
    requires !About(a, req)
    ensures SameRequest(s, Settlement.Step(cfg, s, a), req)
  {
    hide Admit, Judge, Submit, Commit, BuildRelease, HasFacts, Release, CheckFunding, CheckAssignment, Escrow.Step;
  }

  /** Steps of other requests leave this one alone. */
  lemma {:induction false} RunLeaves(cfg: Config, s: System, actions: seq<Action>, req: nat)
    requires forall a :: a in actions ==> !About(a, req)
    ensures SameRequest(s, Settlement.Run(cfg, s, actions), req)
    decreases |actions|
  {
    hide Settlement.Step, About;
    if actions != [] {
      StepLeaves(cfg, s, actions[0], req);
      RunLeaves(cfg, Settlement.Step(cfg, s, actions[0]), actions[1..], req);
    }
  }

  lemma VerdictLeavesChain(cfg: Config, s: System, req: nat, seen: Snapshot)
    ensures DoCommitVerdict(cfg, s, req, seen).chain == s.chain
  {
    hide Judge, Commit;
  }

  /** A request that loaded the row before it was paid commits its own verdict after. */
  lemma LateVerdictOverwrites(cfg: Config, s: System, id: u64, other: nat, loaded: Record)
    requires Settlement.Inv(cfg, s) && AllFit(cfg, s) && other in s.inflight
    requires s.inflight[other] == VerificationLoaded(id, loaded) && loaded.row.baseSha.Some?
    ensures var t := Settlement.Step(cfg, s, CommitVerdict(other, Spoiler(loaded)));
            !IsPaid(t, id) && t.chain == s.chain
  {
    hide Settlement.Inv, OfRepository, Spoiler, DoCommitVerdict;
    WritersAreOk(cfg, s, other);
    LoadedIsOfRepository(cfg, loaded, s.db[id]);
    VerdictOverwrites(cfg, s, other);
    VerdictLeavesChain(cfg, s, other, Spoiler(loaded));
  }

  /** A second verification of the same row starts, the first pays, and the second commits. */
  function TakeBack(req: nat, other: nat, id: u64, wallet: Address, seen: Snapshot, txHash: string, late: Snapshot)
    : seq<Action>
  {
    [Begin(other, RunVerification(id, wallet))] + VerificationSteps(req, id, wallet, seen, txHash)
    + [CommitVerdict(other, late)]
  }

  lemma {:induction false} RunConcat(cfg: Config, s: System, a: seq<Action>, b: seq<Action>)
    ensures Settlement.Run(cfg, s, a + b) == Settlement.Run(cfg, Settlement.Run(cfg, s, a), b)
    decreases |a|
  {
    hide Settlement.Step;
    if a == [] {
      assert a + b == b;
    } else {
      assert (a + b)[1..] == a[1..] + b;
      RunConcat(cfg, Settlement.Step(cfg, s, a[0]), a[1..], b);
    }
  }

  /** Beginning a request that is admitted only puts it in flight. */
  lemma BeginsOther(cfg: Config, s: System, other: nat, id: u64, wallet: Address)
    requires id in s.db && other !in s.inflight && AdmitVerification(s.db[id], wallet).Proceed?
    ensures Settlement.Step(cfg, s, Begin(other, RunVerification(id, wallet)))
         == s.(inflight := s.inflight[other := VerificationLoaded(id, s.db[id])])
  {
  }

  lemma RunTakeBack(cfg: Config, s: System, req: nat, other: nat, id: u64, wallet: Address, seen: Snapshot,
                    txHash: string, late: Snapshot)
    ensures var begun := Settlement.Step(cfg, s, Begin(other, RunVerification(id, wallet)));
            Settlement.Run(cfg, s, TakeBack(req, other, id, wallet, seen, txHash, late))
            == Settlement.Step(cfg, VerificationRun(cfg, begun, req, id, wallet, seen, txHash),
                               CommitVerdict(other, late))
  {
    hide Settlement.Step, VerificationSteps;
    var first := [Begin(other, RunVerification(id, wallet))];
    var steps := VerificationSteps(req, id, wallet, seen, txHash);
    RunConcat(cfg, s, first + steps, [CommitVerdict(other, late)]);
    RunConcat(cfg, s, first, steps);
    RunAction(cfg, s, first[0]);
    RunAction(cfg, Settlement.Run(cfg, s, first + steps), CommitVerdict(other, late));
  }

  /**
   What overlapping costs: from any reachable state in which a verification pays, a run in which
   a second one of the same row began earlier and commits later ends with the reward paid out on
   chain and the row not PAID.
   */
  lemma PaidIsTakenBack(cfg: Config, start: System, before: seq<Action>, req: nat, other: nat, id: u64,
                        wallet: Address, seen: Snapshot, txHash: string) returns (late: Snapshot)
    requires Initial(cfg, start) && req != other
    requires var s := Settlement.Run(cfg, start, before);
             id in s.db && req !in s.inflight && other !in s.inflight && txHash !in s.txs
             && Pays(cfg, s, id, wallet, seen)
    ensures var s := Settlement.Run(cfg, start, before);
            var paid := VerificationRun(cfg, Settlement.Step(cfg, s, Begin(other, RunVerification(id, wallet))),
                                        req, id, wallet, seen, txHash);
            var t := Settlement.Run(cfg, s, TakeBack(req, other, id, wallet, seen, txHash, late));
            && IsPaid(paid, id) && !IsPaid(t, id)
            && id in t.chain.bounties && t.chain.bounties[id].status == Paid
  {
    hide Settlement.Run, Settlement.Inv, AllFit, VerificationRun, PaidOut, Shows, Payable, Spoiler, Settlement.Step,
      Judge;
    SubmissionsFit(cfg, start, before);
    var s := Settlement.Run(cfg, start, before);
    var begun := Settlement.Step(cfg, s, Begin(other, RunVerification(id, wallet)));
    BeginsOther(cfg, s, other, id, wallet);
    Settlement.StepKeeps(cfg, s, Begin(other, RunVerification(id, wallet)));
    StepFits(cfg, s, Begin(other, RunVerification(id, wallet)));
    TakesBack(cfg, begun, req, other, id, wallet, seen, txHash);
    late := Spoiler(s.db[id]);
    RunTakeBack(cfg, s, req, other, id, wallet, seen, txHash, late);
  }

  lemma TakesBack(cfg: Config, s: System, req: nat, other: nat, id: u64, wallet: Address, seen: Snapshot,
                  txHash: string)
    requires Settlement.Inv(cfg, s) && AllFit(cfg, s) && req != other && req !in s.inflight && txHash !in s.txs
    requires id in s.db && other in s.inflight && s.inflight[other] == VerificationLoaded(id, s.db[id])
    requires Pays(cfg, s, id, wallet, seen)
    ensures s.db[id].row.baseSha.Some?
    ensures var paid := VerificationRun(cfg, s, req, id, wallet, seen, txHash);
            var t := Settlement.Step(cfg, paid, CommitVerdict(other, Spoiler(s.db[id])));
            && IsPaid(paid, id) && !IsPaid(t, id)
            && id in t.chain.bounties && t.chain.bounties[id].status == Paid
  {
    hide Settlement.Run, Settlement.Inv, AllFit, Shows, Payable, Spoiler, Settlement.Step, Judge, EvidenceOf, Moved;
    VerificationPays(cfg, s, req, id, wallet, seen, txHash);
    RunLeaves(cfg, s, VerificationSteps(req, id, wallet, seen, txHash), other);
    RunFits(cfg, s, VerificationSteps(req, id, wallet, seen, txHash));
    LateVerdictOverwrites(cfg, VerificationRun(cfg, s, req, id, wallet, seen, txHash), id, other, s.db[id]);
  }
}
