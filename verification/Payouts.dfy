/**
 Whoever may ask for a verification, from whichever status it is asked, and what then happens to
 the reward: the exact outcome of an uninterrupted verification in every reachable state.
 */
module Payouts {
  import opened Wrappers
  import opened Escrow
  import opened Verifier
  import opened GitHubClient
  import opened Records
  import opened Rules
  import opened Decisions
  import opened Settlement
  import opened Alone
  import opened Payment

  /** GitHub shows this bounty's pull request in order, whole, with its three checks passed. */
  ghost predicate ShowsGreen(cfg: Config, r: Record, seen: Snapshot) {
    && r.submission.Some? && |seen.files| <= 100 && (seen.countsRuns ==> |seen.checkRuns| <= 100)
    && (exists i :: IsPullRequest(i, r.submission.value.url, seen) && Acceptable(cfg, i, r.row))
    && AllPassed(FirstPage(seen), seen.headSha)
  }

  lemma GreenIsShown(cfg: Config, r: Record, seen: Snapshot)
    requires r.submission.Some? && r.row.baseSha.Some? && r.row.developerGithub.Some?
    ensures Shows(cfg, r, seen) <==> ShowsGreen(cfg, r, seen)
  {
    var url := r.submission.value.url;
    var e := Expected(r.row.repoOwner, r.row.repoName, r.row.baseBranch, r.row.baseSha.value,
                      r.row.developerGithub.value);
    FilesAreWholeOrRefused(seen);
    CheckRunsAreWholeOrRefused(seen);
    hide ParsePullRequestUrl, InOrder, StructureValid, AllPassed;
    if Inspect(url, seen).Ok? && ListCheckRuns(seen).Ok? {
      var i := Inspect(url, seen).value;
      RulesAlike(cfg.fold, i, e);
      ChecksAlike(ListCheckRuns(seen).value, seen.headSha);
      assert IsPullRequest(i, url, seen);
      assert ListCheckRuns(seen).value == FirstPage(seen);
    }
  }

  /** In a reachable state the rest of the row is there by then. */
  lemma AwaitingIsAdmitted(cfg: Config, s: System, id: u64, wallet: Address)
    requires Settlement.Inv(cfg, s) && id in s.db
    ensures AdmitVerification(s.db[id], wallet).Proceed? <==>
            MayAsk(s.db[id], wallet)
    ensures MayAsk(s.db[id], wallet) ==> s.db[id].row.baseSha.Some? && s.db[id].row.developerGithub.Some?
  {
    assert RecordOk(cfg, s, id, s.db[id]);
  }

  /** A client or developer, a submission, no payout yet, and a status that awaits a verdict or a payout. */
  predicate MayAsk(r: Record, wallet: Address) {
    && (r.row.clientWallet == Some(wallet) || r.row.developerWallet == Some(wallet))
    && r.submission.Some? && r.row.releaseTx.None?
    && (r.row.status == SUBMITTED || r.row.status == NEEDS_CHANGES || r.row.status == VERIFYING
        || r.row.status == ELIGIBLE)
  }

  lemma NothingHappens(cfg: Config, s: System, req: nat, id: u64, wallet: Address, seen: Snapshot, txHash: string)
    requires id in s.db && req !in s.inflight && txHash !in s.txs
    requires !AdmitVerification(s.db[id], wallet).Proceed?
    ensures VerificationRun(cfg, s, req, id, wallet, seen, txHash) == s
  {
    hide AdmitVerification, Settlement.Run, Settlement.Step, PayoutRun, JudgedRun;
    RunVerificationSteps(cfg, s, req, id, wallet, seen, txHash);
    NotAdmitted(cfg, s, req, id, wallet, seen);
    NothingSent(cfg, s, req, txHash);
  }

  /** The row is PAID by this transaction and the contract moved the reward and anchored the evidence. */
  ghost predicate PaidNow(cfg: Config, s: System, t: System, id: u64, seen: Snapshot, txHash: string) {
    && Settles(cfg, s, t, id, seen, txHash)
    && id in t.db && t.db[id].row.status == PAID && t.db[id].row.releaseTx == Some(txHash)
    && id in t.chain.bounties && t.chain.bounties[id].status == Paid
  }

  /**
   In every reachable state: whoever is neither client nor developer, or asks before the submission,
   after the payout or from any status but the four, changes nothing anywhere. Otherwise, a payout
   that failed before included, the reward is paid and the row PAID if and only if GitHub shows the
   pull request green and the contract has the bounty assigned and in time; else no money moves.
   */
  lemma AskingExactly(cfg: Config, start: System, before: seq<Action>, req: nat, id: u64, wallet: Address,
                      seen: Snapshot, txHash: string)
    requires Initial(cfg, start)
    requires var s := Settlement.Run(cfg, start, before); id in s.db && req !in s.inflight && txHash !in s.txs
    ensures var s := Settlement.Run(cfg, start, before);
            var t := VerificationRun(cfg, s, req, id, wallet, seen, txHash);
            if !MayAsk(s.db[id], wallet) then t == s
            else if ShowsGreen(cfg, s.db[id], seen) && id in s.chain.bounties
                    && s.chain.bounties[id].status == Assigned && s.chain.now <= s.chain.bounties[id].deadline
            then PaidNow(cfg, s, t, id, seen, txHash)
            else id in t.db && t.db[id].row.status != PAID && t.chain == s.chain
  {
    hide Settlement.Run, Settlement.Inv, Initial, VerificationRun, Shows, ShowsGreen, AdmitVerification, Judge,
      EvidenceOf, Moved;
    RunFromStart(cfg, start, before);
    var s := Settlement.Run(cfg, start, before);
    AwaitingIsAdmitted(cfg, s, id, wallet);
    if MayAsk(s.db[id], wallet) {
      GreenIsShown(cfg, s.db[id], seen);
      VerificationPays(cfg, s, req, id, wallet, seen, txHash);
    } else {
      NothingHappens(cfg, s, req, id, wallet, seen, txHash);
    }
  }
}
