/**
 What a funding confirmation still in flight can do to a task that has been accepted since it
 read the chain: offer the task again, to every reader, and replace its base commit. With none
 in flight an accepted task stays private and its base commit fixed.
 */
module LateFunding {
  import opened Wrappers
  import opened Escrow
  import opened Verifier
  import opened GitHubClient
  import opened Records
  import opened Settlement
  import opened Finality
  import Alone
  import opened Commitments
  import opened Payment
  import opened HonestRun
  import opened Reads

  /** A confirmation that read the chain while the bounty was open is still to commit. */
  predicate Confirming(s: System, id: u64) {
    exists req :: req in s.inflight && s.inflight[req].FundingSeen? && s.inflight[req].id == id
  }

  /** Accepted: a developer is on record. */
  predicate HasDeveloper(s: System, id: u64) {
    id in s.db && s.db[id].row.developerWallet.Some?
  }

  /** No confirmation is left to write to the row. */
  predicate Quiet(s: System, id: u64) {
    id in s.db && !Confirming(s, id)
  }

  // ------------------------------------------------------------- nothing is left to offer it again

  /** What a quiet task stays: quiet, with the base commit it had, and not on offer unless it was. */
  predicate LeavesQuiet(s: System, t: System, id: u64) {
    && id in s.db && Quiet(t, id) && t.db[id].row.baseSha == s.db[id].row.baseSha
    && (s.db[id].row.status != OPEN_FUNDED ==> t.db[id].row.status != OPEN_FUNDED)
  }

  lemma StaysQuiet(s: System, t: System, id: u64)
    requires Quiet(s, id) && id in t.db
    requires s.db[id].row.status != OPEN_FUNDED ==> t.db[id].row.status != OPEN_FUNDED
    requires t.db[id].row.baseSha == s.db[id].row.baseSha
    requires forall req :: req in t.inflight && t.inflight[req].FundingSeen? && t.inflight[req].id == id ==>
               req in s.inflight && t.inflight[req] == s.inflight[req]
    ensures LeavesQuiet(s, t, id)
  {
  }

  /** The end of a request that writes neither OPEN_FUNDED nor a base commit to this row. */
  lemma FinishStaysQuiet(s: System, req: nat, id: u64, other: u64, loaded: Record, want: Record)
    requires Quiet(s, id) && loaded.verifications <= want.verifications
    requires other == id ==> want.row.status != OPEN_FUNDED && want.row.baseSha == loaded.row.baseSha
    ensures LeavesQuiet(s, Finish(s, req, other, loaded, want), id)
  {
    StaysQuiet(s, Finish(s, req, other, loaded, want), id);
  }

  lemma FundingStaysQuiet(cfg: Config, s: System, id: u64, req: nat, baseSha: string)
    requires Quiet(s, id)
    ensures LeavesQuiet(s, DoCommitFunding(s, req, baseSha), id)
  {
    if req in s.inflight && s.inflight[req].FundingSeen? {
      var p := s.inflight[req];
      hide Commit;
      assert p.id != id;
      FinishStaysQuiet(s, req, id, p.id, p.loaded, Funded(p.loaded, p.seen, p.txHash, baseSha));
    }
  }

  lemma AssignmentStaysQuiet(cfg: Config, s: System, id: u64, req: nat)
    requires Quiet(s, id)
    ensures LeavesQuiet(s, DoCommitAssignment(s, req), id)
  {
    if req in s.inflight && s.inflight[req].AssignmentSeen? {
      var p := s.inflight[req];
      hide Finish;
      FinishStaysQuiet(s, req, id, p.id, p.loaded, Records.Accepted(p.loaded, p.seen, p.github));
    }
  }

  lemma SubmissionStaysQuiet(cfg: Config, s: System, id: u64, req: nat, seen: Snapshot)
    requires Quiet(s, id)
    ensures LeavesQuiet(s, DoCommitSubmission(cfg, s, req, seen), id)
  {
    if DoCommitSubmission(cfg, s, req, seen) != s {
      CommitSubmissionShape(cfg, s, req, seen);
      var p := s.inflight[req];
      SubmitWrites(cfg, p.loaded, p.url, seen);
      hide DoCommitSubmission, Submit, Finish;
      FinishStaysQuiet(s, req, id, p.id, p.loaded, Submit(cfg, p.loaded, p.url, Ok(seen)).value);
    }
  }

  lemma SubmitWrites(cfg: Config, r: Record, url: string, seen: Snapshot)
    requires r.row.baseSha.Some? && r.row.developerGithub.Some? && Submit(cfg, r, url, Ok(seen)).Ok?
    ensures var want := Submit(cfg, r, url, Ok(seen)).value;
            want.row.status == SUBMITTED && want.row.baseSha == r.row.baseSha
  {
    hide Examine;
  }

  lemma JudgeWrites(cfg: Config, r: Record, seen: Snapshot)
    requires r.submission.Some? && r.row.baseSha.Some? && r.row.developerGithub.Some?
    requires Judge(cfg, r, Ok(seen)).Ok?
    ensures var want := Judge(cfg, r, Ok(seen)).value;
            want.row.status != OPEN_FUNDED && want.row.baseSha == r.row.baseSha
  {
    hide Examine;
  }

  lemma VerdictStaysQuiet(cfg: Config, s: System, id: u64, req: nat, seen: Snapshot)
    requires Quiet(s, id)
    ensures LeavesQuiet(s, DoCommitVerdict(cfg, s, req, seen), id)
  {
    if DoCommitVerdict(cfg, s, req, seen) != s {
      CommitVerdictShape(cfg, s, req, seen);
      var p := s.inflight[req];
      JudgeWrites(cfg, p.loaded, seen);
      hide DoCommitVerdict, Judge, Finish;
      var want := Judge(cfg, p.loaded, Ok(seen)).value;
      var done := Finish(s, req, p.id, p.loaded, want);
      FinishStaysQuiet(s, req, id, p.id, p.loaded, want);
      StaysQuiet(done, AfterVerdict(s, req, p.id, p.loaded, want), id);
    }
  }

  lemma PaidStaysQuiet(cfg: Config, s: System, id: u64, req: nat)
    requires Quiet(s, id)
    ensures LeavesQuiet(s, DoCommitPaid(s, req), id)
  {
    if DoCommitPaid(s, req) != s {
      var p := s.inflight[req];
      hide Finish;
      FinishStaysQuiet(s, req, id, p.id, p.loaded, PaidBy(p.loaded, p.txHash));
    }
  }

  /** An accepted bounty is not open on chain, so no confirmation that reads it now passes. */
  lemma ReadStaysQuiet(cfg: Config, s: System, id: u64, req: nat)
    requires Quiet(s, id) && id in s.chain.bounties && s.chain.bounties[id].status != Open
    ensures LeavesQuiet(s, DoReadChain(cfg, s, req), id)
  {
    hide CheckAssignment;
    StaysQuiet(s, DoReadChain(cfg, s, req), id);
  }

  lemma BeginStaysQuiet(cfg: Config, s: System, id: u64, req: nat, q: Request)
    requires Quiet(s, id)
    ensures LeavesQuiet(s, DoBegin(cfg, s, req, q), id)
  {
    hide AdmitFunding, AdmitAssignment, AdmitSubmission, AdmitVerification, AssignmentSchema;
    StaysQuiet(s, DoBegin(cfg, s, req, q), id);
  }

  lemma SendStaysQuiet(cfg: Config, s: System, id: u64, req: nat, txHash: string)
    requires Quiet(s, id)
    ensures LeavesQuiet(s, DoSendRelease(cfg, s, req, txHash), id)
  {
    hide BuildRelease, HasFacts;
    StaysQuiet(s, DoSendRelease(cfg, s, req, txHash), id);
  }

  lemma CreateStaysQuiet(cfg: Config, s: System, id: u64, other: u64, wallet: Address, form: Form)
    requires Quiet(s, id)
    ensures LeavesQuiet(s, DoCreate(cfg, s, other, wallet, form), id)
  {
    hide Created;
    StaysQuiet(s, DoCreate(cfg, s, other, wallet, form), id);
  }

  lemma OutsideStaysQuiet(cfg: Config, s: System, id: u64, a: Action)
    requires Quiet(s, id) && (a.Ledger? || a.Sign? || a.Include? || a.Drop?)
    ensures LeavesQuiet(s, Settlement.Step(cfg, s, a), id)
  {
    hide Release, Escrow.Step, Confirming;
    StaysQuiet(s, Settlement.Step(cfg, s, a), id);
  }

  lemma AcceptedOnChain(cfg: Config, s: System, id: u64)
    requires Settlement.Inv(cfg, s) && HasDeveloper(s, id)
    ensures id in s.chain.bounties && s.chain.bounties[id].status != Open
    ensures s.db[id].row.status != DRAFT && s.db[id].row.clientWallet.Some?
  {
    assert RecordOk(cfg, s, id, s.db[id]);
  }

  lemma StepStaysQuiet(cfg: Config, s: System, id: u64, a: Action)
    requires Settlement.Inv(cfg, s) && HasDeveloper(s, id) && Quiet(s, id)
    ensures LeavesQuiet(s, Settlement.Step(cfg, s, a), id)
  {
    hide Settlement.Inv, HasDeveloper, Quiet, LeavesQuiet, DoLedger, DoCreate, DoBegin, DoReadChain, DoCommitFunding,
      DoCommitAssignment, DoCommitSubmission, DoCommitVerdict, DoSendRelease, DoInclude, DoCommitPaid;
    match a
    case CreateTask(other, wallet, form) => CreateStaysQuiet(cfg, s, id, other, wallet, form);
    case Begin(req, q) => BeginStaysQuiet(cfg, s, id, req, q);
    case ReadChain(req) =>
      AcceptedOnChain(cfg, s, id);
      ReadStaysQuiet(cfg, s, id, req);
    case CommitFunding(req, baseSha) => FundingStaysQuiet(cfg, s, id, req, baseSha);
    case CommitAssignment(req) => AssignmentStaysQuiet(cfg, s, id, req);
    case CommitSubmission(req, seen) => SubmissionStaysQuiet(cfg, s, id, req, seen);
    case CommitVerdict(req, seen) => VerdictStaysQuiet(cfg, s, id, req, seen);
    case SendRelease(req, txHash) => SendStaysQuiet(cfg, s, id, req, txHash);
    case CommitPaid(req) => PaidStaysQuiet(cfg, s, id, req);
    case _ => OutsideStaysQuiet(cfg, s, id, a);
  }

  /** A quiet task stays quiet through every run, with its client, its developer and its base commit. */
  lemma {:induction false} RunStaysQuiet(cfg: Config, s: System, id: u64, actions: seq<Action>)
    requires Settlement.Inv(cfg, s) && HasDeveloper(s, id) && Quiet(s, id)
    ensures var t := Settlement.Run(cfg, s, actions);
            && Settlement.Inv(cfg, t) && LeavesQuiet(s, t, id)
            && t.db[id].row.developerWallet == s.db[id].row.developerWallet
            && t.db[id].row.clientWallet == s.db[id].row.clientWallet
    decreases |actions|
  {
    hide Settlement.Inv, Settlement.Step, Confirming;
    if actions != [] {
      var t := Settlement.Step(cfg, s, actions[0]);
      StepStaysQuiet(cfg, s, id, actions[0]);
      Settlement.StepKeeps(cfg, s, actions[0]);
      AcceptedOnChain(cfg, s, id);
      assert Older(s.db[id], t.db[id]);
      RunStaysQuiet(cfg, t, id, actions[1..]);
    }
  }

  // ------------------------------------------------------------- something is

  /** The base commit to write so that it differs from the one loaded and the one there. */
  function Another(a: Option<string>, b: Option<string>): (x: string)
    ensures Some(x) != a && Some(x) != b
  {
    var long := (if a.Some? then a.value else "") + (if b.Some? then b.value else "") + "0";
    assert a.Some? ==> |long| > |a.value|;
    assert b.Some? ==> |long| > |b.value|;
    long
  }

  /** A late confirmation offers the accepted task again, with a base commit of its own. */
  lemma LateConfirmation(cfg: Config, s: System, id: u64, req: nat, baseSha: string)
    requires Settlement.Inv(cfg, s) && id in s.db
    requires req in s.inflight && s.inflight[req].FundingSeen? && s.inflight[req].id == id
    ensures var t := Settlement.Step(cfg, s, CommitFunding(req, baseSha));
            && id in t.db && t.db[id].row.status == OPEN_FUNDED
            && (Some(baseSha) != s.inflight[req].loaded.row.baseSha ==> t.db[id].row.baseSha == Some(baseSha))
  {
    hide Settlement.Inv, DoCommitFunding, Older;
    WritersAreOk(cfg, s, req);
    ConfirmationWrites(s, req, baseSha);
  }

  lemma ConfirmationWrites(s: System, req: nat, baseSha: string)
    requires req in s.inflight && s.inflight[req].FundingSeen? && s.inflight[req].id in s.db
    requires s.inflight[req].loaded.row.status == DRAFT
    ensures var p := s.inflight[req]; var t := DoCommitFunding(s, req, baseSha);
            && p.id in t.db && t.db[p.id].row.status == OPEN_FUNDED
            && (Some(baseSha) != p.loaded.row.baseSha ==> t.db[p.id].row.baseSha == Some(baseSha))
  {
  }

  // ------------------------------------------------------------- the exact conditions

  /** The readers of this task are those two and nobody else. */
  ghost predicate PrivateTo(s: System, id: u64, row: Row) {
    id in s.db && forall reader :: CanRead(s.db[id].row, reader) <==>
                    reader.Some? && (reader == row.clientWallet || reader == row.developerWallet)
  }

  lemma QuietIsPrivate(cfg: Config, s: System, t: System, id: u64)
    requires Settlement.Inv(cfg, t) && HasDeveloper(t, id) && t.db[id].row.status != OPEN_FUNDED
    requires id in s.db && t.db[id].row.developerWallet == s.db[id].row.developerWallet
    requires t.db[id].row.clientWallet == s.db[id].row.clientWallet
    ensures PrivateTo(t, id, s.db[id].row)
  {
    AcceptedOnChain(cfg, t, id);
  }

  lemma OfferedIsPublic(s: System, id: u64, row: Row)
    requires id in s.db && s.db[id].row.status == OPEN_FUNDED
    ensures !PrivateTo(s, id, row)
  {
    assert CanRead(s.db[id].row, None);
  }

  /**
   In every reachable state of the overlapping system: an accepted task has its client and its
   developer for its only readers in everything that may follow if and only if it is not on offer
   now and no confirmation that read the chain before it was accepted is still in flight.
   */
  lemma StaysPrivateExactly(cfg: Config, start: System, before: seq<Action>, id: u64)
    requires Initial(cfg, start) && HasDeveloper(Settlement.Run(cfg, start, before), id)
    ensures var s := Settlement.Run(cfg, start, before);
            (forall after :: PrivateTo(Settlement.Run(cfg, s, after), id, s.db[id].row))
            <==> s.db[id].row.status != OPEN_FUNDED && !Confirming(s, id)
  {
    hide Settlement.Run, Settlement.Inv, Settlement.Step, PrivateTo, Confirming;
    RunFromStart(cfg, start, before);
    PrivateFromHere(cfg, Settlement.Run(cfg, start, before), id);
  }

  lemma PrivateFromHere(cfg: Config, s: System, id: u64)
    requires Settlement.Inv(cfg, s) && HasDeveloper(s, id)
    ensures (forall after :: PrivateTo(Settlement.Run(cfg, s, after), id, s.db[id].row))
            <==> s.db[id].row.status != OPEN_FUNDED && !Confirming(s, id)
  {
    hide Settlement.Run, Settlement.Inv, Settlement.Step, PrivateTo;
    if s.db[id].row.status == OPEN_FUNDED {
      RunNothing(cfg, s);
      OfferedIsPublic(s, id, s.db[id].row);
      assert !PrivateTo(Settlement.Run(cfg, s, []), id, s.db[id].row);
    } else if Confirming(s, id) {
      var req :| req in s.inflight && s.inflight[req].FundingSeen? && s.inflight[req].id == id;
      LateConfirmation(cfg, s, id, req, "");
      RunAction(cfg, s, CommitFunding(req, ""));
      OfferedIsPublic(Settlement.Step(cfg, s, CommitFunding(req, "")), id, s.db[id].row);
      assert !PrivateTo(Settlement.Run(cfg, s, [CommitFunding(req, "")]), id, s.db[id].row);
    } else {
      forall after ensures PrivateTo(Settlement.Run(cfg, s, after), id, s.db[id].row) {
        RunStaysQuiet(cfg, s, id, after);
        QuietIsPrivate(cfg, s, Settlement.Run(cfg, s, after), id);
      }
    }
  }

  lemma RunNothing(cfg: Config, s: System)
    ensures Settlement.Run(cfg, s, []) == s
  {
  }

  /** And its base commit is the same in everything that may follow if and only if none is in flight. */
  lemma BaseStaysExactly(cfg: Config, start: System, before: seq<Action>, id: u64)
    requires Initial(cfg, start) && HasDeveloper(Settlement.Run(cfg, start, before), id)
    ensures var s := Settlement.Run(cfg, start, before);
            (forall after :: SameBase(s, Settlement.Run(cfg, s, after), id)) <==> !Confirming(s, id)
  {
    hide Settlement.Run, Settlement.Inv, Settlement.Step;
    RunFromStart(cfg, start, before);
    var s := Settlement.Run(cfg, start, before);
    if Confirming(s, id) {
      var req :| req in s.inflight && s.inflight[req].FundingSeen? && s.inflight[req].id == id;
      var baseSha := Another(s.inflight[req].loaded.row.baseSha, s.db[id].row.baseSha);
      LateConfirmation(cfg, s, id, req, baseSha);
      RunAction(cfg, s, CommitFunding(req, baseSha));
      assert !SameBase(s, Settlement.Run(cfg, s, [CommitFunding(req, baseSha)]), id);
    } else {
      forall after ensures SameBase(s, Settlement.Run(cfg, s, after), id) {
        RunStaysQuiet(cfg, s, id, after);
      }
    }
  }

  predicate SameBase(s: System, t: System, id: u64) {
    id in s.db && id in t.db && t.db[id].row.baseSha == s.db[id].row.baseSha
  }

  // ------------------------------------------------------------- the run in which it happens

  /** A confirmation of the new task reads the chain and then waits for GitHub. */
  function LookSteps(deal: Deal): seq<Action> {
    [Begin(deal.first, ConfirmFunding(deal.id, deal.client, deal.fundTx)), ReadChain(deal.first)]
  }

  /** The same participants, with their requests numbered from the next one on. */
  function Next(deal: Deal): Deal {
    deal.(first := deal.first + 1)
  }

  lemma NextIsTheSame(cfg: Config, deal: Deal)
    requires Participants(cfg, deal) && Terms(deal)
    ensures Participants(cfg, Next(deal)) && Terms(Next(deal))
    ensures NewRecord(cfg, Next(deal)) == NewRecord(cfg, deal)
    ensures OpenBounty(cfg, Next(deal)) == OpenBounty(cfg, deal)
  {
    hide Created, FundBountyAccepts, IsName, AssignmentSchema;
  }

  lemma Looks(cfg: Config, s: System, deal: Deal)
    requires Participants(cfg, deal) && Terms(deal)
    requires At(s, deal.id, NewRecord(cfg, deal), OpenBounty(cfg, deal), deal.first)
    ensures var t := Settlement.Run(cfg, s, LookSteps(deal));
            && t == s.(inflight := s.inflight[deal.first := FundingSeen(deal.id, deal.fundTx, deal.client,
                                                                        NewRecord(cfg, deal), OpenBounty(cfg, deal))])
            && At(t, deal.id, NewRecord(cfg, deal), OpenBounty(cfg, deal), deal.first + 1)
  {
    var steps := LookSteps(deal);
    Alone.RunPair(cfg, s, steps[0], steps[1]);
    NewIsFundable(cfg, deal);
    FundedBountyMatches(deal.id, NewRecord(cfg, deal).row, deal.client);
    hide Settlement.Run, CheckFunding, FundBountyAccepts, FundedBounty, Terms, CriteriaHash;
    var begun := DoBegin(cfg, s, deal.first, ConfirmFunding(deal.id, deal.client, deal.fundTx));
    assert begun == s.(inflight := s.inflight[deal.first := FundingLoaded(deal.id, deal.fundTx, deal.client,
                                                                          NewRecord(cfg, deal))]);
  }

  /** Meanwhile a second confirmation commits, and the developer accepts and has that confirmed. */
  ghost function AcceptedMeanwhile(cfg: Config, deal: Deal): seq<Action>
    requires Participants(cfg, deal) && Terms(deal)
  {
    NextIsTheSame(cfg, deal);
    LockSteps(cfg, deal) + LookSteps(deal) + FundSteps(Next(deal)) + AcceptSteps(cfg, Next(deal))
    + AssignSteps(Next(deal))
  }

  lemma WaitsMeanwhile(cfg: Config, s: System, deal: Deal)
    requires Participants(cfg, deal) && Terms(deal) && deal.first in s.inflight
    ensures Participants(cfg, Next(deal)) && Terms(Next(deal))
    ensures SameRequest(s, Settlement.Run(cfg, s, FundSteps(Next(deal))), deal.first)
    ensures SameRequest(s, Settlement.Run(cfg, s, AcceptSteps(cfg, Next(deal))), deal.first)
    ensures SameRequest(s, Settlement.Run(cfg, s, AssignSteps(Next(deal))), deal.first)
  {
    hide Settlement.Run, IsName, AssignmentSchema;
    RunLeaves(cfg, s, FundSteps(Next(deal)), deal.first);
    RunLeaves(cfg, s, AcceptSteps(cfg, Next(deal)), deal.first);
    RunLeaves(cfg, s, AssignSteps(Next(deal)), deal.first);
  }

  /** The task is assigned, and the first confirmation is still in flight. */
  ghost predicate AssignedButConfirming(cfg: Config, s: System, deal: Deal)
    requires Participants(cfg, deal) && Terms(deal)
    requires Participants(cfg, Next(deal)) && Terms(Next(deal))
  {
    && Settlement.Inv(cfg, s)
    && At(s, deal.id, AssignedRecord(cfg, Next(deal)), TakenBounty(cfg, Next(deal)), deal.first + 3)
    && deal.first in s.inflight
    && s.inflight[deal.first]
       == FundingSeen(deal.id, deal.fundTx, deal.client, NewRecord(cfg, deal), OpenBounty(cfg, deal))
  }

  /** From the moment the first confirmation waits. */
  lemma AcceptsMeanwhile(cfg: Config, s: System, deal: Deal, next: Deal)
    requires Participants(cfg, next) && Terms(next) && Participants(cfg, deal) && Terms(deal)
    requires next == Next(deal) && Settlement.Inv(cfg, s) && deal.first in s.inflight
    requires At(s, next.id, NewRecord(cfg, next), OpenBounty(cfg, next), next.first)
    ensures var t := Settlement.Run(cfg, Settlement.Run(cfg, Settlement.Run(cfg, s, FundSteps(next)),
                                                        AcceptSteps(cfg, next)), AssignSteps(next));
            && At(t, next.id, AssignedRecord(cfg, next), TakenBounty(cfg, next), next.first + 2)
            && deal.first in t.inflight && t.inflight[deal.first] == s.inflight[deal.first] && t.txs == s.txs
  {
    hide Settlement.Run, Settlement.Inv, At, Terms, Participants, Next, NewRecord, FundedRecord, AssignedRecord,
      OpenBounty, TakenBounty, FundSteps, AcceptSteps, AssignSteps;
    Funds(cfg, s, next);
    var funded := Settlement.Run(cfg, s, FundSteps(next));
    RunKeeps(cfg, s, FundSteps(next));
    Accepts(cfg, funded, next);
    var accepted := Settlement.Run(cfg, funded, AcceptSteps(cfg, next));
    Assigns(cfg, accepted, next);
    WaitsMeanwhile(cfg, s, deal);
    WaitsMeanwhile(cfg, funded, deal);
    WaitsMeanwhile(cfg, accepted, deal);
  }

  lemma MeanwhileLeads(cfg: Config, s: System, deal: Deal)
    requires Settlement.Inv(cfg, s) && Feasible(cfg, s, deal)
    ensures Participants(cfg, Next(deal)) && Terms(Next(deal))
    ensures var t := Settlement.Run(cfg, s, AcceptedMeanwhile(cfg, deal));
            AssignedButConfirming(cfg, t, deal) && t.txs == s.txs
  {
    hide Settlement.Run, Settlement.Inv, At, Terms, Participants, Next, NewRecord, FundedRecord, AssignedRecord,
      OpenBounty, TakenBounty, LockSteps, LookSteps, FundSteps, AcceptSteps, AssignSteps;
    NextIsTheSame(cfg, deal);
    var next := Next(deal);
    NextNumbers(deal);
    RunFive(cfg, s, LockSteps(cfg, deal), LookSteps(deal), FundSteps(next), AcceptSteps(cfg, next), AssignSteps(next));
    Locks(cfg, s, deal);
    var locked := Settlement.Run(cfg, s, LockSteps(cfg, deal));
    Looks(cfg, locked, deal);
    RunKeeps(cfg, s, LockSteps(cfg, deal));
    RunKeeps(cfg, locked, LookSteps(deal));
    AcceptsMeanwhile(cfg, Settlement.Run(cfg, locked, LookSteps(deal)), deal, next);
    RunKeeps(cfg, s, AcceptedMeanwhile(cfg, deal));
  }

  lemma NextNumbers(deal: Deal)
    ensures Next(deal).id == deal.id && Next(deal).first == deal.first + 1
  {
  }

  /**
   From every reachable state and for every feasible new task: a run in which the task is assigned,
   hidden from everyone but its two participants, and then on offer to every reader again, its
   developer still on record, because a funding confirmation waited for GitHub meanwhile.
   */
  lemma AcceptedIsOfferedAgain(cfg: Config, start: System, before: seq<Action>, deal: Deal, baseSha: string,
                               reader: Option<Address>)
    requires Initial(cfg, start) && Feasible(cfg, Settlement.Run(cfg, start, before), deal)
    ensures var s := Settlement.Run(cfg, start, before);
            var t := Settlement.Run(cfg, s, AcceptedMeanwhile(cfg, deal));
            var u := Settlement.Run(cfg, t, [CommitFunding(deal.first, baseSha)]);
            && deal.id in t.db && t.db[deal.id].row.status == ASSIGNED
            && !CanRead(t.db[deal.id].row, None) && deal.id !in OpenTasks(t.db)
            && deal.id in u.db && u.db[deal.id].row.developerWallet == Some(deal.developer)
            && CanRead(u.db[deal.id].row, reader) && deal.id in OpenTasks(u.db)
            && u.db[deal.id].row.baseSha == Some(baseSha)
  {
    hide Settlement.Run, Settlement.Inv, Terms, AcceptedMeanwhile, Initial;
    RunFromStart(cfg, start, before);
    var s := Settlement.Run(cfg, start, before);
    MeanwhileLeads(cfg, s, deal);
    var t := Settlement.Run(cfg, s, AcceptedMeanwhile(cfg, deal));
    RunAction(cfg, t, CommitFunding(deal.first, baseSha));
    OfferedOnceMore(cfg, t, deal, baseSha);
  }

  lemma OfferedOnceMore(cfg: Config, s: System, deal: Deal, baseSha: string)
    requires Participants(cfg, deal) && Terms(deal)
    requires Participants(cfg, Next(deal)) && Terms(Next(deal)) && AssignedButConfirming(cfg, s, deal)
    ensures var t := Settlement.Step(cfg, s, CommitFunding(deal.first, baseSha));
            && deal.id in t.db && t.db[deal.id].row.status == OPEN_FUNDED
            && t.db[deal.id].row.developerWallet == Some(deal.developer)
            && t.db[deal.id].row.baseSha == Some(baseSha)
    ensures s.db[deal.id].row.status == ASSIGNED && s.db[deal.id].row.baseSha == Some(deal.baseSha)
  {
    hide Settlement.Inv, Settlement.Step, Terms, FundedBounty, CriteriaHash;
    LateConfirmation(cfg, s, deal.id, deal.first, baseSha);
    Settlement.StepKeeps(cfg, s, CommitFunding(deal.first, baseSha));
    assert Older(s.db[deal.id], Settlement.Step(cfg, s, CommitFunding(deal.first, baseSha)).db[deal.id]);
  }
}
