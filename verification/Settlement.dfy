/**
 The whole system: the ledger with the escrow on it, MergePay's database, and any
 number of requests in flight, each of which reads the chain at one moment and
 commits at a later one. Ledger events, time, crashes and other requests may come
 between any two of its steps, and nothing serialises requests on one row.
 */
module Settlement {
  import opened Wrappers
  import opened Text
  import opened HexCodec
  import opened Escrow
  import opened Verifier
  import opened GitHubClient
  import opened Commitments
  import opened Messages
  import opened Records

  /** A request in flight, with what it has read so far. */
  datatype Pending =
    | FundingLoaded(id: u64, txHash: string, wallet: Address, loaded: Record)
    | FundingSeen(id: u64, txHash: string, wallet: Address, loaded: Record, seen: Bounty)
    | AssignmentLoaded(id: u64, txHash: string, wallet: Address, github: string, loaded: Record)
    | AssignmentSeen(id: u64, txHash: string, wallet: Address, github: string, loaded: Record, seen: Bounty)
    | SubmissionLoaded(id: u64, url: string, loaded: Record)
    | VerificationLoaded(id: u64, loaded: Record)
    /** Commit #1 of a PASS is in; the payout has not been sent. */
    | Passed(id: u64, result: VerificationResult)
    | Releasing(id: u64, loaded: Record, txHash: string)

  /** A signed release transaction; it may reach the ledger late, or never. Facts and result are history. */
  datatype ReleaseTx = ReleaseTx(id: u64, evidenceHash: Bytes32, facts: Facts, result: VerificationResult)

  datatype System = System(
    chain: State,
    db: map<u64, Record>,
    inflight: map<nat, Pending>,
    /** Release transactions handed to the network, by hash. */
    txs: map<string, ReleaseTx>,
    /** Those the ledger has executed, and whether they succeeded. */
    fate: map<string, bool>,
    /** What each wallet has signed off chain. */
    signed: set<(Address, string)>)

  datatype Request =
    | ConfirmFunding(id: u64, wallet: Address, txHash: string)
    | ConfirmAssignment(id: u64, wallet: Address, txHash: string, github: string)
    | RegisterSubmission(id: u64, wallet: Address, url: string)
    | RunVerification(id: u64, wallet: Address)

  datatype Action =
    | Ledger(event: Event)
    | Sign(wallet: Address, message: string)
    | CreateTask(id: u64, wallet: Address, form: Form)
    /** Load the record and pass the checks made before anything else is read. */
    | Begin(req: nat, request: Request)
    | ReadChain(req: nat)
    | CommitFunding(req: nat, baseSha: string)
    | CommitAssignment(req: nat)
    | CommitSubmission(req: nat, seen: Snapshot)
    /** Commit #1 of a verification. */
    | CommitVerdict(req: nat, seen: Snapshot)
    | SendRelease(req: nat, txHash: string)
    /** The ledger executes a release transaction it was handed. */
    | Include(txHash: string)
    /** The poll reported SUCCESS: commit #2. */
    | CommitPaid(req: nat)
    /** A crash, an error reply, a timeout or a failed commit. */
    | Drop(req: nat)

  // ------------------------------------------------------------- steps

  /** Only the backend holds the verifier's key. */
  predicate Outside(d: Deployment, e: Event) {
    Signable(d, e) && (e.Advance? || d.verifier !in e.signers)
  }

  function DoLedger(cfg: Config, s: System, e: Event): (t: System)
    ensures t == s.(chain := t.chain)
  {
    if Outside(cfg.deployment, e) then s.(chain := Escrow.Step(cfg.deployment, s.chain, e)) else s
  }

  ghost function DoCreate(cfg: Config, s: System, id: u64, wallet: Address, form: Form): System {
    if id in s.db || !FormValid(form) then s else s.(db := s.db[id := Created(cfg, wallet, form)])
  }

  /** The assignment request's schema. */
  predicate AssignmentSchema(txHash: string, github: string) {
    && IsHash(txHash) && Lower(txHash) == txHash
    && 1 <= |github| <= 39 && forall c :: c in github ==> IsGithubChar(c)
  }

  function Admit(cfg: Config, r: Record, q: Request): Option<Pending> {
    match q
    case ConfirmFunding(id, wallet, txHash) =>
      if AdmitFunding(r.row, txHash, wallet).Proceed? then Some(FundingLoaded(id, txHash, wallet, r)) else None
    case ConfirmAssignment(id, wallet, txHash, github) =>
      if AssignmentSchema(txHash, github) && AdmitAssignment(cfg, r.row, github, wallet).Proceed?
      then Some(AssignmentLoaded(id, txHash, wallet, github, r)) else None
    case RegisterSubmission(id, wallet, url) =>
      if AdmitSubmission(r, wallet).Proceed? then Some(SubmissionLoaded(id, url, r)) else None
    case RunVerification(id, wallet) =>
      if AdmitVerification(r, wallet).Proceed? then Some(VerificationLoaded(id, r)) else None
  }

  function DoBegin(cfg: Config, s: System, req: nat, q: Request): (t: System)
    ensures t.txs == s.txs
  {
    if req in s.inflight || q.id !in s.db then s
    else
      match Admit(cfg, s.db[q.id], q)
      case None => s
      case Some(p) => s.(inflight := s.inflight[req := p])
  }

  function DoReadChain(cfg: Config, s: System, req: nat): (t: System)
    ensures t.txs == s.txs
  {
    if req !in s.inflight then s
    else
      var p := s.inflight[req];
      if p.id !in s.chain.bounties then s
      else
        var b := s.chain.bounties[p.id];
        if p.FundingLoaded? && CheckFunding(b, p.loaded.row, p.wallet).None? then
          s.(inflight := s.inflight[req := FundingSeen(p.id, p.txHash, p.wallet, p.loaded, b)])
        else if p.AssignmentLoaded?
                && CheckAssignment(cfg, s.signed, b, p.loaded.row, p.id, p.txHash, p.github, p.wallet).None? then
          s.(inflight := s.inflight[req := AssignmentSeen(p.id, p.txHash, p.wallet, p.github, p.loaded, b)])
        else s
  }

  /** The request ends; its commit, if it succeeds, replaces the record. */
  function Finish(s: System, req: nat, id: u64, loaded: Record, want: Record): (t: System)
    requires loaded.verifications <= want.verifications
    ensures t.txs == s.txs
  {
    var left := s.inflight - {req};
    if id !in s.db then s.(inflight := left)
    else
      match Commit(loaded, want, s.db[id])
      case None => s.(inflight := left)
      case Some(r) => s.(db := s.db[id := r], inflight := left)
  }

  function DoCommitFunding(s: System, req: nat, baseSha: string): (t: System)
    ensures t.txs == s.txs
  {
    if req in s.inflight && s.inflight[req].FundingSeen? then
      var p := s.inflight[req];
      Finish(s, req, p.id, p.loaded, Funded(p.loaded, p.seen, p.txHash, baseSha))
    else s
  }

  function DoCommitAssignment(s: System, req: nat): (t: System)
    ensures t.txs == s.txs
  {
    if req in s.inflight && s.inflight[req].AssignmentSeen? then
      var p := s.inflight[req];
      Finish(s, req, p.id, p.loaded, Accepted(p.loaded, p.seen, p.github))
    else s
  }

  function DoCommitSubmission(cfg: Config, s: System, req: nat, seen: Snapshot): (t: System)
    ensures t.txs == s.txs
  {
    if req in s.inflight && s.inflight[req].SubmissionLoaded?
       && s.inflight[req].loaded.row.baseSha.Some? && s.inflight[req].loaded.row.developerGithub.Some? then
      var p := s.inflight[req];
      match Submit(cfg, p.loaded, p.url, Ok(seen))
      case Err(_) => s
      case Ok(want) => Finish(s, req, p.id, p.loaded, want)
    else s
  }

  /** Commit #1; a PASS goes on to the payout. */
  function AfterVerdict(s: System, req: nat, id: u64, loaded: Record, want: Record): (t: System)
    requires want.verifications != [] && loaded.verifications <= want.verifications
    ensures t.txs == s.txs
  {
    var done := Finish(s, req, id, loaded, want);
    var result := Last(want).result;
    if result.status == PASS then done.(inflight := done.inflight[req := Passed(id, result)]) else done
  }

  function DoCommitVerdict(cfg: Config, s: System, req: nat, seen: Snapshot): (t: System)
    ensures t.txs == s.txs
  {
    if req in s.inflight && s.inflight[req].VerificationLoaded? && s.inflight[req].loaded.submission.Some?
       && s.inflight[req].loaded.row.baseSha.Some? && s.inflight[req].loaded.row.developerGithub.Some? then
      var p := s.inflight[req];
      match Judge(cfg, p.loaded, Ok(seen))
      case Err(_) => s
      case Ok(want) => AfterVerdict(s, req, p.id, p.loaded, want)
    else s
  }

  ghost function BuildRelease(cfg: Config, id: u64, r: Record, result: VerificationResult): ReleaseTx
    requires HasFacts(r)
  {
    ReleaseTx(id, cfg.sha(EvidenceText(FactsOf(id, r), result)), FactsOf(id, r), result)
  }

  /**
   The record is read again, the evidence computed and the transaction sent. The same
   hash again is the same transaction, which the network answers with DUPLICATE.
   */
  ghost function DoSendRelease(cfg: Config, s: System, req: nat, txHash: string): System {
    if req in s.inflight && s.inflight[req].Passed? then
      var p := s.inflight[req];
      if p.id !in s.db || !HasFacts(s.db[p.id]) then s
      else
        var tx := BuildRelease(cfg, p.id, s.db[p.id], p.result);
        if txHash in s.txs && s.txs[txHash] != tx then s
        else s.(txs := s.txs[txHash := tx], inflight := s.inflight[req := Releasing(p.id, s.db[p.id], txHash)])
    else s
  }

  ghost function DoInclude(cfg: Config, s: System, txHash: string): (t: System)
    ensures t == s.(chain := t.chain, fate := t.fate)
  {
    if txHash !in s.txs || txHash in s.fate then s
    else
      var tx := s.txs[txHash];
      var r := Release(cfg.deployment, s.chain, {cfg.deployment.verifier}, tx.id, tx.evidenceHash);
      s.(chain := r.state, fate := s.fate[txHash := r.outcome == Done])
  }

  function DoCommitPaid(s: System, req: nat): (t: System)
    ensures t.txs == s.txs
  {
    if req in s.inflight && s.inflight[req].Releasing?
       && s.inflight[req].txHash in s.fate && s.fate[s.inflight[req].txHash] then
      var p := s.inflight[req];
      Finish(s, req, p.id, p.loaded, PaidBy(p.loaded, p.txHash))
    else s
  }

  ghost function Step(cfg: Config, s: System, a: Action): System {
    match a
    case Ledger(e) => DoLedger(cfg, s, e)
    case Sign(wallet, message) => s.(signed := s.signed + {(wallet, message)})
    case CreateTask(id, wallet, form) => DoCreate(cfg, s, id, wallet, form)
    case Begin(req, q) => DoBegin(cfg, s, req, q)
    case ReadChain(req) => DoReadChain(cfg, s, req)
    case CommitFunding(req, baseSha) => DoCommitFunding(s, req, baseSha)
    case CommitAssignment(req) => DoCommitAssignment(s, req)
    case CommitSubmission(req, seen) => DoCommitSubmission(cfg, s, req, seen)
    case CommitVerdict(req, seen) => DoCommitVerdict(cfg, s, req, seen)
    case SendRelease(req, txHash) => DoSendRelease(cfg, s, req, txHash)
    case Include(txHash) => DoInclude(cfg, s, txHash)
    case CommitPaid(req) => DoCommitPaid(s, req)
    case Drop(req) => s.(inflight := s.inflight - {req})
  }

  ghost function Run(cfg: Config, s: System, actions: seq<Action>): System
    decreases |actions|
  {
    if actions == [] then s else Run(cfg, Step(cfg, s, actions[0]), actions[1..])
  }

  // ------------------------------------------------------------- start

  predicate Draft(r: Record) {
    && r.row.status == DRAFT && r.submission.None? && r.verifications == []
    && r.row.baseSha.None? && r.row.developerWallet.None? && r.row.developerGithub.None?
    && r.row.createTx.None? && r.row.releaseTx.None? && r.row.pullRequestNumber.None?
  }

  predicate SoundConfig(cfg: Config) {
    cfg.deployment.self.Contract? && cfg.deployment.verifier.Account?
  }

  /** A freshly deployed contract and a database of drafts, some perhaps from before clients were recorded. */
  ghost predicate Initial(cfg: Config, s: System) {
    && SoundConfig(cfg)
    && Deployed(cfg.deployment, s.chain)
    && (forall id :: id in s.db ==> Draft(s.db[id]))
    && s.inflight == map[] && s.txs == map[] && s.fate == map[] && s.signed == {}
  }

  // ------------------------------------------------------------- what one record always satisfies

  predicate WithDeveloper(status: RowStatus) {
    status != DRAFT && status != OPEN_FUNDED
  }

  predicate Staffed(row: Row) {
    row.developerWallet.Some? && row.developerGithub.Some? && row.baseSha.Some?
  }

  /** The row claims nothing the chain does not hold. */
  predicate Lags(chain: map<u64, Bounty>, id: u64, row: Row) {
    && (row.status != DRAFT ==>
          && id in chain
          && row.clientWallet == Some(chain[id].client)
          && row.amount == chain[id].amount
          && row.deadline == chain[id].deadline
          && row.criteriaHash.Some?
          && HexOf(chain[id].criteriaHash) == Lower(row.criteriaHash.value))
    && (row.developerWallet.Some? ==>
          && row.status != DRAFT
          && id in chain
          && chain[id].developer == row.developerWallet
          && row.developerWallet != row.clientWallet
          && (chain[id].status == Assigned || chain[id].status == Paid || chain[id].status == Refunded))
    && (WithDeveloper(row.status) ==> Staffed(row))
    && (row.status == PAID ==> row.releaseTx.Some?)
    && (row.releaseTx.Some? ==> Staffed(row))
  }

  /** A recorded payout is one the ledger executed with success for this bounty. */
  predicate PayoutIsReal(txs: map<string, ReleaseTx>, fate: map<string, bool>, id: u64, row: Row) {
    row.releaseTx.Some? ==>
      var h := row.releaseTx.value;
      h in txs && h in fate && fate[h] && txs[h].id == id
  }

  /** The GitHub name was bound to the developer's wallet by that wallet's own signature. */
  ghost predicate Bound(cfg: Config, signed: set<(Address, string)>, id: u64, row: Row) {
    row.developerGithub.Some? ==>
      && row.developerWallet.Some?
      && exists txHash :: AssignmentSchema(txHash, row.developerGithub.value)
           && HasSigned(signed, row.developerWallet.value,
                        OwnershipMessage(cfg, id, txHash, row.developerWallet.value, row.developerGithub.value))
  }

  ghost predicate RecordOk(cfg: Config, s: System, id: u64, r: Record) {
    && Lags(s.chain.bounties, id, r.row)
    && PayoutIsReal(s.txs, s.fate, id, r.row)
    && Bound(cfg, s.signed, id, r.row)
  }

  /** How a record may have changed since `a` was loaded. */
  predicate Older(a: Record, b: Record) {
    && b.row.repoOwner == a.row.repoOwner && b.row.repoName == a.row.repoName
    && b.row.baseBranch == a.row.baseBranch
    && b.row.amount == a.row.amount && b.row.deadline == a.row.deadline
    && b.row.criteriaHash == a.row.criteriaHash
    && (b.row.status == DRAFT ==> a == b)
    && (a.row.clientWallet.Some? ==> b.row.clientWallet == a.row.clientWallet)
    && (a.row.developerWallet.Some? ==> b.row.developerWallet == a.row.developerWallet)
    && (a.row.releaseTx.Some? ==> b.row.releaseTx == a.row.releaseTx)
    && (a.row.baseSha.Some? ==> b.row.baseSha.Some?)
    && (a.row.developerGithub.Some? ==> b.row.developerGithub.Some?)
    && (a.submission.Some? ==> b.submission.Some? && b.submission.value.url == a.submission.value.url)
    && a.verifications <= b.verifications
  }

  predicate HasPass(r: Record, result: VerificationResult) {
    result.status == PASS && exists v :: v in r.verifications && v.result == result
  }

  ghost predicate PendingOk(cfg: Config, s: System, p: Pending) {
    && p.id in s.db
    && (!p.Passed? ==> Older(p.loaded, s.db[p.id]))
    && match p
       case FundingLoaded(id, _, wallet, loaded) =>
         loaded.row.status == DRAFT && (loaded.row.clientWallet.Some? ==> loaded.row.clientWallet == Some(wallet))
       case FundingSeen(id, _, wallet, loaded, seen) =>
         && loaded.row.status == DRAFT && (loaded.row.clientWallet.Some? ==> loaded.row.clientWallet == Some(wallet))
         && MatchesTask(seen, loaded.row) && seen.client == wallet
         && id in s.chain.bounties && Later(seen, s.chain.bounties[id])
       case AssignmentLoaded(id, txHash, wallet, github, loaded) =>
         && loaded.row.status == OPEN_FUNDED && loaded.row.clientWallet.Some?
         && loaded.row.clientWallet != Some(wallet) && loaded.row.baseSha.Some?
         && AssignmentSchema(txHash, github)
       case AssignmentSeen(id, txHash, wallet, github, loaded, seen) =>
         && loaded.row.status == OPEN_FUNDED && loaded.row.clientWallet.Some?
         && loaded.row.clientWallet != Some(wallet) && loaded.row.baseSha.Some?
         && AssignmentSchema(txHash, github)
         && MatchesAssignment(seen, loaded.row) && seen.developer == Some(wallet)
         && HasSigned(s.signed, wallet, OwnershipMessage(cfg, id, txHash, wallet, github))
         && id in s.chain.bounties && Later(seen, s.chain.bounties[id])
       case SubmissionLoaded(id, _, loaded) => Staffed(loaded.row) && loaded.submission.None?
       case VerificationLoaded(id, loaded) => Staffed(loaded.row) && loaded.submission.Some?
       case Passed(id, result) => Staffed(s.db[id].row) && HasPass(s.db[id], result)
       case Releasing(id, loaded, txHash) => Staffed(loaded.row) && txHash in s.txs && s.txs[txHash].id == id
  }

  /** The evidence speaks of this bounty: what the record can no longer change. */
  predicate SpeaksOf(f: Facts, id: u64, r: Record) {
    && f.bountyId == id
    && f.repoOwner == r.row.repoOwner && f.repoName == r.row.repoName && f.baseBranch == r.row.baseBranch
    && Some(f.criteriaHash) == r.row.criteriaHash
    && r.submission.Some? && f.pullRequestUrl == r.submission.value.url
  }

  /** Every release transaction commits to a PASS already in the bounty's history. */
  ghost predicate TxOk(s: System, h: string) {
    && h in s.txs && s.txs[h].id in s.db
    && HasPass(s.db[s.txs[h].id], s.txs[h].result)
    && SpeaksOf(s.txs[h].facts, s.txs[h].id, s.db[s.txs[h].id])
  }

  ghost predicate ReleasedBySome(txs: map<string, ReleaseTx>, fate: map<string, bool>, id: u64) {
    exists h :: h in txs && h in fate && fate[h] && txs[h].id == id
  }

  /** A successful release is what paid its bounty, and the only one that did. */
  ghost predicate FateOk(bounties: map<u64, Bounty>, txs: map<string, ReleaseTx>, fate: map<string, bool>) {
    && (forall h :: h in fate ==> h in txs)
    && (forall h :: h in fate && fate[h] ==>
          var id := txs[h].id;
          id in bounties && bounties[id].status == Paid && bounties[id].evidenceHash == Some(txs[h].evidenceHash))
    && (forall g, h :: g in fate && h in fate && fate[g] && fate[h] && txs[g].id == txs[h].id ==> g == h)
    && (forall id :: id in bounties && bounties[id].status == Paid ==> ReleasedBySome(txs, fate, id))
  }

  /** What a release anchors is the digest of the evidence it was built from. */
  ghost predicate Evidenced(cfg: Config, tx: ReleaseTx) {
    tx.evidenceHash == cfg.sha(EvidenceText(tx.facts, tx.result))
  }

  /** The backend's side of the invariant. */
  ghost predicate Core(cfg: Config, s: System) {
    && (forall id :: id in s.db ==> RecordOk(cfg, s, id, s.db[id]))
    && (forall req :: req in s.inflight ==> PendingOk(cfg, s, s.inflight[req]))
    && (forall h :: h in s.txs ==> TxOk(s, h))
    && FateOk(s.chain.bounties, s.txs, s.fate)
  }

  ghost predicate Inv(cfg: Config, s: System) {
    SoundConfig(cfg) && Escrow.Inv(cfg.deployment, s.chain) && Core(cfg, s)
  }

  // ------------------------------------------------------------- what later states keep

  /** Everything that was established stays so. */
  ghost predicate Extends(s: System, t: System) {
    && Grows(s.chain.bounties, t.chain.bounties)
    && (forall id :: id in s.db ==> id in t.db && Older(s.db[id], t.db[id]))
    && (forall h :: h in s.txs ==> h in t.txs && t.txs[h] == s.txs[h])
    && (forall h :: h in s.fate ==> h in t.fate && t.fate[h] == s.fate[h])
    && s.signed <= t.signed
  }

  lemma OlderTransitive(a: Record, b: Record, c: Record)
    requires Older(a, b) && Older(b, c)
    ensures Older(a, c)
  {
  }

  lemma LaterTransitive(a: Bounty, b: Bounty, c: Bounty)
    requires Later(a, b) && Later(b, c)
    ensures Later(a, c)
  {
  }

  lemma ExtendsTransitive(s: System, t: System, u: System)
    requires Extends(s, t) && Extends(t, u)
    ensures Extends(s, u)
  {
    forall id | id in s.db ensures id in u.db && Older(s.db[id], u.db[id]) {
      OlderTransitive(s.db[id], t.db[id], u.db[id]);
    }
    forall id | id in s.chain.bounties
      ensures id in u.chain.bounties && Later(s.chain.bounties[id], u.chain.bounties[id])
    {
      LaterTransitive(s.chain.bounties[id], t.chain.bounties[id], u.chain.bounties[id]);
    }
  }

  lemma RecordStays(cfg: Config, s: System, t: System, id: u64, r: Record)
    requires Extends(s, t) && RecordOk(cfg, s, id, r)
    ensures RecordOk(cfg, t, id, r)
  {
    if id in s.chain.bounties {
      assert Later(s.chain.bounties[id], t.chain.bounties[id]);
    }
  }

  lemma HasPassStays(a: Record, b: Record, result: VerificationResult)
    requires Older(a, b) && HasPass(a, result)
    ensures HasPass(b, result)
  {
    var k :| 0 <= k < |a.verifications| && a.verifications[k].result == result;
    assert b.verifications[k] == a.verifications[k];
  }

  lemma PendingStays(cfg: Config, s: System, t: System, p: Pending)
    requires Extends(s, t) && PendingOk(cfg, s, p)
    ensures PendingOk(cfg, t, p)
  {
    assert Older(s.db[p.id], t.db[p.id]);
    if p.Passed? {
      HasPassStays(s.db[p.id], t.db[p.id], p.result);
    } else {
      OlderTransitive(p.loaded, s.db[p.id], t.db[p.id]);
      if p.FundingSeen? || p.AssignmentSeen? {
        LaterTransitive(p.seen, s.chain.bounties[p.id], t.chain.bounties[p.id]);
      }
    }
  }

  /** To keep the invariant a step has to extend the state and answer for what it adds. */
  lemma StepSuffices(cfg: Config, s: System, t: System)
    requires Core(cfg, s) && Extends(s, t)
    requires FateOk(t.chain.bounties, t.txs, t.fate)
    requires forall id :: id in t.db ==> (id in s.db && t.db[id] == s.db[id]) || RecordOk(cfg, t, id, t.db[id])
    requires forall req :: req in t.inflight ==>
               (req in s.inflight && t.inflight[req] == s.inflight[req]) || PendingOk(cfg, t, t.inflight[req])
    requires forall h :: h in t.txs ==> h in s.txs || TxOk(t, h)
    ensures Core(cfg, t)
  {
    forall id | id in t.db ensures RecordOk(cfg, t, id, t.db[id]) {
      if id in s.db && t.db[id] == s.db[id] { RecordStays(cfg, s, t, id, s.db[id]); }
    }
    forall req | req in t.inflight ensures PendingOk(cfg, t, t.inflight[req]) {
      if req in s.inflight && t.inflight[req] == s.inflight[req] { PendingStays(cfg, s, t, s.inflight[req]); }
    }
    forall h | h in t.txs ensures TxOk(t, h) {
      if h in s.txs {
        assert TxOk(s, h);
        HasPassStays(s.db[s.txs[h].id], t.db[s.txs[h].id], s.txs[h].result);
      }
    }
  }

  // ------------------------------------------------------------- the ledger's own steps

  lemma OutsidersCannotRelease(d: Deployment, s: State, e: Event, id: u64)
    requires Outside(d, e) && id in Escrow.Step(d, s, e).bounties
    requires Escrow.Step(d, s, e).bounties[id].status == Paid
    ensures id in s.bounties && s.bounties[id] == Escrow.Step(d, s, e).bounties[id]
  {
  }

  /** Bounties settled before stay settled the same way, and none is paid without a release. */
  lemma FateStays(before: map<u64, Bounty>, after: map<u64, Bounty>,
                  txs: map<string, ReleaseTx>, more: map<string, ReleaseTx>, fate: map<string, bool>)
    requires FateOk(before, txs, fate) && Grows(before, after)
    requires forall h :: h in txs ==> h in more && more[h] == txs[h]
    requires forall id :: id in after && after[id].status == Paid ==> id in before && before[id] == after[id]
    ensures FateOk(after, more, fate)
  {
    forall h | h in fate && fate[h] ensures after[more[h].id] == before[txs[h].id] {
      assert Later(before[txs[h].id], after[txs[h].id]);
    }
    forall id | id in after && after[id].status == Paid ensures ReleasedBySome(more, fate, id) {
      var h :| h in txs && h in fate && fate[h] && txs[h].id == id;
      assert more[h].id == id;
    }
  }

  lemma ReleasedStays(txs: map<string, ReleaseTx>, fate: map<string, bool>, more: map<string, bool>)
    requires forall h :: h in fate ==> h in more && more[h] == fate[h]
    ensures forall id :: ReleasedBySome(txs, fate, id) ==> ReleasedBySome(txs, more, id)
  {
    forall id | ReleasedBySome(txs, fate, id) ensures ReleasedBySome(txs, more, id) {
      var h :| h in txs && h in fate && fate[h] && txs[h].id == id;
      assert more[h];
    }
  }

  lemma FateOfFailure(bounties: map<u64, Bounty>, txs: map<string, ReleaseTx>, fate: map<string, bool>, h: string)
    requires FateOk(bounties, txs, fate) && h in txs && h !in fate
    ensures FateOk(bounties, txs, fate[h := false])
  {
    ReleasedStays(txs, fate, fate[h := false]);
  }

  /** A release only succeeds on an Assigned bounty, so no earlier one can have. */
  lemma FateOfSuccess(bounties: map<u64, Bounty>, txs: map<string, ReleaseTx>, fate: map<string, bool>,
                      h: string, paid: Bounty)
    requires FateOk(bounties, txs, fate) && h in txs && h !in fate
    requires txs[h].id in bounties && bounties[txs[h].id].status == Assigned
    requires paid.status == Paid && paid.evidenceHash == Some(txs[h].evidenceHash)
    ensures FateOk(bounties[txs[h].id := paid], txs, fate[h := true])
  {
    assert forall g :: g in fate && fate[g] ==> txs[g].id != txs[h].id;
    ReleasedStays(txs, fate, fate[h := true]);
    assert fate[h := true][h];
    assert ReleasedBySome(txs, fate[h := true], txs[h].id);
  }

  lemma LedgerKeepsFate(cfg: Config, s: System, e: Event)
    requires Outside(cfg.deployment, e) && Accounted(cfg.deployment, s.chain)
    requires FateOk(s.chain.bounties, s.txs, s.fate)
    ensures FateOk(Escrow.Step(cfg.deployment, s.chain, e).bounties, s.txs, s.fate)
    ensures Grows(s.chain.bounties, Escrow.Step(cfg.deployment, s.chain, e).bounties)
  {
    var after := Escrow.Step(cfg.deployment, s.chain, e).bounties;
    StepGrows(cfg.deployment, s.chain, e);
    forall id | id in after && after[id].status == Paid
      ensures id in s.chain.bounties && s.chain.bounties[id] == after[id]
    {
      OutsidersCannotRelease(cfg.deployment, s.chain, e, id);
    }
    FateStays(s.chain.bounties, after, s.txs, s.txs, s.fate);
  }

  /** A step that changes nothing but the chain and the fates. */
  lemma ChainStepKeeps(cfg: Config, s: System, t: System)
    requires Inv(cfg, s) && t == s.(chain := t.chain, fate := t.fate)
    requires Escrow.Inv(cfg.deployment, t.chain) && Grows(s.chain.bounties, t.chain.bounties)
    requires forall h :: h in s.fate ==> h in t.fate && t.fate[h] == s.fate[h]
    requires FateOk(t.chain.bounties, t.txs, t.fate)
    ensures Inv(cfg, t) && Extends(s, t)
  {
    StepSuffices(cfg, s, t);
  }

  lemma LedgerKeeps(cfg: Config, s: System, e: Event)
    requires Inv(cfg, s)
    ensures Inv(cfg, DoLedger(cfg, s, e)) && Extends(s, DoLedger(cfg, s, e))
  {
    if Outside(cfg.deployment, e) {
      StepKeepsInv(cfg.deployment, s.chain, e);
      LedgerKeepsFate(cfg, s, e);
    }
    ChainStepKeeps(cfg, s, DoLedger(cfg, s, e));
  }

  lemma ReleaseKeepsFate(cfg: Config, s: System, txHash: string)
    requires Escrow.Inv(cfg.deployment, s.chain) && FateOk(s.chain.bounties, s.txs, s.fate)
    requires txHash in s.txs && txHash !in s.fate
    ensures FateOk(DoInclude(cfg, s, txHash).chain.bounties, s.txs, DoInclude(cfg, s, txHash).fate)
    ensures Escrow.Inv(cfg.deployment, DoInclude(cfg, s, txHash).chain)
  {
    var d, tx := cfg.deployment, s.txs[txHash];
    var r := Release(d, s.chain, {d.verifier}, tx.id, tx.evidenceHash);
    ReleaseExactly(d, s.chain, {d.verifier}, tx.id, tx.evidenceHash);
    ReleaseKeepsInv(d, s.chain, {d.verifier}, tx.id, tx.evidenceHash);
    if r.outcome == Done {
      FateOfSuccess(s.chain.bounties, s.txs, s.fate, txHash, r.state.bounties[tx.id]);
      assert r.state.bounties == s.chain.bounties[tx.id := r.state.bounties[tx.id]];
    } else {
      FateOfFailure(s.chain.bounties, s.txs, s.fate, txHash);
    }
  }

  lemma ReleaseGrows(d: Deployment, s: State, id: u64, evidenceHash: Bytes32)
    requires Accounted(d, s)
    ensures Grows(s.bounties, Release(d, s, {d.verifier}, id, evidenceHash).state.bounties)
  {
    hide Transfer, Owed, PayoutsOf;
    var t := Release(d, s, {d.verifier}, id, evidenceHash).state;
    if id in s.bounties && t.bounties != s.bounties {
      assert t.bounties == s.bounties[id := t.bounties[id]];
      assert Later(s.bounties[id], t.bounties[id]);
    }
  }

  lemma IncludeShape(cfg: Config, s: System, txHash: string)
    requires Escrow.Inv(cfg.deployment, s.chain) && FateOk(s.chain.bounties, s.txs, s.fate)
    ensures var t := DoInclude(cfg, s, txHash);
            && t == s.(chain := t.chain, fate := t.fate)
            && Escrow.Inv(cfg.deployment, t.chain) && Grows(s.chain.bounties, t.chain.bounties)
            && FateOk(t.chain.bounties, t.txs, t.fate)
            && forall h :: h in s.fate ==> h in t.fate && t.fate[h] == s.fate[h]
  {
    if txHash in s.txs && txHash !in s.fate {
      ReleaseGrows(cfg.deployment, s.chain, s.txs[txHash].id, s.txs[txHash].evidenceHash);
      ReleaseKeepsFate(cfg, s, txHash);
    }
  }

  lemma IncludeKeeps(cfg: Config, s: System, txHash: string)
    requires Inv(cfg, s)
    ensures Inv(cfg, DoInclude(cfg, s, txHash)) && Extends(s, DoInclude(cfg, s, txHash))
  {
    IncludeShape(cfg, s, txHash);
    ChainStepKeeps(cfg, s, DoInclude(cfg, s, txHash));
  }

  // ------------------------------------------------------------- the backend's steps

  /** The state moved on and the ledger did not. */
  ghost predicate Backstage(s: System, t: System) {
    t.chain == s.chain && Extends(s, t)
  }

  lemma OlderReflexive(r: Record)
    ensures Older(r, r)
  {
  }

  /** Ending requests and replacing one record by a sound later one keeps everything. */
  lemma WriteKeeps(cfg: Config, s: System, id: u64, r: Record, inflight: map<nat, Pending>)
    requires Core(cfg, s) && id in s.db
    requires RecordOk(cfg, s, id, r) && Older(s.db[id], r)
    requires forall req :: req in inflight ==> req in s.inflight && inflight[req] == s.inflight[req]
    ensures var t := s.(db := s.db[id := r], inflight := inflight); Core(cfg, t) && Backstage(s, t)
  {
    hide Lags, PayoutIsReal, Bound, PendingOk, TxOk, FateOk;
    var t := s.(db := s.db[id := r], inflight := inflight);
    forall j | j in s.db ensures j in t.db && Older(s.db[j], t.db[j]) {
      OlderReflexive(s.db[j]);
    }
    assert Grows(s.chain.bounties, t.chain.bounties);
    assert RecordOk(cfg, t, id, r);
    StepSuffices(cfg, s, t);
  }

  lemma FinishKeeps(cfg: Config, s: System, req: nat, id: u64, loaded: Record, want: Record)
    requires Core(cfg, s) && id in s.db && loaded.verifications <= want.verifications
    requires var r := Commit(loaded, want, s.db[id]);
             r.Some? ==> RecordOk(cfg, s, id, r.value) && Older(s.db[id], r.value)
    ensures var t := Finish(s, req, id, loaded, want); Core(cfg, t) && Backstage(s, t)
  {
    var r := Commit(loaded, want, s.db[id]);
    if r.Some? {
      WriteKeeps(cfg, s, id, r.value, s.inflight - {req});
    } else {
      OlderReflexive(s.db[id]);
      WriteKeeps(cfg, s, id, s.db[id], s.inflight - {req});
      assert s.db[id := s.db[id]] == s.db;
    }
  }

  lemma FundingIsSound(cfg: Config, s: System, p: Pending, baseSha: string)
    requires p.FundingSeen? && PendingOk(cfg, s, p) && RecordOk(cfg, s, p.id, s.db[p.id])
    ensures var r := Commit(p.loaded, Funded(p.loaded, p.seen, p.txHash, baseSha), s.db[p.id]);
            r.Some? && RecordOk(cfg, s, p.id, r.value) && Older(s.db[p.id], r.value)
  {
    var cur := s.db[p.id];
    var r := Commit(p.loaded, Funded(p.loaded, p.seen, p.txHash, baseSha), cur).value;
    BytesOfHexOf(p.seen.criteriaHash);
    assert r.verifications == cur.verifications;
    assert r.row.status == OPEN_FUNDED;
    assert r.row.clientWallet == Some(p.seen.client);
  }

  lemma AssignmentIsSound(cfg: Config, s: System, p: Pending)
    requires p.AssignmentSeen? && PendingOk(cfg, s, p) && RecordOk(cfg, s, p.id, s.db[p.id])
    ensures var r := Commit(p.loaded, Accepted(p.loaded, p.seen, p.github), s.db[p.id]);
            r.Some? && RecordOk(cfg, s, p.id, r.value) && Older(s.db[p.id], r.value)
  {
    var cur := s.db[p.id];
    var r := Commit(p.loaded, Accepted(p.loaded, p.seen, p.github), cur).value;
    assert r.verifications == cur.verifications;
    assert r.row.status == ASSIGNED;
    assert r.row.developerWallet == Some(p.wallet);
    assert r.row.developerGithub == Some(p.github) || r.row.developerGithub == cur.row.developerGithub;
  }

  /** A commit that only moves the status of a staffed row, and its pull request, is sound. */
  lemma ProgressIsSound(cfg: Config, s: System, id: u64, loaded: Record, want: Record)
    requires id in s.db && Older(loaded, s.db[id]) && RecordOk(cfg, s, id, s.db[id])
    requires Staffed(loaded.row) && loaded.verifications <= want.verifications
    requires want.row == loaded.row.(status := want.row.status, pullRequestNumber := want.row.pullRequestNumber)
    requires WithDeveloper(want.row.status) && (want.row.status == PAID ==> want.row.status == loaded.row.status)
    requires want.submission.Some?
    requires loaded.submission.Some? ==> want.submission.value.url == loaded.submission.value.url
    ensures var r := Commit(loaded, want, s.db[id]);
            r.Some? ==> RecordOk(cfg, s, id, r.value) && Older(s.db[id], r.value)
  {
  }

  lemma PayoutIsSound(cfg: Config, s: System, p: Pending)
    requires p.Releasing? && PendingOk(cfg, s, p) && RecordOk(cfg, s, p.id, s.db[p.id])
    requires FateOk(s.chain.bounties, s.txs, s.fate)
    requires p.txHash in s.fate && s.fate[p.txHash]
    ensures var r := Commit(p.loaded, PaidBy(p.loaded, p.txHash), s.db[p.id]);
            r.Some? ==> RecordOk(cfg, s, p.id, r.value) && Older(s.db[p.id], r.value)
  {
    var cur := s.db[p.id];
    if cur.row.releaseTx.Some? {
      assert cur.row.releaseTx == Some(p.txHash);
    }
  }

  /** A new entry for a request that is not in flight, or the next stage of one that is. */
  lemma StageKeeps(cfg: Config, s: System, req: nat, p: Pending)
    requires Core(cfg, s) && PendingOk(cfg, s, p)
    ensures var t := s.(inflight := s.inflight[req := p]); Core(cfg, t) && Backstage(s, t)
  {
    hide RecordOk, PendingOk, TxOk, FateOk;
    var t := s.(inflight := s.inflight[req := p]);
    forall j | j in s.db ensures Older(s.db[j], t.db[j]) {
      OlderReflexive(s.db[j]);
    }
    assert Grows(s.chain.bounties, t.chain.bounties);
    PendingStays(cfg, s, t, p);
    StepSuffices(cfg, s, t);
  }

  lemma AdmittedIsOk(cfg: Config, s: System, q: Request)
    requires q.id in s.db && RecordOk(cfg, s, q.id, s.db[q.id])
    requires Admit(cfg, s.db[q.id], q).Some?
    ensures PendingOk(cfg, s, Admit(cfg, s.db[q.id], q).value)
  {
    OlderReflexive(s.db[q.id]);
  }

  lemma CoreHolds(cfg: Config, s: System, id: u64)
    requires Core(cfg, s) && id in s.db
    ensures RecordOk(cfg, s, id, s.db[id])
  {
  }

  lemma BeginKeeps(cfg: Config, s: System, req: nat, q: Request)
    requires Core(cfg, s)
    ensures Core(cfg, DoBegin(cfg, s, req, q)) && Backstage(s, DoBegin(cfg, s, req, q))
  {
    hide Core, RecordOk, PendingOk, Admit;
    if req !in s.inflight && q.id in s.db && Admit(cfg, s.db[q.id], q).Some? {
      assert RecordOk(cfg, s, q.id, s.db[q.id]) by { CoreHolds(cfg, s, q.id); }
      AdmittedIsOk(cfg, s, q);
      StageKeeps(cfg, s, req, Admit(cfg, s.db[q.id], q).value);
    } else {
      NothingKeeps(cfg, s);
    }
  }

  lemma NothingKeeps(cfg: Config, s: System)
    requires Core(cfg, s)
    ensures Extends(s, s)
  {
    forall j | j in s.db ensures Older(s.db[j], s.db[j]) {
      OlderReflexive(s.db[j]);
    }
  }

  lemma ReadIsOk(cfg: Config, s: System, req: nat)
    requires req in s.inflight && PendingOk(cfg, s, s.inflight[req])
    requires DoReadChain(cfg, s, req) != s
    ensures DoReadChain(cfg, s, req) == s.(inflight := s.inflight[req := DoReadChain(cfg, s, req).inflight[req]])
    ensures PendingOk(cfg, s, DoReadChain(cfg, s, req).inflight[req])
  {
  }

  lemma ReadChainKeeps(cfg: Config, s: System, req: nat)
    requires Core(cfg, s)
    ensures Core(cfg, DoReadChain(cfg, s, req)) && Backstage(s, DoReadChain(cfg, s, req))
  {
    if DoReadChain(cfg, s, req) != s {
      ReadIsOk(cfg, s, req);
      StageKeeps(cfg, s, req, DoReadChain(cfg, s, req).inflight[req]);
    } else {
      NothingKeeps(cfg, s);
    }
  }

  lemma CommitFundingKeeps(cfg: Config, s: System, req: nat, baseSha: string)
    requires Core(cfg, s)
    ensures Core(cfg, DoCommitFunding(s, req, baseSha)) && Backstage(s, DoCommitFunding(s, req, baseSha))
  {
    if req in s.inflight && s.inflight[req].FundingSeen? {
      var p := s.inflight[req];
      FundingIsSound(cfg, s, p, baseSha);
      FinishKeeps(cfg, s, req, p.id, p.loaded, Funded(p.loaded, p.seen, p.txHash, baseSha));
    } else {
      NothingKeeps(cfg, s);
    }
  }

  lemma CommitAssignmentKeeps(cfg: Config, s: System, req: nat)
    requires Core(cfg, s)
    ensures Core(cfg, DoCommitAssignment(s, req)) && Backstage(s, DoCommitAssignment(s, req))
  {
    if req in s.inflight && s.inflight[req].AssignmentSeen? {
      var p := s.inflight[req];
      AssignmentIsSound(cfg, s, p);
      FinishKeeps(cfg, s, req, p.id, p.loaded, Accepted(p.loaded, p.seen, p.github));
    } else {
      NothingKeeps(cfg, s);
    }
  }

  lemma SubmitShape(cfg: Config, r: Record, url: string, seen: Snapshot)
    requires Staffed(r.row) && Submit(cfg, r, url, Ok(seen)).Ok?
    ensures var want := Submit(cfg, r, url, Ok(seen)).value;
            && want.row == r.row.(status := SUBMITTED, pullRequestNumber := want.row.pullRequestNumber)
            && want.submission.Some? && want.verifications == r.verifications
  {
  }

  lemma CommitSubmissionShape(cfg: Config, s: System, req: nat, seen: Snapshot)
    requires DoCommitSubmission(cfg, s, req, seen) != s
    ensures req in s.inflight && s.inflight[req].SubmissionLoaded?
    ensures var p := s.inflight[req];
            && p.loaded.row.baseSha.Some? && p.loaded.row.developerGithub.Some?
            && Submit(cfg, p.loaded, p.url, Ok(seen)).Ok?
            && var want := Submit(cfg, p.loaded, p.url, Ok(seen)).value;
               want.submission.Some? && want.verifications == p.loaded.verifications
               && DoCommitSubmission(cfg, s, req, seen) == Finish(s, req, p.id, p.loaded, want)
  {
  }

  lemma CommitSubmissionKeeps(cfg: Config, s: System, req: nat, seen: Snapshot)
    requires Core(cfg, s)
    ensures Core(cfg, DoCommitSubmission(cfg, s, req, seen)) && Backstage(s, DoCommitSubmission(cfg, s, req, seen))
  {
    if DoCommitSubmission(cfg, s, req, seen) != s {
      CommitSubmissionShape(cfg, s, req, seen);
      var p := s.inflight[req];
      SubmitShape(cfg, p.loaded, p.url, seen);
      var want := Submit(cfg, p.loaded, p.url, Ok(seen)).value;
      ProgressIsSound(cfg, s, p.id, p.loaded, want);
      FinishKeeps(cfg, s, req, p.id, p.loaded, want);
    } else {
      NothingKeeps(cfg, s);
    }
  }

  lemma JudgeShape(cfg: Config, r: Record, seen: Snapshot)
    requires Staffed(r.row) && r.submission.Some? && Judge(cfg, r, Ok(seen)).Ok?
    ensures var want := Judge(cfg, r, Ok(seen)).value;
            && want.row == r.row.(status := want.row.status, pullRequestNumber := want.row.pullRequestNumber)
            && want.verifications == r.verifications + [Last(want)]
            && want.row.status == StatusAfter(Last(want).result.status)
            && want.submission.Some? && want.submission.value.url == r.submission.value.url
  {
  }

  lemma CommitAppends(loaded: Record, want: Record, current: Record, v: Verification)
    requires want.verifications == loaded.verifications + [v]
    requires loaded.submission.Some? && Older(loaded, current)
    ensures var r := Commit(loaded, want, current);
            r.Some? && r.value.verifications == current.verifications + [v]
  {
  }

  lemma CommitVerdictShape(cfg: Config, s: System, req: nat, seen: Snapshot)
    requires DoCommitVerdict(cfg, s, req, seen) != s
    ensures req in s.inflight && s.inflight[req].VerificationLoaded?
    ensures var p := s.inflight[req];
            && p.loaded.submission.Some? && p.loaded.row.baseSha.Some? && p.loaded.row.developerGithub.Some?
            && Judge(cfg, p.loaded, Ok(seen)).Ok?
            && var want := Judge(cfg, p.loaded, Ok(seen)).value;
               want.submission.Some? && want.verifications != []
               && want.verifications == p.loaded.verifications + [Last(want)]
               && DoCommitVerdict(cfg, s, req, seen) == AfterVerdict(s, req, p.id, p.loaded, want)
  {
  }

  lemma CommitVerdictKeeps(cfg: Config, s: System, req: nat, seen: Snapshot)
    requires Core(cfg, s)
    ensures Core(cfg, DoCommitVerdict(cfg, s, req, seen)) && Backstage(s, DoCommitVerdict(cfg, s, req, seen))
  {
    if DoCommitVerdict(cfg, s, req, seen) != s {
      CommitVerdictShape(cfg, s, req, seen);
      var p := s.inflight[req];
      JudgeShape(cfg, p.loaded, seen);
      var want := Judge(cfg, p.loaded, Ok(seen)).value;
      ProgressIsSound(cfg, s, p.id, p.loaded, want);
      FinishKeeps(cfg, s, req, p.id, p.loaded, want);
      CommitAppends(p.loaded, want, s.db[p.id], Last(want));
      VerdictStageKeeps(cfg, s, req, p, want);
    } else {
      NothingKeeps(cfg, s);
    }
  }

  /** After commit #1 of a PASS the request goes on to the payout. */
  lemma VerdictStageKeeps(cfg: Config, s: System, req: nat, p: Pending, want: Record)
    requires p.VerificationLoaded? && PendingOk(cfg, s, p)
    requires p.loaded.verifications <= want.verifications && want.verifications != []
    requires var r := Commit(p.loaded, want, s.db[p.id]);
             r.Some? && Older(s.db[p.id], r.value) && r.value.verifications == s.db[p.id].verifications + [Last(want)]
    requires var t := Finish(s, req, p.id, p.loaded, want); Core(cfg, t) && Backstage(s, t)
    ensures var u := AfterVerdict(s, req, p.id, p.loaded, want); Core(cfg, u) && Backstage(s, u)
  {
    hide RecordOk, TxOk, FateOk;
    if Last(want).result.status == PASS {
      var t := Finish(s, req, p.id, p.loaded, want);
      var r := t.db[p.id];
      assert r.verifications[|r.verifications| - 1].result == Last(want).result;
      assert HasPass(r, Last(want).result);
      StageKeeps(cfg, t, req, Passed(p.id, Last(want).result));
      ExtendsTransitive(s, t, AfterVerdict(s, req, p.id, p.loaded, want));
    }
  }

  /** A release built from a stored PASS is in order, and so is the request that waits for it. */
  lemma BuiltIsOk(cfg: Config, s: System, p: Pending, txHash: string)
    requires Core(cfg, s) && p.Passed? && PendingOk(cfg, s, p) && HasFacts(s.db[p.id])
    requires txHash in s.txs ==> s.txs[txHash] == BuildRelease(cfg, p.id, s.db[p.id], p.result)
    ensures var t := s.(txs := s.txs[txHash := BuildRelease(cfg, p.id, s.db[p.id], p.result)]);
            Core(cfg, t) && Backstage(s, t) && PendingOk(cfg, t, Releasing(p.id, s.db[p.id], txHash))
  {
    hide Core, EvidenceText, Backstage;
    SendTxKeeps(cfg, s, txHash, BuildRelease(cfg, p.id, s.db[p.id], p.result));
    OlderReflexive(s.db[p.id]);
  }

  lemma SendReleaseKeeps(cfg: Config, s: System, req: nat, txHash: string)
    requires Core(cfg, s)
    ensures Core(cfg, DoSendRelease(cfg, s, req, txHash)) && Backstage(s, DoSendRelease(cfg, s, req, txHash))
  {
    if DoSendRelease(cfg, s, req, txHash) == s {
      NothingKeeps(cfg, s);
    } else {
      assert PendingOk(cfg, s, s.inflight[req]);
      hide Core, PendingOk, BuildRelease, HasFacts, Extends;
      var p := s.inflight[req];
      BuiltIsOk(cfg, s, p, txHash);
      var t := s.(txs := s.txs[txHash := BuildRelease(cfg, p.id, s.db[p.id], p.result)]);
      StageKeeps(cfg, t, req, Releasing(p.id, s.db[p.id], txHash));
      ExtendsTransitive(s, t, DoSendRelease(cfg, s, req, txHash));
    }
  }

  lemma SendTxKeeps(cfg: Config, s: System, txHash: string, tx: ReleaseTx)
    requires Core(cfg, s) && (txHash in s.txs ==> s.txs[txHash] == tx)
    requires tx.id in s.db && HasPass(s.db[tx.id], tx.result) && SpeaksOf(tx.facts, tx.id, s.db[tx.id])
    ensures var t := s.(txs := s.txs[txHash := tx]); Core(cfg, t) && Backstage(s, t)
  {
    hide RecordOk, PendingOk, FateOk, SpeaksOf, HasPass;
    var t := s.(txs := s.txs[txHash := tx]);
    NothingKeeps(cfg, s);
    FateStays(s.chain.bounties, s.chain.bounties, s.txs, t.txs, s.fate);
    StepSuffices(cfg, s, t);
  }

  lemma CommitPaidKeeps(cfg: Config, s: System, req: nat)
    requires Core(cfg, s)
    ensures Core(cfg, DoCommitPaid(s, req)) && Backstage(s, DoCommitPaid(s, req))
  {
    if req in s.inflight && s.inflight[req].Releasing?
       && s.inflight[req].txHash in s.fate && s.fate[s.inflight[req].txHash] {
      var p := s.inflight[req];
      PayoutIsSound(cfg, s, p);
      FinishKeeps(cfg, s, req, p.id, p.loaded, PaidBy(p.loaded, p.txHash));
    } else {
      NothingKeeps(cfg, s);
    }
  }

  lemma NewDraftKeeps(cfg: Config, s: System, id: u64, r: Record)
    requires Core(cfg, s) && id !in s.db && Draft(r)
    ensures var t := s.(db := s.db[id := r]); Core(cfg, t) && Backstage(s, t)
  {
    NothingKeeps(cfg, s);
    var t := s.(db := s.db[id := r]);
    assert RecordOk(cfg, t, id, r);
    StepSuffices(cfg, s, t);
  }

  lemma CreateTaskKeeps(cfg: Config, s: System, id: u64, wallet: Address, form: Form)
    requires Core(cfg, s)
    ensures Core(cfg, DoCreate(cfg, s, id, wallet, form)) && Backstage(s, DoCreate(cfg, s, id, wallet, form))
  {
    if id !in s.db && FormValid(form) {
      NewDraftKeeps(cfg, s, id, Created(cfg, wallet, form));
    } else {
      NothingKeeps(cfg, s);
    }
  }

  lemma MinorStepKeeps(cfg: Config, s: System, t: System)
    requires Core(cfg, s) && s.signed <= t.signed
    requires t == s.(signed := t.signed, inflight := t.inflight)
    requires forall req :: req in t.inflight ==> req in s.inflight && t.inflight[req] == s.inflight[req]
    ensures Core(cfg, t) && Backstage(s, t)
  {
    NothingKeeps(cfg, s);
    StepSuffices(cfg, s, t);
  }

  lemma StepKeeps(cfg: Config, s: System, a: Action)
    requires Inv(cfg, s)
    ensures Inv(cfg, Step(cfg, s, a)) && Extends(s, Step(cfg, s, a))
  {
    hide Core, Extends, Escrow.Inv, DoLedger, DoCreate, DoBegin, DoReadChain, DoCommitFunding, DoCommitAssignment,
      DoCommitSubmission, DoCommitVerdict, DoSendRelease, DoInclude, DoCommitPaid;
    match a
    case Ledger(e) => LedgerKeeps(cfg, s, e);
    case Sign(wallet, message) => MinorStepKeeps(cfg, s, Step(cfg, s, a));
    case CreateTask(id, wallet, form) => CreateTaskKeeps(cfg, s, id, wallet, form);
    case Begin(req, q) => BeginKeeps(cfg, s, req, q);
    case ReadChain(req) => ReadChainKeeps(cfg, s, req);
    case CommitFunding(req, baseSha) => CommitFundingKeeps(cfg, s, req, baseSha);
    case CommitAssignment(req) => CommitAssignmentKeeps(cfg, s, req);
    case CommitSubmission(req, seen) => CommitSubmissionKeeps(cfg, s, req, seen);
    case CommitVerdict(req, seen) => CommitVerdictKeeps(cfg, s, req, seen);
    case SendRelease(req, txHash) => SendReleaseKeeps(cfg, s, req, txHash);
    case Include(txHash) => IncludeKeeps(cfg, s, txHash);
    case CommitPaid(req) => CommitPaidKeeps(cfg, s, req);
    case Drop(req) => MinorStepKeeps(cfg, s, Step(cfg, s, a));
  }

  lemma {:induction false} RunKeeps(cfg: Config, s: System, actions: seq<Action>)
    requires Inv(cfg, s)
    ensures Inv(cfg, Run(cfg, s, actions)) && Extends(s, Run(cfg, s, actions))
    decreases |actions|
  {
    if actions == [] {
      NothingKeeps(cfg, s);
    } else {
      var t := Step(cfg, s, actions[0]);
      StepKeeps(cfg, s, actions[0]);
      RunKeeps(cfg, t, actions[1..]);
      ExtendsTransitive(s, t, Run(cfg, s, actions));
    }
  }

  lemma InitialIsInv(cfg: Config, s: System)
    requires Initial(cfg, s)
    ensures Inv(cfg, s)
  {
    DeployedIsInv(cfg.deployment, s.chain);
  }

  // ------------------------------------------------------------- theorems over every run

  ghost predicate AllEvidenced(cfg: Config, txs: map<string, ReleaseTx>) {
    forall h :: h in txs ==> Evidenced(cfg, txs[h])
  }

  lemma SendIsEvidenced(cfg: Config, s: System, req: nat, txHash: string)
    requires AllEvidenced(cfg, s.txs)
    ensures AllEvidenced(cfg, DoSendRelease(cfg, s, req, txHash).txs)
  {
    var t := DoSendRelease(cfg, s, req, txHash);
    if t != s {
      var p := s.inflight[req];
      assert t.txs == s.txs[txHash := BuildRelease(cfg, p.id, s.db[p.id], p.result)];
    }
  }

  lemma OnlySendingAddsTransactions(cfg: Config, s: System, a: Action)
    requires !a.SendRelease?
    ensures Step(cfg, s, a).txs == s.txs
  {
  }

  lemma StepKeepsEvidence(cfg: Config, s: System, a: Action)
    requires AllEvidenced(cfg, s.txs)
    ensures AllEvidenced(cfg, Step(cfg, s, a).txs)
  {
    if a.SendRelease? {
      SendIsEvidenced(cfg, s, a.req, a.txHash);
    } else {
      OnlySendingAddsTransactions(cfg, s, a);
    }
  }

  lemma {:induction false} RunKeepsEvidence(cfg: Config, s: System, actions: seq<Action>)
    requires AllEvidenced(cfg, s.txs)
    ensures AllEvidenced(cfg, Run(cfg, s, actions).txs)
    decreases |actions|
  {
    if actions != [] {
      StepKeepsEvidence(cfg, s, actions[0]);
      RunKeepsEvidence(cfg, Step(cfg, s, actions[0]), actions[1..]);
    }
  }

  lemma RunFromStart(cfg: Config, start: System, actions: seq<Action>)
    requires Initial(cfg, start)
    ensures Inv(cfg, Run(cfg, start, actions))
  {
    InitialIsInv(cfg, start);
    RunKeeps(cfg, start, actions);
  }

  /**
   The backend never runs ahead of the chain, in any interleaving of any requests,
   with time, chain calls and crashes anywhere.
   */
  lemma BackendNeverRunsAhead(cfg: Config, start: System, actions: seq<Action>, id: u64)
    requires Initial(cfg, start) && id in Run(cfg, start, actions).db
    ensures var s := Run(cfg, start, actions); var row := s.db[id].row;
            && Lags(s.chain.bounties, id, row)
            && (row.status == PAID ==> s.chain.bounties[id].status == Paid)
            && (row.releaseTx.Some? ==> row.releaseTx.value in s.fate && s.fate[row.releaseTx.value])
  {
    RunFromStart(cfg, start, actions);
    var s := Run(cfg, start, actions);
    assert RecordOk(cfg, s, id, s.db[id]);
  }

  /** A verification in the record justifies the hash the contract stores. */
  ghost predicate Justified(cfg: Config, b: Bounty, id: u64, r: Record) {
    exists facts, result :: SpeaksOf(facts, id, r) && HasPass(r, result)
      && b.evidenceHash == Some(cfg.sha(EvidenceText(facts, result)))
  }

  lemma Justify(cfg: Config, s: System, h: string)
    requires h in s.txs && TxOk(s, h) && Evidenced(cfg, s.txs[h]) && s.txs[h].id in s.chain.bounties
    requires s.chain.bounties[s.txs[h].id].evidenceHash == Some(s.txs[h].evidenceHash)
    ensures Justified(cfg, s.chain.bounties[s.txs[h].id], s.txs[h].id, s.db[s.txs[h].id])
  {
  }

  /** Every bounty paid on chain was paid on a PASS that the database holds, PAID row or not. */
  lemma PaidCarriesCommittedEvidence(cfg: Config, start: System, actions: seq<Action>, id: u64)
    requires Initial(cfg, start)
    requires var s := Run(cfg, start, actions); id in s.chain.bounties && s.chain.bounties[id].status == Paid
    ensures var s := Run(cfg, start, actions);
            id in s.db && Justified(cfg, s.chain.bounties[id], id, s.db[id])
  {
    RunFromStart(cfg, start, actions);
    RunKeepsEvidence(cfg, start, actions);
    var s := Run(cfg, start, actions);
    assert ReleasedBySome(s.txs, s.fate, id);
    var h :| h in s.txs && h in s.fate && s.fate[h] && s.txs[h].id == id;
    assert TxOk(s, h);
    Justify(cfg, s, h);
  }

  predicate Released(s: System, h: string, id: u64) {
    h in s.txs && h in s.fate && s.fate[h] && s.txs[h].id == id
  }

  /** At most one release transaction of a bounty ever succeeds. */
  ghost predicate SingleRelease(s: System, id: u64) {
    forall g, h :: Released(s, g, id) && Released(s, h, id) ==> g == h
  }

  lemma RecordedPayout(cfg: Config, s: System, id: u64)
    requires Inv(cfg, s) && id in s.db
    ensures |PayoutsOf(s.chain.payouts, id)| <= 1
    ensures s.db[id].row.releaseTx.Some? ==>
              && s.db[id].row.developerWallet.Some?
              && PayoutsOf(s.chain.payouts, id)
                 == [Payout(id, s.db[id].row.developerWallet.value, s.db[id].row.amount)]
  {
    assert RecordOk(cfg, s, id, s.db[id]);
    if id in s.chain.bounties {
      assert PayoutsOf(s.chain.payouts, id) == Owed(id, s.chain.bounties[id]);
    } else {
      PayoutsOfNothing(s.chain.payouts, id);
    }
  }

  /** What a state `t` reached from `s` says about the payout of a bounty. */
  ghost predicate PayoutIsFinal(s: System, t: System, id: u64)
    requires id in s.db
  {
    && id in t.db
    && |PayoutsOf(t.chain.payouts, id)| <= 1
    && SingleRelease(t, id)
    && (s.db[id].row.releaseTx.Some? ==>
          && t.db[id].row.releaseTx == s.db[id].row.releaseTx
          && Released(t, s.db[id].row.releaseTx.value, id)
          && s.db[id].row.developerWallet.Some?
          && PayoutsOf(t.chain.payouts, id)
             == [Payout(id, s.db[id].row.developerWallet.value, s.db[id].row.amount)])
  }

  lemma PayoutStays(cfg: Config, s: System, t: System, id: u64)
    requires id in s.db && RecordOk(cfg, s, id, s.db[id])
    requires Inv(cfg, t) && Extends(s, t)
    ensures PayoutIsFinal(s, t, id)
  {
    assert Older(s.db[id], t.db[id]);
    RecordedPayout(cfg, t, id);
    assert RecordOk(cfg, t, id, t.db[id]);
  }

  /**
   However often the release is attempted, by however many requests at once, the
   developer is paid at most once; and a recorded release hash is the one successful
   release and stays recorded.
   */
  lemma PaidAtMostOnce(cfg: Config, start: System, before: seq<Action>, after: seq<Action>, id: u64)
    requires Initial(cfg, start) && id in Run(cfg, start, before).db
    ensures PayoutIsFinal(Run(cfg, start, before), Run(cfg, Run(cfg, start, before), after), id)
  {
    RunFromStart(cfg, start, before);
    RunKeeps(cfg, Run(cfg, start, before), after);
    PayoutStays(cfg, Run(cfg, start, before), Run(cfg, Run(cfg, start, before), after), id);
  }
}
