/**
 The escrow contract as functions on one ledger state: the clock, the token's
 balances and the contract's persistent map of bounties. `donated` and `payouts`
 are history: what outsiders sent to the escrow address, and what the contract
 paid out for which bounty.
 */
module Escrow {
  import opened Wrappers
  import opened Sums

  /** A Stellar address: a `G...` account or a `C...` contract. */
  datatype Address = Account(key: nat) | Contract(key: nat)

  datatype BountyStatus = Open | Assigned | Paid | Cancelled | Refunded

  datatype Bounty = Bounty(
    client: Address,
    developer: Option<Address>,
    amount: i128,
    criteriaHash: Bytes32,
    evidenceHash: Option<Bytes32>,
    deadline: u64,
    status: BountyStatus)

  datatype Error =
    | InvalidAmount
    | BountyAlreadyExists
    | BountyNotFound
    | InvalidStatus
    | DeadlinePassed
    | DeadlineNotReached

  /** `Trapped` is a host trap: a missing signature or a transfer the token refuses. */
  datatype Outcome = Done | Failed(error: Error) | Trapped

  datatype Deployment = Deployment(self: Address, verifier: Address)

  datatype Payout = Payout(id: u64, to: Address, amount: int)

  datatype State = State(
    now: u64,
    balances: map<Address, int>,
    bounties: map<u64, Bounty>,
    donated: int,
    payouts: seq<Payout>)

  datatype Invoked = Invoked(state: State, outcome: Outcome)

  // ---------------------------------------------------------------- the token

  /** The token's checked transfer: no overdraft, no balance above i128. */
  function Transfer(balances: map<Address, int>, from: Address, to: Address, amount: int)
    : Option<map<Address, int>>
  {
    if amount < 0 || GetOrZero(balances, from) < amount then None
    else
      var taken := balances[from := GetOrZero(balances, from) - amount];
      if GetOrZero(taken, to) + amount > I128_MAX then None
      else Some(taken[to := GetOrZero(taken, to) + amount])
  }

  // ------------------------------------------------------------- entry points

  function Create(d: Deployment, s: State, signers: set<Address>, id: u64, client: Address,
                  amount: i128, criteriaHash: Bytes32, deadline: u64): Invoked
  {
    if client !in signers then Invoked(s, Trapped)
    else if amount <= 0 then Invoked(s, Failed(InvalidAmount))
    else if deadline <= s.now then Invoked(s, Failed(DeadlinePassed))
    else if id in s.bounties then Invoked(s, Failed(BountyAlreadyExists))
    else
      match Transfer(s.balances, client, d.self, amount)
      case None => Invoked(s, Trapped)
      case Some(moved) =>
        var bounty := Bounty(client, None, amount, criteriaHash, None, deadline, Open);
        Invoked(s.(balances := moved, bounties := s.bounties[id := bounty]), Done)
  }

  function Accept(d: Deployment, s: State, signers: set<Address>, id: u64, developer: Address): Invoked {
    if developer !in signers then Invoked(s, Trapped)
    else if id !in s.bounties then Invoked(s, Failed(BountyNotFound))
    else if s.bounties[id].status != Open then Invoked(s, Failed(InvalidStatus))
    else if s.now > s.bounties[id].deadline then Invoked(s, Failed(DeadlinePassed))
    else
      var bounty := s.bounties[id].(developer := Some(developer), status := Assigned);
      Invoked(s.(bounties := s.bounties[id := bounty]), Done)
  }

  /** Transfer out of the escrow, then store the closed bounty. */
  function PayOut(d: Deployment, s: State, id: u64, to: Address, closed: Bounty): Invoked
    requires id in s.bounties
  {
    var amount := s.bounties[id].amount;
    match Transfer(s.balances, d.self, to, amount)
    case None => Invoked(s, Trapped)
    case Some(moved) =>
      Invoked(s.(balances := moved, bounties := s.bounties[id := closed],
                 payouts := s.payouts + [Payout(id, to, amount)]), Done)
  }

  function Release(d: Deployment, s: State, signers: set<Address>, id: u64, evidenceHash: Bytes32): Invoked {
    if d.verifier !in signers then Invoked(s, Trapped)
    else if id !in s.bounties then Invoked(s, Failed(BountyNotFound))
    else if s.bounties[id].status != Assigned then Invoked(s, Failed(InvalidStatus))
    else if s.now > s.bounties[id].deadline then Invoked(s, Failed(DeadlinePassed))
    else if s.bounties[id].developer.None? then Invoked(s, Failed(InvalidStatus))
    else
      PayOut(d, s, id, s.bounties[id].developer.value,
             s.bounties[id].(evidenceHash := Some(evidenceHash), status := Paid))
  }

  function CancelOpen(d: Deployment, s: State, signers: set<Address>, id: u64): Invoked {
    if id !in s.bounties then Invoked(s, Failed(BountyNotFound))
    else if s.bounties[id].client !in signers then Invoked(s, Trapped)
    else if s.bounties[id].status != Open then Invoked(s, Failed(InvalidStatus))
    else if s.now > s.bounties[id].deadline then Invoked(s, Failed(DeadlinePassed))
    else PayOut(d, s, id, s.bounties[id].client, s.bounties[id].(status := Cancelled))
  }

  function RefundExpired(d: Deployment, s: State, signers: set<Address>, id: u64): Invoked {
    if id !in s.bounties then Invoked(s, Failed(BountyNotFound))
    else if s.bounties[id].client !in signers then Invoked(s, Trapped)
    else if s.bounties[id].status != Open && s.bounties[id].status != Assigned then
      Invoked(s, Failed(InvalidStatus))
    else if s.now <= s.bounties[id].deadline then Invoked(s, Failed(DeadlineNotReached))
    else PayOut(d, s, id, s.bounties[id].client, s.bounties[id].(status := Refunded))
  }

  // ------------------------------------------------------------- runs of the ledger

  datatype Event =
    | CreateBounty(signers: set<Address>, id: u64, client: Address, amount: i128,
                   criteriaHash: Bytes32, deadline: u64)
    | AcceptBounty(signers: set<Address>, id: u64, developer: Address)
    | ReleaseBounty(signers: set<Address>, id: u64, evidenceHash: Bytes32)
    | CancelOpenBounty(signers: set<Address>, id: u64)
    | RefundExpiredBounty(signers: set<Address>, id: u64)
    /** A token transfer that does not go through the contract. */
    | Send(signers: set<Address>, from: Address, to: Address, value: int)
    | Advance(seconds: nat)

  /** Nobody can sign for the contract's own address. */
  predicate Signable(d: Deployment, e: Event) {
    e.Advance? || d.self !in e.signers
  }

  function Apply(d: Deployment, s: State, e: Event): Invoked {
    match e
    case CreateBounty(signers, id, client, amount, criteriaHash, deadline) =>
      Create(d, s, signers, id, client, amount, criteriaHash, deadline)
    case AcceptBounty(signers, id, developer) => Accept(d, s, signers, id, developer)
    case ReleaseBounty(signers, id, evidenceHash) => Release(d, s, signers, id, evidenceHash)
    case CancelOpenBounty(signers, id) => CancelOpen(d, s, signers, id)
    case RefundExpiredBounty(signers, id) => RefundExpired(d, s, signers, id)
    case Send(signers, from, to, amount) =>
      if from !in signers then Invoked(s, Trapped)
      else (
        match Transfer(s.balances, from, to, amount)
        case None => Invoked(s, Trapped)
        case Some(moved) =>
          Invoked(s.(balances := moved, donated := s.donated + if to == d.self then amount else 0), Done))
    case Advance(seconds) =>
      if s.now + seconds > U64_MAX then Invoked(s, Trapped)
      else Invoked(s.(now := s.now + seconds), Done)
  }

  function Step(d: Deployment, s: State, e: Event): State {
    if Signable(d, e) then Apply(d, s, e).state else s
  }

  function Run(d: Deployment, s: State, events: seq<Event>): State
    decreases |events|
  {
    if events == [] then s else Run(d, Step(d, s, events[0]), events[1..])
  }

  // ------------------------------------------------------------- the invariant

  predicate Live(b: Bounty) {
    b.status == Open || b.status == Assigned
  }

  function LiveAmounts(bounties: map<u64, Bounty>): map<u64, int> {
    map id | id in bounties :: if Live(bounties[id]) then bounties[id].amount as int else 0
  }

  /** What one stored bounty always looks like. */
  predicate WellFormed(d: Deployment, b: Bounty) {
    && b.amount > 0
    && b.client != d.self
    && b.developer != Some(d.self)
    && (b.status == Assigned || b.status == Paid ==> b.developer.Some?)
    && (b.status == Open || b.status == Cancelled ==> b.developer.None?)
    && (b.evidenceHash.Some? <==> b.status == Paid)
  }

  function PayoutsOf(payouts: seq<Payout>, id: u64): seq<Payout> {
    if payouts == [] then []
    else PayoutsOf(payouts[..|payouts| - 1], id)
         + if payouts[|payouts| - 1].id == id then [payouts[|payouts| - 1]] else []
  }

  /** What must have left the escrow for a bounty in this state. */
  function Owed(id: u64, b: Bounty): seq<Payout> {
    if Live(b) then []
    else if b.status == Paid && b.developer.Some? then [Payout(id, b.developer.value, b.amount)]
    else [Payout(id, b.client, b.amount)]
  }

  ghost predicate SoundMoney(balances: map<Address, int>) {
    && (forall a :: a in balances ==> balances[a] >= 0)
    && Sum(balances) <= I128_MAX
  }

  ghost predicate Accounted(d: Deployment, s: State) {
    && (forall id :: id in s.bounties ==> WellFormed(d, s.bounties[id]))
    && (forall id :: id in s.bounties ==> PayoutsOf(s.payouts, id) == Owed(id, s.bounties[id]))
    && (forall p :: p in s.payouts ==> p.id in s.bounties)
  }

  /** The escrow holds exactly the live rewards plus what was donated to it. */
  ghost predicate Solvent(d: Deployment, s: State) {
    && s.donated >= 0
    && GetOrZero(s.balances, d.self) == Sum(LiveAmounts(s.bounties)) + s.donated
  }

  ghost predicate Inv(d: Deployment, s: State) {
    SoundMoney(s.balances) && Accounted(d, s) && Solvent(d, s)
  }

  /** A freshly deployed contract on any ledger whose supply fits i128. */
  ghost predicate Deployed(d: Deployment, s: State) {
    && SoundMoney(s.balances)
    && s.bounties == map[] && s.payouts == []
    && s.donated == GetOrZero(s.balances, d.self)
  }

  // ------------------------------------------------------------- events

  /** A transfer goes through exactly when the payer can cover it and the payee's balance still fits. */
  lemma TransferExactly(balances: map<Address, int>, from: Address, to: Address, amount: int)
    ensures Transfer(balances, from, to, amount).Some? <==>
            && 0 <= amount <= GetOrZero(balances, from)
            && GetOrZero(balances, to) + (if from == to then 0 else amount)
               <= 170_141_183_460_469_231_731_687_303_715_884_105_727
  {
  }

  /** The entry point an event calls, on the state as it is. */
  function Called(d: Deployment, s: State, e: Event): Option<Invoked> {
    match e
    case CreateBounty(signers, id, client, amount, criteriaHash, deadline) =>
      Some(Create(d, s, signers, id, client, amount, criteriaHash, deadline))
    case AcceptBounty(signers, id, developer) => Some(Accept(d, s, signers, id, developer))
    case ReleaseBounty(signers, id, evidenceHash) => Some(Release(d, s, signers, id, evidenceHash))
    case CancelOpenBounty(signers, id) => Some(CancelOpen(d, s, signers, id))
    case RefundExpiredBounty(signers, id) => Some(RefundExpired(d, s, signers, id))
    case Send(_, _, _, _) => None
    case Advance(_) => None
  }

  /**
   What an event does to the ledger: nothing if it is signed for the contract itself; else a call leaves
   what its entry point leaves, which on any failure is what it found; a transfer that its payer
   signed and can cover moves its amount, and counts as a donation if it goes to the escrow; and time
   passes up to the last timestamp.
   */
  lemma StepExactly(d: Deployment, s: State, e: Event)
    ensures var t := Step(d, s, e); var called := Called(d, s, e);
            match e
            case Advance(seconds) =>
              t == s.(now := if s.now + seconds <= 18_446_744_073_709_551_615 then s.now + seconds else s.now)
            case Send(signers, from, to, value) =>
              if d.self in signers || from !in signers || Transfer(s.balances, from, to, value).None? then t == s
              else
                && t.balances == Transfer(s.balances, from, to, value).value
                && t.donated == s.donated + (if to == d.self then value else 0)
                && t == s.(balances := t.balances, donated := t.donated)
            case _ =>
              && (d.self in e.signers || called.value.outcome != Done ==> t == s)
              && (d.self !in e.signers ==> t == called.value.state)
  {
  }

  /** A run is its events, one after the other. */
  lemma {:induction false} RunLast(d: Deployment, s: State, events: seq<Event>, e: Event)
    ensures Run(d, s, events + [e]) == Step(d, Run(d, s, events), e)
    decreases |events|
  {
    hide Step;
    if events == [] {
      assert events + [e] == [e] && Run(d, Step(d, s, e), []) == Step(d, s, e);
    } else {
      assert (events + [e])[1..] == events[1..] + [e];
      RunLast(d, Step(d, s, events[0]), events[1..], e);
    }
  }

  // ------------------------------------------------------------- lemmas

  lemma DeployedIsInv(d: Deployment, s: State)
    requires Deployed(d, s)
    ensures Inv(d, s)
  {
    assert LiveAmounts(s.bounties) == map[];
  }

  lemma OverdraftOnly(balances: map<Address, int>, from: Address, to: Address, amount: int)
    requires SoundMoney(balances)
    ensures Transfer(balances, from, to, amount).Some? <==> 0 <= amount <= GetOrZero(balances, from)
  {
    if from != to {
      SumBoundsPair(balances, from, to);
    } else {
      SumBoundsPair(balances, from, if from == Account(0) then Account(1) else Account(0));
    }
  }

  lemma TransferSum(balances: map<Address, int>, from: Address, to: Address, amount: int)
    requires Transfer(balances, from, to, amount).Some?
    ensures Sum(Transfer(balances, from, to, amount).value) == Sum(balances)
  {
    var taken := balances[from := GetOrZero(balances, from) - amount];
    SumWrite(balances, from, GetOrZero(balances, from) - amount);
    SumWrite(taken, to, GetOrZero(taken, to) + amount);
  }

  /** When a transfer goes through, and that it moves money without making any. */
  lemma TransferConserves(balances: map<Address, int>, from: Address, to: Address, amount: int)
    requires SoundMoney(balances)
    ensures Transfer(balances, from, to, amount).Some? <==> 0 <= amount <= GetOrZero(balances, from)
    ensures var r := Transfer(balances, from, to, amount);
            r.Some? ==>
              && SoundMoney(r.value)
              && Sum(r.value) == Sum(balances)
              && (from == to ==> GetOrZero(r.value, from) == GetOrZero(balances, from))
              && (from != to ==> GetOrZero(r.value, from) == GetOrZero(balances, from) - amount
                                 && GetOrZero(r.value, to) == GetOrZero(balances, to) + amount)
              && forall a :: a != from && a != to ==> GetOrZero(r.value, a) == GetOrZero(balances, a)
  {
    OverdraftOnly(balances, from, to, amount);
    if 0 <= amount <= GetOrZero(balances, from) {
      TransferSum(balances, from, to, amount);
    }
  }

  lemma LiveSumWrite(bounties: map<u64, Bounty>, id: u64, b: Bounty)
    ensures Sum(LiveAmounts(bounties[id := b]))
            == Sum(LiveAmounts(bounties))
               - (if id in bounties && Live(bounties[id]) then bounties[id].amount else 0)
               + (if Live(b) then b.amount else 0)
  {
    var v := if Live(b) then b.amount as int else 0;
    assert LiveAmounts(bounties[id := b]) == LiveAmounts(bounties)[id := v];
    SumWrite(LiveAmounts(bounties), id, v);
  }

  /** The escrow covers each live reward. */
  lemma LiveRewardIsCovered(d: Deployment, s: State, id: u64)
    requires Inv(d, s) && id in s.bounties && Live(s.bounties[id])
    ensures s.bounties[id].amount <= GetOrZero(s.balances, d.self)
  {
    var live := LiveAmounts(s.bounties);
    forall k | k in live ensures live[k] >= 0 {
      assert WellFormed(d, s.bounties[k]);
    }
    SumBoundsPart(live, live.Keys - {id});
    SumSplit(live, id);
    assert (map k | k in live.Keys - {id} :: live[k]) == live - {id};
  }

  lemma PayoutsOfAppend(payouts: seq<Payout>, p: Payout, id: u64)
    ensures PayoutsOf(payouts + [p], id)
            == PayoutsOf(payouts, id) + if p.id == id then [p] else []
  {
    assert (payouts + [p])[..|payouts|] == payouts;
  }

  lemma {:induction false} PayoutsOfNothing(payouts: seq<Payout>, id: u64)
    requires forall p :: p in payouts ==> p.id != id
    ensures PayoutsOf(payouts, id) == []
  {
    if payouts != [] {
      PayoutsOfNothing(payouts[..|payouts| - 1], id);
    }
  }

  lemma PayOutKeepsInv(d: Deployment, s: State, id: u64, to: Address, closed: Bounty)
    requires Inv(d, s) && id in s.bounties && Live(s.bounties[id])
    requires to != d.self && WellFormed(d, closed) && !Live(closed)
    requires closed.amount == s.bounties[id].amount
    requires Owed(id, closed) == [Payout(id, to, s.bounties[id].amount)]
    ensures PayOut(d, s, id, to, closed).outcome == Done
    ensures Inv(d, PayOut(d, s, id, to, closed).state)
    ensures Sum(PayOut(d, s, id, to, closed).state.balances) == Sum(s.balances)
  {
    LiveRewardIsCovered(d, s, id);
    assert WellFormed(d, s.bounties[id]);
    TransferConserves(s.balances, d.self, to, s.bounties[id].amount);
    LiveSumWrite(s.bounties, id, closed);
    var t := PayOut(d, s, id, to, closed).state;
    forall k | k in t.bounties ensures PayoutsOf(t.payouts, k) == Owed(k, t.bounties[k]) {
      PayoutsOfAppend(s.payouts, Payout(id, to, s.bounties[id].amount), k);
    }
  }

  /** No bounty but this one is touched. */
  predicate OnlyBounty(s: State, t: State, id: u64) {
    id in t.bounties && t.bounties == s.bounties[id := t.bounties[id]] && t.now == s.now
  }

  /** The amount went from one address to another, and no other balance changed. */
  ghost predicate Moved(s: State, t: State, from: Address, to: Address, amount: int) {
    && GetOrZero(t.balances, from) == GetOrZero(s.balances, from) - amount
    && GetOrZero(t.balances, to) == GetOrZero(s.balances, to) + amount
    && forall who :: who != from && who != to ==> GetOrZero(t.balances, who) == GetOrZero(s.balances, who)
  }

  lemma CreateKeepsInv(d: Deployment, s: State, signers: set<Address>, id: u64, client: Address,
                       amount: i128, criteriaHash: Bytes32, deadline: u64)
    requires Inv(d, s) && d.self !in signers
    ensures var r := Create(d, s, signers, id, client, amount, criteriaHash, deadline);
            Inv(d, r.state) && Sum(r.state.balances) == Sum(s.balances)
  {
    hide PayoutsOf, Sum;
    TransferConserves(s.balances, client, d.self, amount);
    var r := Create(d, s, signers, id, client, amount, criteriaHash, deadline);
    if r.outcome == Done {
      LiveSumWrite(s.bounties, id, r.state.bounties[id]);
      PayoutsOfNothing(s.payouts, id);
    }
  }

  /** Exactly when a bounty is created, and with what; the client's tokens are in the escrow. */
  lemma CreateExactly(d: Deployment, s: State, signers: set<Address>, id: u64, client: Address,
                      amount: i128, criteriaHash: Bytes32, deadline: u64)
    requires SoundMoney(s.balances) && d.self !in signers
    ensures var r := Create(d, s, signers, id, client, amount, criteriaHash, deadline);
            && (r.outcome == Done
                <==> client in signers && 0 < amount <= GetOrZero(s.balances, client)
                     && s.now < deadline && id !in s.bounties)
            && (r.outcome != Done ==> r.state == s)
            && (r.outcome == Done ==>
                  && OnlyBounty(s, r.state, id)
                  && Moved(s, r.state, client, d.self, amount)
                  && var b := r.state.bounties[id];
                     b.status == Open && b.client == client && b.amount == amount && b.deadline == deadline
                     && b.criteriaHash == criteriaHash && b.developer.None? && b.evidenceHash.None?)
  {
    TransferConserves(s.balances, client, d.self, amount);
  }

  lemma AcceptKeepsInv(d: Deployment, s: State, signers: set<Address>, id: u64, developer: Address)
    requires Inv(d, s) && d.self !in signers
    ensures Inv(d, Accept(d, s, signers, id, developer).state)
  {
    hide PayoutsOf, Sum;
    var r := Accept(d, s, signers, id, developer);
    if r.outcome == Done {
      assert WellFormed(d, s.bounties[id]);
      LiveSumWrite(s.bounties, id, r.state.bounties[id]);
    }
  }

  /** Exactly when a bounty is accepted: an open one takes one developer, and no token moves. */
  lemma AcceptExactly(d: Deployment, s: State, signers: set<Address>, id: u64, developer: Address)
    requires id in s.bounties ==> WellFormed(d, s.bounties[id])
    ensures var r := Accept(d, s, signers, id, developer);
            && r.state.balances == s.balances
            && (r.outcome == Done
                <==> developer in signers && id in s.bounties && s.bounties[id].status == Open
                     && s.now <= s.bounties[id].deadline)
            && (r.outcome != Done ==> r.state == s)
            && (r.outcome == Done ==>
                  && OnlyBounty(s, r.state, id)
                  && var b := r.state.bounties[id];
                     b.developer == Some(developer) && b.status == Assigned && Later(s.bounties[id], b))
  {
    if id in s.bounties {
      assert WellFormed(d, s.bounties[id]);
    }
  }

  lemma ReleaseKeepsInv(d: Deployment, s: State, signers: set<Address>, id: u64, evidenceHash: Bytes32)
    requires Inv(d, s)
    ensures var t := Release(d, s, signers, id, evidenceHash).state; Inv(d, t) && Sum(t.balances) == Sum(s.balances)
  {
    if d.verifier in signers && id in s.bounties && s.bounties[id].status == Assigned
       && s.now <= s.bounties[id].deadline {
      var b := s.bounties[id];
      assert WellFormed(d, b);
      PayOutKeepsInv(d, s, id, b.developer.value, b.(evidenceHash := Some(evidenceHash), status := Paid));
    }
  }

  /** Solvency makes the payment go through: nothing else can refuse it, the missing developer included. */
  lemma ReleaseExactly(d: Deployment, s: State, signers: set<Address>, id: u64, evidenceHash: Bytes32)
    requires Inv(d, s)
    ensures var r := Release(d, s, signers, id, evidenceHash);
            && (r.outcome == Done
                <==> d.verifier in signers && id in s.bounties && s.bounties[id].status == Assigned
                     && s.now <= s.bounties[id].deadline)
            && (r.outcome != Done ==> r.state == s)
            && (r.outcome == Done ==>
                  && s.bounties[id].developer.Some?
                  && OnlyBounty(s, r.state, id)
                  && Moved(s, r.state, d.self, s.bounties[id].developer.value, s.bounties[id].amount)
                  && r.state.bounties[id] == s.bounties[id].(evidenceHash := Some(evidenceHash), status := Paid))
  {
    if id in s.bounties && s.bounties[id].status == Assigned {
      var b := s.bounties[id];
      assert WellFormed(d, b);
      LiveRewardIsCovered(d, s, id);
      TransferConserves(s.balances, d.self, b.developer.value, b.amount);
    }
  }

  lemma CancelKeepsInv(d: Deployment, s: State, signers: set<Address>, id: u64)
    requires Inv(d, s)
    ensures var t := CancelOpen(d, s, signers, id).state; Inv(d, t) && Sum(t.balances) == Sum(s.balances)
  {
    if id in s.bounties && s.bounties[id].client in signers && s.bounties[id].status == Open
       && s.now <= s.bounties[id].deadline {
      var b := s.bounties[id];
      assert WellFormed(d, b);
      PayOutKeepsInv(d, s, id, b.client, b.(status := Cancelled));
    }
  }

  lemma CancelExactly(d: Deployment, s: State, signers: set<Address>, id: u64)
    requires Inv(d, s)
    ensures var r := CancelOpen(d, s, signers, id);
            && (r.outcome == Done
                <==> id in s.bounties && s.bounties[id].client in signers && s.bounties[id].status == Open
                     && s.now <= s.bounties[id].deadline)
            && (r.outcome != Done ==> r.state == s)
            && (r.outcome == Done ==>
                  && OnlyBounty(s, r.state, id)
                  && Moved(s, r.state, d.self, s.bounties[id].client, s.bounties[id].amount)
                  && r.state.bounties[id] == s.bounties[id].(status := Cancelled))
  {
    if id in s.bounties && s.bounties[id].status == Open {
      assert WellFormed(d, s.bounties[id]);
      LiveRewardIsCovered(d, s, id);
      TransferConserves(s.balances, d.self, s.bounties[id].client, s.bounties[id].amount);
    }
  }

  lemma RefundKeepsInv(d: Deployment, s: State, signers: set<Address>, id: u64)
    requires Inv(d, s)
    ensures var t := RefundExpired(d, s, signers, id).state; Inv(d, t) && Sum(t.balances) == Sum(s.balances)
  {
    if id in s.bounties && s.bounties[id].client in signers && Live(s.bounties[id])
       && s.now > s.bounties[id].deadline {
      var b := s.bounties[id];
      assert WellFormed(d, b);
      PayOutKeepsInv(d, s, id, b.client, b.(status := Refunded));
    }
  }

  /** The assigned developer stays on record, but the client gets the reward back. */
  lemma RefundExactly(d: Deployment, s: State, signers: set<Address>, id: u64)
    requires Inv(d, s)
    ensures var r := RefundExpired(d, s, signers, id);
            && (r.outcome == Done
                <==> id in s.bounties && s.bounties[id].client in signers && Live(s.bounties[id])
                     && s.now > s.bounties[id].deadline)
            && (r.outcome != Done ==> r.state == s)
            && (r.outcome == Done ==>
                  && OnlyBounty(s, r.state, id)
                  && Moved(s, r.state, d.self, s.bounties[id].client, s.bounties[id].amount)
                  && r.state.bounties[id] == s.bounties[id].(status := Refunded))
  {
    if id in s.bounties && Live(s.bounties[id]) {
      assert WellFormed(d, s.bounties[id]);
      LiveRewardIsCovered(d, s, id);
      TransferConserves(s.balances, d.self, s.bounties[id].client, s.bounties[id].amount);
    }
  }

  lemma StepKeepsInv(d: Deployment, s: State, e: Event)
    requires Inv(d, s)
    ensures Inv(d, Step(d, s, e))
    ensures Sum(Step(d, s, e).balances) == Sum(s.balances)
  {
    if Signable(d, e) {
      match e
      case CreateBounty(signers, id, client, amount, criteriaHash, deadline) =>
        CreateKeepsInv(d, s, signers, id, client, amount, criteriaHash, deadline);
      case AcceptBounty(signers, id, developer) => AcceptKeepsInv(d, s, signers, id, developer);
      case ReleaseBounty(signers, id, evidenceHash) => ReleaseKeepsInv(d, s, signers, id, evidenceHash);
      case CancelOpenBounty(signers, id) => CancelKeepsInv(d, s, signers, id);
      case RefundExpiredBounty(signers, id) => RefundKeepsInv(d, s, signers, id);
      case Send(signers, from, to, amount) => TransferConserves(s.balances, from, to, amount);
      case Advance(_) =>
    }
  }

  /** Solvency, bookkeeping and supply survive every run of the ledger. */
  lemma {:induction false} RunKeepsInv(d: Deployment, s: State, events: seq<Event>)
    requires Inv(d, s)
    ensures Inv(d, Run(d, s, events))
    ensures Sum(Run(d, s, events).balances) == Sum(s.balances)
    decreases |events|
  {
    if events != [] {
      StepKeepsInv(d, s, events[0]);
      RunKeepsInv(d, Step(d, s, events[0]), events[1..]);
    }
  }

  /**
   From deployment on, through every run: the escrow holds the live rewards plus
   donations and nothing else, no token is made or lost, and a bounty has paid out
   nothing while live and its whole amount, once, to one recipient, when settled.
   */
  lemma EscrowIsAlwaysSolvent(d: Deployment, start: State, events: seq<Event>)
    requires Deployed(d, start)
    ensures var s := Run(d, start, events);
            && GetOrZero(s.balances, d.self) == Sum(LiveAmounts(s.bounties)) + s.donated
            && Sum(s.balances) == Sum(start.balances)
            && forall id :: id in s.bounties ==> PayoutsOf(s.payouts, id) == Owed(id, s.bounties[id])
  {
    DeployedIsInv(d, start);
    RunKeepsInv(d, start, events);
  }

  /** The exits of the current window work when their signer asks. */
  predicate OpenSide(d: Deployment, s: State, id: u64, evidenceHash: Bytes32)
    requires id in s.bounties
  {
    var b := s.bounties[id];
    if s.now > b.deadline then RefundExpired(d, s, {b.client}, id).outcome == Done
    else if b.status == Open then CancelOpen(d, s, {b.client}, id).outcome == Done
    else Release(d, s, {d.verifier}, id, evidenceHash).outcome == Done
  }

  /** The exits of the other window work for nobody. */
  ghost predicate ClosedSide(d: Deployment, s: State, id: u64)
    requires id in s.bounties
  {
    if s.now > s.bounties[id].deadline then
      && (forall signers :: CancelOpen(d, s, signers, id).outcome != Done)
      && forall signers, evidenceHash :: Release(d, s, signers, id, evidenceHash).outcome != Done
    else
      forall signers :: RefundExpired(d, s, signers, id).outcome != Done
  }

  lemma CurrentWindowIsOpen(d: Deployment, s: State, id: u64, evidenceHash: Bytes32)
    requires Inv(d, s) && id in s.bounties && Live(s.bounties[id])
    ensures OpenSide(d, s, id, evidenceHash)
  {
    var b := s.bounties[id];
    if s.now > b.deadline {
      RefundExactly(d, s, {b.client}, id);
    } else if b.status == Open {
      CancelExactly(d, s, {b.client}, id);
    } else {
      ReleaseExactly(d, s, {d.verifier}, id, evidenceHash);
    }
  }

  /**
   No stranded funds: whatever happened before, a live bounty has a way out at
   every timestamp, and the two sides' windows never overlap.
   */
  lemma LiveBountyHasExactlyOneWindow(d: Deployment, start: State, events: seq<Event>, id: u64, evidenceHash: Bytes32)
    requires Deployed(d, start)
    requires id in Run(d, start, events).bounties && Live(Run(d, start, events).bounties[id])
    ensures OpenSide(d, Run(d, start, events), id, evidenceHash)
    ensures ClosedSide(d, Run(d, start, events), id)
  {
    DeployedIsInv(d, start);
    RunKeepsInv(d, start, events);
    CurrentWindowIsOpen(d, Run(d, start, events), id, evidenceHash);
  }

  lemma TransferBack(balances: map<Address, int>, from: Address, to: Address, amount: int, who: Address)
    requires Transfer(balances, from, to, amount).Some?
    requires Transfer(Transfer(balances, from, to, amount).value, to, from, amount).Some?
    ensures GetOrZero(Transfer(Transfer(balances, from, to, amount).value, to, from, amount).value, who)
         == GetOrZero(balances, who)
  {
  }

  /** Cancelling undoes creating: every balance is as it was, and the bounty is closed for good. */
  lemma CancelUndoesCreate(d: Deployment, s: State, signers: set<Address>, id: u64, client: Address,
                           amount: i128, criteriaHash: Bytes32, deadline: u64, who: Address)
    requires Inv(d, s) && d.self !in signers
    requires Create(d, s, signers, id, client, amount, criteriaHash, deadline).outcome == Done
    ensures var created := Create(d, s, signers, id, client, amount, criteriaHash, deadline).state;
            var r := CancelOpen(d, created, signers, id);
            && r.outcome == Done && r.state.bounties[id].status == Cancelled
            && GetOrZero(r.state.balances, who) == GetOrZero(s.balances, who)
  {
    CreateExactly(d, s, signers, id, client, amount, criteriaHash, deadline);
    CreateKeepsInv(d, s, signers, id, client, amount, criteriaHash, deadline);
    CancelExactly(d, Create(d, s, signers, id, client, amount, criteriaHash, deadline).state, signers, id);
    hide Inv, Transfer;
    TransferBack(s.balances, client, d.self, amount, who);
  }

  // ------------------------------------------------------------- what never changes

  /** How a stored bounty may differ at a later time. */
  predicate Later(b: Bounty, c: Bounty) {
    && c.client == b.client && c.amount == b.amount
    && c.criteriaHash == b.criteriaHash && c.deadline == b.deadline
    && (b.developer.Some? ==> c.developer == b.developer)
    && (!Live(b) ==> c == b)
    && (b.status == Assigned ==> c.status == Assigned || c.status == Paid || c.status == Refunded)
  }

  predicate Grows(old_: map<u64, Bounty>, new_: map<u64, Bounty>) {
    forall id :: id in old_ ==> id in new_ && Later(old_[id], new_[id])
  }

  lemma StepGrows(d: Deployment, s: State, e: Event)
    requires Accounted(d, s)
    ensures Grows(s.bounties, Step(d, s, e).bounties)
  {
    hide Transfer, Owed, PayoutsOf;
    var t := Step(d, s, e);
    if t.bounties != s.bounties {
      assert t.bounties == s.bounties[e.id := t.bounties[e.id]];
      if e.id in s.bounties {
        assert WellFormed(d, s.bounties[e.id]);
        assert Later(s.bounties[e.id], t.bounties[e.id]);
      }
    }
  }

  lemma {:induction false} RunGrows(d: Deployment, s: State, events: seq<Event>)
    requires Inv(d, s)
    ensures Grows(s.bounties, Run(d, s, events).bounties)
    decreases |events|
  {
    if events != [] {
      StepGrows(d, s, events[0]);
      StepKeepsInv(d, s, events[0]);
      RunGrows(d, Step(d, s, events[0]), events[1..]);
    }
  }

  /** Terms are fixed at creation and a settled bounty is final, so it is paid out at most once. */
  lemma SettledOnceAndForAll(d: Deployment, start: State, before: seq<Event>, after: seq<Event>, id: u64)
    requires Deployed(d, start)
    requires id in Run(d, start, before).bounties
    ensures var s := Run(d, start, before); var t := Run(d, s, after);
            && id in t.bounties && Later(s.bounties[id], t.bounties[id])
            && |PayoutsOf(t.payouts, id)| == (if Live(t.bounties[id]) then 0 else 1)
            && (!Live(s.bounties[id]) ==> PayoutsOf(t.payouts, id) == PayoutsOf(s.payouts, id))
  {
    DeployedIsInv(d, start);
    RunKeepsInv(d, start, before);
    RunGrows(d, Run(d, start, before), after);
    RunKeepsInv(d, Run(d, start, before), after);
  }
}
