/**
 The deployed contract: entry points that read a bounty from storage, change it,
 move tokens and store it back. Each is proved against its function in Escrow.
 */
module EscrowContract {
  import opened Wrappers
  import opened Escrow

  /** What the host gives a call: the ledger's close time and who signed. */
  datatype Env = Env(timestamp: u64, signers: set<Address>)

  class Token {
    var balances: map<Address, int>

    constructor (balances: map<Address, int>)
      ensures this.balances == balances
    {
      this.balances := balances;
    }

    /** Moves `amount`, or traps and changes nothing. */
    method MoveTokens(from: Address, to: Address, amount: int) returns (ok: bool)
      modifies this
      ensures ok == Transfer(old(balances), from, to, amount).Some?
      ensures balances == if ok then Transfer(old(balances), from, to, amount).value else old(balances)
    {
      var held := GetOrZero(balances, from);
      if amount < 0 || held < amount {
        return false;
      }
      var received := if from == to then held else GetOrZero(balances, to) + amount;
      if received > I128_MAX {
        return false;
      }
      balances := balances[from := held - amount];
      balances := balances[to := received];
      return true;
    }
  }

  class MergePayEscrow {
    const deployment: Deployment
    const token: Token
    var bounties: map<u64, Bounty>
    ghost var donated: int
    ghost var payouts: seq<Payout>

    constructor (self: Address, verifier: Address, token: Token)
      ensures this.token == token && deployment == Deployment(self, verifier)
      ensures View(0) == State(0, token.balances, map[], GetOrZero(token.balances, self), [])
    {
      deployment := Deployment(self, verifier);
      this.token := token;
      bounties := map[];
      donated := GetOrZero(token.balances, self);
      payouts := [];
    }

    ghost function View(now: u64): State
      reads this, token
    {
      State(now, token.balances, bounties, donated, payouts)
    }

    method CreateBounty(env: Env, id: u64, client: Address, amount: i128, criteriaHash: Bytes32, deadline: u64)
      returns (r: Outcome)
      modifies this, token
      ensures Invoked(View(env.timestamp), r)
              == Create(deployment, old(View(env.timestamp)), env.signers, id, client, amount, criteriaHash, deadline)
    {
      if client !in env.signers { return Trapped; }
      if amount <= 0 { return Failed(InvalidAmount); }
      if deadline <= env.timestamp { return Failed(DeadlinePassed); }
      if id in bounties { return Failed(BountyAlreadyExists); }

      var moved := token.MoveTokens(client, deployment.self, amount);
      if !moved { return Trapped; }

      bounties := bounties[id := Bounty(client, None, amount, criteriaHash, None, deadline, Open)];
      return Done;
    }

    method AcceptBounty(env: Env, id: u64, developer: Address) returns (r: Outcome)
      modifies this
      ensures Invoked(View(env.timestamp), r)
              == Accept(deployment, old(View(env.timestamp)), env.signers, id, developer)
    {
      if developer !in env.signers { return Trapped; }
      if id !in bounties { return Failed(BountyNotFound); }
      var bounty := bounties[id];
      if bounty.status != Open { return Failed(InvalidStatus); }
      if env.timestamp > bounty.deadline { return Failed(DeadlinePassed); }

      bounty := bounty.(developer := Some(developer));
      bounty := bounty.(status := Assigned);
      bounties := bounties[id := bounty];
      return Done;
    }

    method ReleaseBounty(env: Env, id: u64, evidenceHash: Bytes32) returns (r: Outcome)
      modifies this, token
      ensures Invoked(View(env.timestamp), r)
              == Release(deployment, old(View(env.timestamp)), env.signers, id, evidenceHash)
    {
      if deployment.verifier !in env.signers { return Trapped; }
      if id !in bounties { return Failed(BountyNotFound); }
      var bounty := bounties[id];
      if bounty.status != Assigned { return Failed(InvalidStatus); }
      if env.timestamp > bounty.deadline { return Failed(DeadlinePassed); }
      if bounty.developer.None? { return Failed(InvalidStatus); }
      var developer := bounty.developer.value;

      var moved := token.MoveTokens(deployment.self, developer, bounty.amount);
      if !moved { return Trapped; }
      payouts := payouts + [Payout(id, developer, bounty.amount)];

      bounty := bounty.(evidenceHash := Some(evidenceHash));
      bounty := bounty.(status := Paid);
      bounties := bounties[id := bounty];
      return Done;
    }

    method CancelOpenBounty(env: Env, id: u64) returns (r: Outcome)
      modifies this, token
      ensures Invoked(View(env.timestamp), r)
              == CancelOpen(deployment, old(View(env.timestamp)), env.signers, id)
    {
      if id !in bounties { return Failed(BountyNotFound); }
      var bounty := bounties[id];
      if bounty.client !in env.signers { return Trapped; }
      if bounty.status != Open { return Failed(InvalidStatus); }
      if env.timestamp > bounty.deadline { return Failed(DeadlinePassed); }

      var moved := token.MoveTokens(deployment.self, bounty.client, bounty.amount);
      if !moved { return Trapped; }
      payouts := payouts + [Payout(id, bounty.client, bounty.amount)];

      bounty := bounty.(status := Cancelled);
      bounties := bounties[id := bounty];
      return Done;
    }

    method RefundExpired(env: Env, id: u64) returns (r: Outcome)
      modifies this, token
      ensures Invoked(View(env.timestamp), r)
              == Escrow.RefundExpired(deployment, old(View(env.timestamp)), env.signers, id)
    {
      if id !in bounties { return Failed(BountyNotFound); }
      var bounty := bounties[id];
      if bounty.client !in env.signers { return Trapped; }
      if bounty.status != Open && bounty.status != Assigned { return Failed(InvalidStatus); }
      if env.timestamp <= bounty.deadline { return Failed(DeadlineNotReached); }

      var moved := token.MoveTokens(deployment.self, bounty.client, bounty.amount);
      if !moved { return Trapped; }
      payouts := payouts + [Payout(id, bounty.client, bounty.amount)];

      bounty := bounty.(status := Refunded);
      bounties := bounties[id := bounty];
      return Done;
    }

    /** Reads one bounty; the only error is a missing one. */
    method GetBounty(id: u64) returns (r: Result<Bounty, Error>)
      ensures r == if id in bounties then Ok(bounties[id]) else Err(BountyNotFound)
    {
      if id !in bounties { return Err(BountyNotFound); }
      return Ok(bounties[id]);
    }
  }
}
