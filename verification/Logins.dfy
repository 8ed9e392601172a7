/**
 What each login request does to the two tables, and whom a session belongs to: the wallet that
 asked for the challenge it was redeemed from.
 */
module Logins {
  import opened Wrappers
  import opened Messages
  import opened Auth

  // ------------------------------------------------------------- issuing

  /** A fresh nonce stores one challenge, for the wallet that asks, for five minutes from now; nothing else changes. */
  lemma IssuesExactly(hash: string -> string, s: State, id: string, wallet: string)
    requires '\n' !in id && '\n' !in wallet
    ensures Step(hash, s, Issue(id, wallet))
         == if id in s.challenges then s
            else s.(challenges := s.challenges[id := Challenge(wallet, s.clock, s.clock + 300, None)])
  {
  }

  /** What a step does to the wallet and times of a challenge: nothing, once it is issued. */
  lemma StepOnChallenge(hash: string -> string, s: State, e: Event, id: string)
    requires id in Step(hash, s, e).challenges
    ensures var c := Step(hash, s, e).challenges[id];
            if id in s.challenges then c.(usedAt := None) == s.challenges[id].(usedAt := None)
            else e == Issue(id, c.wallet) && c == Challenge(c.wallet, s.clock, s.clock + 300, None)
  {
  }

  /** The wallet asked for this challenge in the run. */
  predicate AskedFor(events: seq<Event>, k: nat, id: string, wallet: string) {
    k < |events| && events[k] == Issue(id, wallet)
  }

  lemma {:induction false} ChallengesWereAskedFor(hash: string -> string, s: State, events: seq<Event>, id: string)
    returns (k: nat)
    requires id in Run(hash, s, events).challenges && id !in s.challenges
    ensures AskedFor(events, k, id, Run(hash, s, events).challenges[id].wallet)
    decreases |events|
  {
    var t := Step(hash, s, events[0]);
    if id in t.challenges {
      StepOnChallenge(hash, s, events[0], id);
      WalletStays(hash, t, events[1..], id);
      k := 0;
    } else {
      var j := ChallengesWereAskedFor(hash, t, events[1..], id);
      k := j + 1;
    }
  }

  lemma {:induction false} WalletStays(hash: string -> string, s: State, events: seq<Event>, id: string)
    requires id in s.challenges
    ensures id in Run(hash, s, events).challenges
    ensures Run(hash, s, events).challenges[id].wallet == s.challenges[id].wallet
    decreases |events|
  {
    if events != [] {
      ChallengeStays(hash, s, events[0], id);
      StepOnChallenge(hash, s, events[0], id);
      WalletStays(hash, Step(hash, s, events[0]), events[1..], id);
    }
  }

  lemma ChallengeStays(hash: string -> string, s: State, e: Event, id: string)
    requires id in s.challenges
    ensures id in Step(hash, s, e).challenges
  {
  }

  /** Whatever raced: a session belongs to the wallet that asked for its challenge. */
  lemma SessionsAreTheAskers(hash: string -> string, events: seq<Event>, h: string) returns (k: nat)
    requires h in Run(hash, INITIAL, events).sessions
    ensures var s := Run(hash, INITIAL, events);
            h in s.origin && AskedFor(events, k, s.origin[h], s.sessions[h].wallet)
  {
    hide Run;
    SessionsAreRedemptions(hash, events, h);
    var s := Run(hash, INITIAL, events);
    k := ChallengesWereAskedFor(hash, INITIAL, events, s.origin[h]);
  }

  // ------------------------------------------------------------- redeeming and revoking

  /** The signature is that of the challenge's wallet, on the message that names it and its times. */
  predicate Proves(s: State, id: string, signature: Signature) {
    && id in s.challenges && signature in s.signed
    && signature.wallet == s.challenges[id].wallet
    && signature.message == AuthenticationMessage(Authentication(s.challenges[id].wallet, id, s.challenges[id].issuedAt,
                                                                 s.challenges[id].expiresAt))
  }

  /**
   A redemption that nothing interrupts opens one session, of eight hours, and spends the challenge,
   exactly when the challenge is unspent and not past its end, the signature proves it and the
   commit goes through; otherwise it leaves everything as it was.
   */
  lemma RedeemsExactly(hash: string -> string, s: State, request: nat, id: string, signature: Signature, token: string,
                       persisted: bool)
    requires request !in s.requests && !Locked(s, id)
    ensures Run(hash, s, Redemption(request, id, signature, token, persisted))
         == if Proves(s, id, signature) && s.challenges[id].usedAt.None? && s.clock <= s.challenges[id].expiresAt
               && persisted && hash(token) !in s.sessions
            then s.(challenges := s.challenges[id := s.challenges[id].(usedAt := Some(s.clock))],
                    sessions := s.sessions[hash(token) := Session(s.challenges[id].wallet, s.clock,
                                                                  s.clock + 28_800, None)],
                    origin := s.origin[hash(token) := id])
            else s
  {
    hide AuthenticationMessage;
    RunThree(hash, s, Check(request, id, signature), Consume(request), Commit(request, token, persisted));
    if MayRedeem(s, request, id, signature) {
      RedemptionHolds(hash, s, request, id, signature);
      assert s.requests[request := Redeem(id, s.challenges[id].wallet, s.clock, true)] - {request} == s.requests;
    } else {
      assert Step(hash, s, Check(request, id, signature)) == s;
      assert Step(hash, s, Consume(request)) == s;
    }
  }

  /** Revoking ends a session now, the first time, and touches no other. */
  lemma RevokesExactly(hash: string -> string, s: State, h: string)
    ensures Step(hash, s, Revoke(h))
         == if h in s.sessions && s.sessions[h].revokedAt.None?
            then s.(sessions := s.sessions[h := s.sessions[h].(revokedAt := Some(s.clock))])
            else s
  {
  }
}
