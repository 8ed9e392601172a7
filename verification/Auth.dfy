/**
 Wallet login: a challenge is issued, signed, and redeemed for a session. Redeeming
 reads the challenge, then marks it used under a conditional UPDATE and inserts the
 session in one transaction, so any number of requests may race for one challenge.
 */
module Auth {
  import opened Wrappers
  import opened Messages

  const CHALLENGE_TTL_SECONDS: nat := 300
  const SESSION_TTL_SECONDS: nat := 28_800

  datatype Challenge = Challenge(wallet: string, issuedAt: nat, expiresAt: nat, usedAt: Option<nat>)

  datatype Session = Session(wallet: string, createdAt: nat, expiresAt: nat, revokedAt: Option<nat>)

  /** A signature is the message it signs and the wallet that made it. */
  datatype Signature = Signature(wallet: string, message: string)

  /** A redeem request past its first checks; `holds` once its UPDATE has locked the challenge's row. */
  datatype Redeem = Redeem(challenge: string, wallet: string, now: nat, holds: bool)

  /**
   The two tables, the clock, what wallets have signed and the requests in flight.
   `origin` is history: the challenge each session, by token hash, was redeemed from.
   */
  datatype State = State(
    clock: nat,
    challenges: map<string, Challenge>,
    sessions: map<string, Session>,
    signed: set<Signature>,
    requests: map<nat, Redeem>,
    origin: map<string, string>)

  datatype Event =
    | Tick(seconds: nat)
    | Issue(id: string, wallet: string)
    | Sign(signature: Signature)
    | Check(request: nat, challenge: string, signature: Signature)
    | Consume(request: nat)
    | Commit(request: nat, token: string, persisted: bool)
    | Crash(request: nat)
    | Revoke(tokenHash: string)

  /** What `secrets.token_urlsafe` yields and a Stellar public key looks like, as far as lines are concerned. */
  predicate OneLine(s: string) { '\n' !in s }

  function MessageFor(id: string, c: Challenge): string {
    AuthenticationMessage(Authentication(c.wallet, id, c.issuedAt, c.expiresAt))
  }

  // ------------------------------------------------------------- the steps

  function DoIssue(s: State, id: string, wallet: string): State {
    if id in s.challenges || !OneLine(id) || !OneLine(wallet) then s
    else s.(challenges := s.challenges[id := Challenge(wallet, s.clock, s.clock + CHALLENGE_TTL_SECONDS, None)])
  }

  /** `signature_is_valid`, for a signature somebody really made. */
  predicate Good(signature: Signature, signed: set<Signature>, id: string, c: Challenge) {
    signature in signed && signature == Signature(c.wallet, MessageFor(id, c))
  }

  predicate Redeemable(c: Challenge, now: nat) {
    c.usedAt.None? && now <= c.expiresAt
  }

  /** `db.get`, the clock, and the signature check. */
  function DoCheck(s: State, request: nat, id: string, signature: Signature): State {
    if request in s.requests || id !in s.challenges || !Redeemable(s.challenges[id], s.clock) then s
    else if !Good(signature, s.signed, id, s.challenges[id]) then s
    else s.(requests := s.requests[request := Redeem(id, s.challenges[id].wallet, s.clock, false)])
  }

  predicate Locked(s: State, id: string) {
    exists q :: q in s.requests && s.requests[q].holds && s.requests[q].challenge == id
  }

  /** The conditional UPDATE waits for the row, then matches it or rolls back. */
  function DoConsume(s: State, request: nat): State {
    if request !in s.requests || s.requests[request].holds || Locked(s, s.requests[request].challenge) then s
    else
      var r := s.requests[request];
      if r.challenge in s.challenges && Redeemable(s.challenges[r.challenge], r.now)
      then s.(requests := s.requests[request := r.(holds := true)])
      else s.(requests := s.requests - {request})
  }

  /** The transaction ends: both writes, or neither. */
  function DoCommit(hash: string -> string, s: State, request: nat, token: string, persisted: bool): State {
    if request !in s.requests || !s.requests[request].holds then s
    else
      var r := s.requests[request];
      if !persisted || hash(token) in s.sessions || r.challenge !in s.challenges
      then s.(requests := s.requests - {request})
      else s.(challenges := s.challenges[r.challenge := s.challenges[r.challenge].(usedAt := Some(r.now))],
              sessions := s.sessions[hash(token) := Session(r.wallet, r.now, r.now + SESSION_TTL_SECONDS, None)],
              requests := s.requests - {request},
              origin := s.origin[hash(token) := r.challenge])
  }

  function DoRevoke(s: State, tokenHash: string): State {
    if tokenHash in s.sessions && s.sessions[tokenHash].revokedAt.None?
    then s.(sessions := s.sessions[tokenHash := s.sessions[tokenHash].(revokedAt := Some(s.clock))])
    else s
  }

  function Step(hash: string -> string, s: State, e: Event): State {
    match e
    case Tick(seconds) => s.(clock := s.clock + seconds)
    case Issue(id, wallet) => DoIssue(s, id, wallet)
    case Sign(signature) => s.(signed := s.signed + {signature})
    case Check(request, id, signature) => DoCheck(s, request, id, signature)
    case Consume(request) => DoConsume(s, request)
    case Commit(request, token, persisted) => DoCommit(hash, s, request, token, persisted)
    case Crash(request) => s.(requests := s.requests - {request})
    case Revoke(tokenHash) => DoRevoke(s, tokenHash)
  }

  function Run(hash: string -> string, s: State, events: seq<Event>): State
    decreases |events|
  {
    if events == [] then s else Run(hash, Step(hash, s, events[0]), events[1..])
  }

  /** The live session of a token, by its hash. */
  function Resolve(s: State, tokenHash: string): Option<Session> {
    if tokenHash !in s.sessions || s.sessions[tokenHash].revokedAt.Some? then None
    else if s.clock > s.sessions[tokenHash].expiresAt then None
    else Some(s.sessions[tokenHash])
  }

  const INITIAL := State(0, map[], map[], {}, map[], map[])

  // ------------------------------------------------------------- the invariant

  /** The challenge's wallet signed the message that names it and its times. */
  predicate HasSigned(signed: set<Signature>, id: string, wallet: string, issuedAt: nat, expiresAt: nat) {
    Signature(wallet, AuthenticationMessage(Authentication(wallet, id, issuedAt, expiresAt))) in signed
  }

  /** The session was created by redeeming that challenge, while it was valid, with its wallet's signature. */
  predicate RedeemedFrom(session: Session, id: string, c: Challenge, signed: set<Signature>, clock: nat) {
    && session.wallet == c.wallet
    && c.usedAt == Some(session.createdAt)
    && c.issuedAt <= session.createdAt <= c.expiresAt == c.issuedAt + CHALLENGE_TTL_SECONDS
    && session.createdAt <= clock
    && session.expiresAt == session.createdAt + SESSION_TTL_SECONDS
    && HasSigned(signed, id, c.wallet, c.issuedAt, c.expiresAt)
  }

  ghost predicate Paired(s: State) {
    && s.origin.Keys == s.sessions.Keys
    && (forall h :: h in s.sessions ==>
         s.origin[h] in s.challenges
         && RedeemedFrom(s.sessions[h], s.origin[h], s.challenges[s.origin[h]], s.signed, s.clock))
    && (forall g, h :: g in s.origin && h in s.origin && s.origin[g] == s.origin[h] ==> g == h)
    && (forall id :: id in s.challenges && s.challenges[id].usedAt.Some? ==> id in s.origin.Values)
  }

  predicate ChallengeOk(id: string, c: Challenge, clock: nat) {
    OneLine(id) && OneLine(c.wallet) && c.issuedAt <= clock && c.expiresAt == c.issuedAt + CHALLENGE_TTL_SECONDS
  }

  predicate RequestOk(s: State, r: Redeem) {
    && r.challenge in s.challenges
    && var c := s.challenges[r.challenge];
       && r.wallet == c.wallet
       && c.issuedAt <= r.now <= c.expiresAt
       && r.now <= s.clock
       && HasSigned(s.signed, r.challenge, c.wallet, c.issuedAt, c.expiresAt)
       && (r.holds ==> c.usedAt.None?)
  }

  predicate SameLock(p: Redeem, q: Redeem) {
    p.holds && q.holds && p.challenge == q.challenge
  }

  ghost predicate Inv(s: State) {
    && Paired(s)
    && (forall id :: id in s.challenges ==> ChallengeOk(id, s.challenges[id], s.clock))
    && (forall q :: q in s.requests ==> RequestOk(s, s.requests[q]))
    && (forall p, q :: p in s.requests && q in s.requests && SameLock(s.requests[p], s.requests[q]) ==> p == q)
  }

  lemma CommitPairs(hash: string -> string, s: State, request: nat, token: string)
    requires Inv(s) && request in s.requests && s.requests[request].holds && hash(token) !in s.sessions
    ensures Paired(DoCommit(hash, s, request, token, true))
  {
    hide HasSigned;
    var t := DoCommit(hash, s, request, token, true);
    var id := s.requests[request].challenge;
    assert RequestOk(s, s.requests[request]) && ChallengeOk(id, s.challenges[id], s.clock);
    assert RedeemedFrom(t.sessions[hash(token)], id, t.challenges[id], t.signed, t.clock);
    forall h | h in s.origin ensures s.origin[h] != id {
      assert h in s.sessions;
    }
    hide RedeemedFrom, ChallengeOk, RequestOk;
    OriginCovers(s, t, hash(token), id);
  }

  /** One more spent challenge, and the session it went to. */
  lemma OriginCovers(s: State, t: State, h: string, id: string)
    requires Paired(s) && h !in s.origin && t.origin == s.origin[h := id]
    requires id in s.challenges && id in t.challenges && t.challenges == s.challenges[id := t.challenges[id]]
    ensures forall other :: other in t.challenges && t.challenges[other].usedAt.Some? ==> other in t.origin.Values
  {
    forall other | other in t.challenges && t.challenges[other].usedAt.Some? ensures other in t.origin.Values {
      if other == id {
        assert t.origin[h] == id;
      } else {
        var g :| g in s.origin && s.origin[g] == other;
        assert t.origin[g] == other;
      }
    }
  }

  lemma CommitKeeps(hash: string -> string, s: State, request: nat, token: string)
    requires Inv(s) && request in s.requests && s.requests[request].holds && hash(token) !in s.sessions
    ensures Inv(DoCommit(hash, s, request, token, true))
  {
    hide MessageFor, HasSigned, Paired;
    CommitPairs(hash, s, request, token);
    var t := DoCommit(hash, s, request, token, true);
    assert RequestOk(s, s.requests[request]);
    forall q | q in t.requests ensures RequestOk(t, t.requests[q]) {
      assert RequestOk(s, s.requests[q]);
      assert SameLock(s.requests[q], s.requests[request]) ==> q == request;
    }
  }

  lemma IssueKeeps(s: State, id: string, wallet: string)
    requires Inv(s)
    ensures Inv(DoIssue(s, id, wallet))
  {
    hide MessageFor, HasSigned;
    var t := DoIssue(s, id, wallet);
    forall q | q in t.requests ensures RequestOk(t, t.requests[q]) {
      assert RequestOk(s, s.requests[q]);
    }
  }

  lemma RequestsKeep(s: State, t: State)
    requires Inv(s) && t == s.(requests := t.requests)
    requires forall q :: q in t.requests ==> RequestOk(s, t.requests[q])
    requires forall p, q :: p in t.requests && q in t.requests && SameLock(t.requests[p], t.requests[q]) ==> p == q
    ensures Inv(t)
  {
    hide HasSigned, RedeemedFrom, ChallengeOk, SameLock;
  }

  lemma ConsumeKeeps(s: State, request: nat)
    requires Inv(s)
    ensures Inv(DoConsume(s, request))
  {
    hide MessageFor, HasSigned, Paired;
    var t := DoConsume(s, request);
    if request in s.requests && t != s {
      assert RequestOk(s, s.requests[request]);
      forall p, q | p in t.requests && q in t.requests && SameLock(t.requests[p], t.requests[q]) ensures p == q {
        if p != request && q != request {
          assert SameLock(s.requests[p], s.requests[q]);
        }
      }
      RequestsKeep(s, t);
    }
  }

  lemma CheckKeeps(s: State, request: nat, id: string, signature: Signature)
    requires Inv(s)
    ensures Inv(DoCheck(s, request, id, signature))
  {
    hide Paired;
    var t := DoCheck(s, request, id, signature);
    if t != s {
      assert ChallengeOk(id, s.challenges[id], s.clock);
      assert RequestOk(s, t.requests[request]);
      RequestsKeep(s, t);
    }
  }

  lemma SignKeeps(s: State, signature: Signature)
    requires Inv(s)
    ensures Inv(s.(signed := s.signed + {signature}))
  {
    var t := s.(signed := s.signed + {signature});
    forall q | q in t.requests ensures RequestOk(t, t.requests[q]) {
      assert RequestOk(s, s.requests[q]);
    }
  }

  /** When a session ended says nothing about how it was opened. */
  lemma SameOpening(a: Session, b: Session, id: string, c: Challenge, signed: set<Signature>, clock: nat)
    requires RedeemedFrom(a, id, c, signed, clock) && b.(revokedAt := None) == a.(revokedAt := None)
    ensures RedeemedFrom(b, id, c, signed, clock)
  {
    hide HasSigned;
  }

  lemma SameOpenings(s: State, t: State)
    requires Paired(s) && t == s.(sessions := t.sessions) && t.sessions.Keys == s.sessions.Keys
    requires forall h :: h in s.sessions ==> t.sessions[h].(revokedAt := None) == s.sessions[h].(revokedAt := None)
    ensures Paired(t)
  {
    hide RedeemedFrom;
    forall h | h in t.sessions
      ensures RedeemedFrom(t.sessions[h], t.origin[h], t.challenges[t.origin[h]], t.signed, t.clock)
    {
      SameOpening(s.sessions[h], t.sessions[h], s.origin[h], s.challenges[s.origin[h]], s.signed, s.clock);
    }
  }

  lemma RevokePairs(s: State, tokenHash: string)
    requires Paired(s)
    ensures Paired(DoRevoke(s, tokenHash))
  {
    hide Paired;
    assert DoRevoke(s, tokenHash).sessions.Keys == s.sessions.Keys;
    SameOpenings(s, DoRevoke(s, tokenHash));
  }

  lemma RevokeKeeps(s: State, tokenHash: string)
    requires Inv(s)
    ensures Inv(DoRevoke(s, tokenHash))
  {
    hide HasSigned, Paired;
    RevokePairs(s, tokenHash);
    var t := DoRevoke(s, tokenHash);
    forall q | q in t.requests ensures RequestOk(t, t.requests[q]) {
      assert RequestOk(s, s.requests[q]);
    }
  }

  lemma TickKeeps(s: State, seconds: nat)
    requires Inv(s)
    ensures Inv(s.(clock := s.clock + seconds))
  {
    hide MessageFor, HasSigned;
    var t := s.(clock := s.clock + seconds);
    forall q | q in t.requests ensures RequestOk(t, t.requests[q]) {
      assert RequestOk(s, s.requests[q]);
    }
  }

  lemma StepKeeps(hash: string -> string, s: State, e: Event)
    requires Inv(s)
    ensures Inv(Step(hash, s, e))
  {
    hide MessageFor, HasSigned, Paired;
    match e
    case Commit(request, token, persisted) =>
      if persisted && request in s.requests && s.requests[request].holds && hash(token) !in s.sessions {
        CommitKeeps(hash, s, request, token);
      } else {
        RequestsKeep(s, Step(hash, s, e));
      }
    case Consume(request) => ConsumeKeeps(s, request);
    case Issue(id, wallet) => IssueKeeps(s, id, wallet);
    case Check(request, id, signature) => CheckKeeps(s, request, id, signature);
    case Crash(request) => RequestsKeep(s, Step(hash, s, e));
    case Tick(seconds) => TickKeeps(s, seconds);
    case Sign(signature) => SignKeeps(s, signature);
    case Revoke(tokenHash) => RevokeKeeps(s, tokenHash);
  }

  lemma {:induction false} RunKeeps(hash: string -> string, s: State, events: seq<Event>)
    requires Inv(s)
    ensures Inv(Run(hash, s, events))
    decreases |events|
  {
    if events != [] {
      StepKeeps(hash, s, events[0]);
      RunKeeps(hash, Step(hash, s, events[0]), events[1..]);
    }
  }

  // ------------------------------------------------------------- what it means

  function UsedChallenges(s: State): set<string> {
    set id | id in s.challenges && s.challenges[id].usedAt.Some?
  }

  lemma {:induction false} InjectiveSize<K, V>(m: map<K, V>)
    requires forall a, b :: a in m && b in m && m[a] == m[b] ==> a == b
    ensures |m.Values| == |m|
  {
    if m == map[] {
      assert m.Values == {};
    } else {
      var k :| k in m;
      var rest := m - {k};
      InjectiveSize(rest);
      forall v | v in m.Values ensures v == m[k] || v in rest.Values {
        var a :| a in m && m[a] == v;
        assert a != k ==> a in rest && rest[a] == v;
      }
      assert m.Values == rest.Values + {m[k]};
      assert m.Keys == rest.Keys + {k};
      assert |m.Keys| == |m| && |rest.Keys| == |rest|;
    }
  }

  /**
   Whatever requests raced, crashed or failed to commit: every session was redeemed from a
   challenge of its own, by that challenge's wallet, with that wallet's signature, in time.
   */
  lemma SessionsAreRedemptions(hash: string -> string, events: seq<Event>, h: string)
    requires h in Run(hash, INITIAL, events).sessions
    ensures var s := Run(hash, INITIAL, events);
            && h in s.origin && s.origin[h] in s.challenges
            && RedeemedFrom(s.sessions[h], s.origin[h], s.challenges[s.origin[h]], s.signed, s.clock)
            && forall g :: g in s.origin && s.origin[g] == s.origin[h] ==> g == h
  {
    hide Run, HasSigned;
    RunKeeps(hash, INITIAL, events);
  }

  /** A challenge is spent exactly when it opened a session. */
  lemma SpentChallengesOpenedSessions(hash: string -> string, events: seq<Event>, id: string)
    requires id in Run(hash, INITIAL, events).challenges
    ensures var s := Run(hash, INITIAL, events);
            s.challenges[id].usedAt.Some? <==> exists h :: h in s.sessions && h in s.origin && s.origin[h] == id
  {
    hide Run, HasSigned;
    RunKeeps(hash, INITIAL, events);
    var s := Run(hash, INITIAL, events);
    if s.challenges[id].usedAt.Some? {
      var h :| h in s.origin && s.origin[h] == id;
      assert h in s.sessions;
    }
  }

  /** There are as many spent challenges as sessions. */
  lemma AsManySpentAsSessions(hash: string -> string, events: seq<Event>)
    ensures var s := Run(hash, INITIAL, events); |UsedChallenges(s)| == |s.sessions|
  {
    hide Run, HasSigned;
    RunKeeps(hash, INITIAL, events);
    var s := Run(hash, INITIAL, events);
    forall id | id in s.origin.Values ensures id in UsedChallenges(s) {
      var h :| h in s.origin && s.origin[h] == id;
      assert h in s.sessions;
    }
    assert s.origin.Values == UsedChallenges(s);
    InjectiveSize(s.origin);
    assert |s.origin| == |s.origin.Keys| == |s.sessions.Keys| == |s.sessions|;
  }

  /** One signature opens at most one session, however often and by whomever it is presented. */
  lemma OneSignatureOneSession(hash: string -> string, events: seq<Event>, g: string, h: string)
    requires var s := Run(hash, INITIAL, events);
             g in s.sessions && h in s.sessions && g != h && g in s.origin && h in s.origin
             && s.origin[g] in s.challenges && s.origin[h] in s.challenges
    ensures var s := Run(hash, INITIAL, events);
            MessageFor(s.origin[g], s.challenges[s.origin[g]]) != MessageFor(s.origin[h], s.challenges[s.origin[h]])
  {
    RunKeeps(hash, INITIAL, events);
    var s := Run(hash, INITIAL, events);
    var a, b := s.challenges[s.origin[g]], s.challenges[s.origin[h]];
    AuthenticationRoundTrip(Authentication(a.wallet, s.origin[g], a.issuedAt, a.expiresAt));
    AuthenticationRoundTrip(Authentication(b.wallet, s.origin[h], b.issuedAt, b.expiresAt));
  }

  /** What one step may do to a session already there. */
  lemma StepOnSession(hash: string -> string, s: State, e: Event, h: string)
    requires h in s.sessions
    ensures var t := Step(hash, s, e);
            && h in t.sessions && s.clock <= t.clock
            && t.sessions[h].(revokedAt := None) == s.sessions[h].(revokedAt := None)
            && (t.sessions[h].revokedAt.Some? <==> s.sessions[h].revokedAt.Some? || e == Revoke(h))
  {
  }

  /**
   A session resolves exactly until it is revoked or its time is past: once dead it never
   comes back, and until then nothing else ends it or changes what it says.
   */
  lemma {:induction false} SessionLifetime(hash: string -> string, s: State, events: seq<Event>, h: string)
    requires h in s.sessions
    ensures var t := Run(hash, s, events);
            && h in t.sessions && s.clock <= t.clock
            && (Resolve(t, h).Some? <==>
                 s.sessions[h].revokedAt.None? && Revoke(h) !in events && t.clock <= s.sessions[h].expiresAt)
            && (Resolve(t, h).Some? ==> Resolve(t, h) == Some(s.sessions[h]))
    decreases |events|
  {
    if events != [] {
      StepOnSession(hash, s, events[0], h);
      SessionLifetime(hash, Step(hash, s, events[0]), events[1..], h);
      assert events == [events[0]] + events[1..];
    }
  }

  lemma DeadSessionsStayDead(hash: string -> string, s: State, events: seq<Event>, h: string)
    requires h in s.sessions && Resolve(s, h).None?
    ensures Resolve(Run(hash, s, events), h).None?
  {
    SessionLifetime(hash, s, events, h);
  }

  /** The requests one redemption makes when it runs alone. */
  function Redemption(request: nat, id: string, signature: Signature, token: string, persisted: bool): seq<Event> {
    [Check(request, id, signature), Consume(request), Commit(request, token, persisted)]
  }

  lemma RunThree(hash: string -> string, s: State, a: Event, b: Event, c: Event)
    ensures Run(hash, s, [a, b, c]) == Step(hash, Step(hash, Step(hash, s, a), b), c)
  {
    assert [a, b, c][1..] == [b, c] && [b, c][1..] == [c] && [c][1..] == [];
    var t := Step(hash, s, a);
    assert Run(hash, t, [b, c]) == Run(hash, Step(hash, t, b), [c]);
    assert Run(hash, Step(hash, t, b), [c]) == Run(hash, Step(hash, Step(hash, t, b), c), []);
  }

  /** A signature that may still be redeemed, by requests that do not collide. */
  predicate MayRedeem(s: State, request: nat, id: string, signature: Signature) {
    && request !in s.requests
    && id in s.challenges
    && Redeemable(s.challenges[id], s.clock)
    && Good(signature, s.signed, id, s.challenges[id])
    && !Locked(s, id)
  }

  /** Alone, a redemption up to its commit holds the challenge's row. */
  lemma RedemptionHolds(hash: string -> string, s: State, request: nat, id: string, signature: Signature)
    requires MayRedeem(s, request, id, signature)
    ensures Step(hash, Step(hash, s, Check(request, id, signature)), Consume(request))
         == s.(requests := s.requests[request := Redeem(id, s.challenges[id].wallet, s.clock, true)])
  {
    hide MessageFor;
    var checked := Step(hash, s, Check(request, id, signature));
    assert checked == s.(requests := s.requests[request := Redeem(id, s.challenges[id].wallet, s.clock, false)]);
    assert !Locked(checked, id);
  }

  /** A failed commit leaves neither a session nor a spent challenge: everything is as it was. */
  lemma FailedRedemptionLeavesNothing(hash: string -> string, s: State, request: nat, id: string, signature: Signature,
                                      token: string)
    requires MayRedeem(s, request, id, signature)
    ensures Run(hash, s, Redemption(request, id, signature, token, false)) == s
  {
    assert s.requests[request := Redeem(id, s.challenges[id].wallet, s.clock, true)] - {request} == s.requests;
    hide MayRedeem;
    RunThree(hash, s, Check(request, id, signature), Consume(request), Commit(request, token, false));
    RedemptionHolds(hash, s, request, id, signature);
  }

  /** The transaction of a request that holds its challenge ends without being stored. */
  predicate FailsToCommit(hash: string -> string, s: State, request: nat, e: Event) {
    match e
    case Crash(q) => q == request
    case Commit(q, token, persisted) => q == request && (!persisted || hash(token) in s.sessions)
    case _ => false
  }

  /**
   The same whatever other requests raced: when the transaction that holds a challenge fails, no
   table changes, and the challenge is free to be redeemed again by its signature while it lasts.
   */
  lemma FailedCommitLeavesNothing(hash: string -> string, events: seq<Event>, request: nat, e: Event)
    requires var s := Run(hash, INITIAL, events);
             request in s.requests && s.requests[request].holds && FailsToCommit(hash, s, request, e)
    ensures var s := Run(hash, INITIAL, events); var t := Step(hash, s, e); var id := s.requests[request].challenge;
            && t == s.(requests := s.requests - {request})
            && id in t.challenges && t.challenges[id].usedAt.None? && id !in t.origin.Values
            && forall q, signature :: q !in t.requests && Good(signature, t.signed, id, t.challenges[id]) ==>
                 (MayRedeem(t, q, id, signature) <==> t.clock <= t.challenges[id].expiresAt)
  {
    hide Run, MessageFor, HasSigned;
    RunKeeps(hash, INITIAL, events);
    var s := Run(hash, INITIAL, events);
    var id := s.requests[request].challenge;
    assert RequestOk(s, s.requests[request]);
    FreeAgain(s, request);
    UnspentHasNoSession(s, id);
  }

  /** Nobody else holds a challenge that a request held. */
  lemma FreeAgain(s: State, request: nat)
    requires Inv(s) && request in s.requests && s.requests[request].holds
    ensures !Locked(s.(requests := s.requests - {request}), s.requests[request].challenge)
  {
    hide RequestOk, Paired, ChallengeOk;
    var t := s.(requests := s.requests - {request});
    forall q | q in t.requests && t.requests[q].holds ensures t.requests[q].challenge != s.requests[request].challenge {
      assert SameLock(s.requests[q], s.requests[request]) ==> q == request;
    }
  }

  lemma UnspentHasNoSession(s: State, id: string)
    requires Paired(s) && id in s.challenges && s.challenges[id].usedAt.None?
    ensures id !in s.origin.Values
  {
    forall h | h in s.origin ensures s.origin[h] != id {
      assert h in s.sessions;
    }
  }

  /** A committed one spends the challenge and opens a live session for its wallet. */
  lemma RedemptionOpensASession(hash: string -> string, s: State, request: nat, id: string, signature: Signature,
                                token: string)
    requires MayRedeem(s, request, id, signature) && hash(token) !in s.sessions
    ensures var t := Run(hash, s, Redemption(request, id, signature, token, true));
            && Resolve(t, hash(token))
               == Some(Session(s.challenges[id].wallet, s.clock, s.clock + SESSION_TTL_SECONDS, None))
            && id in t.challenges && t.challenges[id].usedAt == Some(s.clock)
            && t.requests == s.requests
  {
    hide MessageFor;
    RunThree(hash, s, Check(request, id, signature), Consume(request), Commit(request, token, true));
    RedemptionHolds(hash, s, request, id, signature);
    assert s.requests[request := Redeem(id, s.challenges[id].wallet, s.clock, true)] - {request} == s.requests;
  }

  // ------------------------------------------------------------- the store

  datatype AuthError = InvalidChallenge | InvalidSignature | StoreFailed

  /** The two tables as the service updates them. `origin` is the history the model keeps. */
  class AuthStore {
    var challenges: map<string, Challenge>
    var sessions: map<string, Session>
    ghost var origin: map<string, string>

    constructor ()
      ensures challenges == map[] && sessions == map[] && origin == map[]
    {
      challenges, sessions, origin := map[], map[], map[];
    }

    /** The store between requests, at some moment. */
    ghost function At(clock: nat, signed: set<Signature>): State
      reads this
    {
      State(clock, challenges, sessions, signed, map[], origin)
    }

    method CreateChallenge(now: nat, id: string, wallet: string, persisted: bool, ghost signed: set<Signature>,
                           ghost hash: string -> string)
      returns (created: Option<Challenge>)
      requires OneLine(id) && OneLine(wallet)
      modifies this
      ensures At(now, signed)
           == if persisted then Step(hash, old(At(now, signed)), Issue(id, wallet)) else old(At(now, signed))
      ensures created == if persisted && id !in old(challenges) then Some(Challenge(wallet, now, now + 300, None))
                         else None
      ensures challenges == if created.Some? then old(challenges)[id := created.value] else old(challenges)
    {
      var challenge := Challenge(wallet, now, now + CHALLENGE_TTL_SECONDS, None);
      if !persisted || id in challenges { return None; }
      challenges := challenges[id := challenge];
      return Some(challenge);
    }

    /** Alone, a redemption is its three steps; the answer is a session exactly when one was created. */
    method VerifyChallenge(hash: string -> string, now: nat, id: string, signature: Signature, signed: set<Signature>,
                           token: string, persisted: bool)
      returns (answer: Result<Session, AuthError>)
      modifies this
      ensures At(now, signed) == Run(hash, old(At(now, signed)), Redemption(0, id, signature, token, persisted))
      ensures answer.Ok? <==>
              && id in old(challenges) && old(challenges)[id].usedAt.None? && now <= old(challenges)[id].expiresAt
              && signature == Signature(old(challenges)[id].wallet, MessageFor(id, old(challenges)[id]))
              && signature in signed
              && persisted && hash(token) !in old(sessions)
      ensures answer.Ok? <==> sessions != old(sessions)
      ensures answer.Ok? ==> Resolve(At(now, signed), hash(token)) == Some(answer.value)
      ensures (answer == Err(InvalidSignature)) <==>
              id in old(challenges) && Redeemable(old(challenges)[id], now)
              && !Good(signature, signed, id, old(challenges)[id])
    {
      ghost var before := At(now, signed);
      RunThree(hash, before, Check(0, id, signature), Consume(0), Commit(0, token, persisted));
      if id !in challenges || challenges[id].usedAt.Some? || now > challenges[id].expiresAt {
        return Err(InvalidChallenge);
      }
      var challenge := challenges[id];
      if signature !in signed || signature != Signature(challenge.wallet, MessageFor(id, challenge)) {
        return Err(InvalidSignature);
      }

      ghost var checked := Step(hash, before, Check(0, id, signature));
      assert !Locked(checked, id);
      var session := Session(challenge.wallet, now, now + SESSION_TTL_SECONDS, None);
      if !persisted || hash(token) in sessions {
        assert Step(hash, checked, Consume(0)).requests - {0} == map[];
        return Err(StoreFailed);
      }
      challenges := challenges[id := challenge.(usedAt := Some(now))];
      sessions := sessions[hash(token) := session];
      origin := origin[hash(token) := id];
      assert Step(hash, checked, Consume(0)).requests - {0} == map[];
      return Ok(session);
    }

    method RevokeSession(now: nat, tokenHash: string, ghost signed: set<Signature>, ghost hash: string -> string)
      modifies this
      ensures At(now, signed) == Step(hash, old(At(now, signed)), Revoke(tokenHash))
    {
      if tokenHash in sessions && sessions[tokenHash].revokedAt.None? {
        sessions := sessions[tokenHash := sessions[tokenHash].(revokedAt := Some(now))];
      }
    }

    method ResolveSession(hash: string -> string, now: nat, token: string, ghost signed: set<Signature>)
      returns (session: Option<Session>)
      ensures session == Resolve(At(now, signed), hash(token))
    {
      if hash(token) !in sessions || sessions[hash(token)].revokedAt.Some? { return None; }
      if now > sessions[hash(token)].expiresAt { return None; }
      return Some(sessions[hash(token)]);
    }
  }
}
