/**
 The handlers of the two panels and the polling loop, statement by statement. What the
 network and MergePay answer are inputs. Each panel is proved to be, between handlers,
 exactly the tab that its trace of events leads to.
 */
module RecoveryPanels {
  import opened Wrappers
  import opened Text
  import opened Recovery

  datatype SendReply = Taken | Refused | SendThrew

  datatype PollReply = NotFound | Success | Failure | PollThrew

  datatype Outcome = OnChain | FailedOnChain | TimedOut | PollingBroke

  datatype ConfirmReply = ConfirmOk | BadSignature | ConfirmError

  // ------------------------------------------------------------- polling

  function PollOutcome(polls: nat -> PollReply, attempt: nat): Outcome
    decreases MAX_POLL_ATTEMPTS - attempt
  {
    if attempt >= MAX_POLL_ATTEMPTS then TimedOut
    else
      match polls(attempt)
      case NotFound => PollOutcome(polls, attempt + 1)
      case Success => OnChain
      case Failure => FailedOnChain
      case PollThrew => PollingBroke
  }

  /** `k` is the first poll that says anything. */
  predicate FirstAnswer(polls: nat -> PollReply, k: nat) {
    !polls(k).NotFound? && forall j: nat :: j < k ==> polls(j).NotFound?
  }

  /** The outcome is what the first of thirty polls to answer said, or a timeout if none did. */
  lemma OutcomeIsFirstAnswer(polls: nat -> PollReply, k: nat)
    requires FirstAnswer(polls, k)
    ensures PollOutcome(polls, 0)
         == if k >= 30 then TimedOut
            else if polls(k).Success? then OnChain
            else if polls(k).Failure? then FailedOnChain
            else PollingBroke
  {
    SkipSilence(polls, 0, if k < MAX_POLL_ATTEMPTS then k else MAX_POLL_ATTEMPTS);
  }

  lemma {:induction false} SkipSilence(polls: nat -> PollReply, from: nat, to: nat)
    requires from <= to <= MAX_POLL_ATTEMPTS && forall j: nat :: from <= j < to ==> polls(j).NotFound?
    ensures PollOutcome(polls, from) == PollOutcome(polls, to)
    decreases MAX_POLL_ATTEMPTS - from
  {
    if from < to {
      SkipSilence(polls, from + 1, to);
    }
  }

  /** An idle mount with a transaction pending. */
  function Keep(t: Tab, p: Pending): Tab {
    t.(phase := Idle, submitted := Some(p))
  }

  /** Between handlers, working storage holds what memory does. */
  predicate Mirrored(normalize: string -> Option<string>, t: Tab) {
    && (t.submitted.Some? ==> WellFormed(normalize, t.panel, t.submitted.value))
    && (t.works ==> t.stored == if t.submitted.Some? then Some(Save(t.panel, t.submitted.value)) else None)
  }

  lemma MirroredIsFound(normalize: string -> Option<string>, t: Tab)
    requires Mirrored(normalize, t)
    ensures Found(normalize, t) == if t.works then t.submitted else None
  {
    if t.submitted.Some? { SaveLoadRoundTrip(normalize, t.panel, t.submitted.value); }
  }

  /** A transaction that may be built now, as the panel would describe it. */
  predicate Fresh(normalize: string -> Option<string>, t: Tab, hash: string, p: Pending) {
    && t.phase.Idle? && t.submitted.None?
    && hash == p.hash && hash !in t.built && hash !in t.network && hash !in t.unsent
    && WellFormed(normalize, t.panel, p)
  }

  /** The events up to the reply of `sendTransaction`. */
  function SendEvents(hash: string, github: string, address: string, send: SendReply): seq<Event> {
    match send
    case Taken => [Build(hash, github, address), NetworkAccepts(hash), SendReplied]
    case Refused => [Build(hash, github, address), SendRefused]
    case SendThrew => [Build(hash, github, address), SendLost]
  }

  /** Where they lead: polling, with the transaction stored, or back to where nothing is remembered. */
  lemma AfterSend(normalize: string -> Option<string>, t: Tab, hash: string, github: string, address: string,
                  send: SendReply)
    requires Fresh(normalize, t, hash, NewPending(t.panel, hash, github, address))
    ensures var u := Run(normalize, t, SendEvents(hash, github, address, send));
            var p := NewPending(t.panel, hash, github, address);
            && u.panel == t.panel && u.works == t.works
            && u.submitted.None? && u.network == (if send.Taken? then t.network[hash := Included] else t.network)
            && u.stored == (if send.Taken? && t.works then Some(Save(t.panel, p)) else t.stored)
            && u.phase == (if send.Taken? then Polling(p, 0) else Idle)
  {
    var build := Build(hash, github, address);
    var p := NewPending(t.panel, hash, github, address);
    var sending := Step(normalize, t, build);
    assert sending == t.(phase := Sending(p), built := t.built + [hash]);
    RunOne(normalize, t, build);
    hide WellFormed, Run, Save, Load, NewPending, DoBuild, DoRetry, DoRefresh, DoRemount, OrphanActs;
    match send
    case Taken =>
      RunAppend(normalize, t, [build], NetworkAccepts(hash));
      RunAppend(normalize, t, [build, NetworkAccepts(hash)], SendReplied);
      assert [build] + [NetworkAccepts(hash)] == [build, NetworkAccepts(hash)];
      assert [build, NetworkAccepts(hash)] + [SendReplied] == [build, NetworkAccepts(hash), SendReplied];
    case Refused =>
      RunAppend(normalize, t, [build], SendRefused);
      assert [build] + [SendRefused] == [build, SendRefused];
    case SendThrew =>
      RunAppend(normalize, t, [build], SendLost);
      assert [build] + [SendLost] == [build, SendLost];
  }

  lemma OnePoll(normalize: string -> Option<string>, t: Tab, p: Pending, attempt: nat)
    requires attempt < MAX_POLL_ATTEMPTS && t.phase == Polling(p, attempt)
    ensures Step(normalize, t, PollNotFound)
         == if attempt + 1 < MAX_POLL_ATTEMPTS then t.(phase := Polling(p, attempt + 1)) else Keep(t, p)
  {
  }

  /** The loop of `signAndSubmit`: one poll at a time, thirty at most. `events` is what it amounts to. */
  method PollTransaction(ghost normalize: string -> Option<string>, ghost before: Tab, polls: nat -> PollReply)
    returns (outcome: Outcome, ghost events: seq<Event>)
    requires before.phase.Polling? && before.phase.attempts == 0
    ensures outcome == PollOutcome(polls, 0)
    ensures var after := Run(normalize, before, events);
            if outcome.TimedOut? then after == Keep(before, before.phase.p)
            else after.phase.Polling? && after == before.(phase := Polling(before.phase.p, after.phase.attempts))
  {
    hide Step;
    events := [];
    var attempt: nat := 0;
    while attempt < MAX_POLL_ATTEMPTS
      invariant attempt <= MAX_POLL_ATTEMPTS
      invariant PollOutcome(polls, 0) == PollOutcome(polls, attempt)
      invariant Run(normalize, before, events)
             == if attempt < MAX_POLL_ATTEMPTS then before.(phase := Polling(before.phase.p, attempt))
                else Keep(before, before.phase.p)
    {
      var reply := polls(attempt);
      if reply == Success { return OnChain, events; }
      if reply == Failure { return FailedOnChain, events; }
      if reply == PollThrew { return PollingBroke, events; }
      RunAppend(normalize, before, events, PollNotFound);
      OnePoll(normalize, Run(normalize, before, events), before.phase.p, attempt);
      events := events + [PollNotFound];
      attempt := attempt + 1;
    }
    return TimedOut, events;
  }

  /** The network's verdict that a decisive poll reports. */
  function Decision(p: Pending, outcome: Outcome): seq<Event> {
    if outcome.OnChain? || outcome.FailedOnChain? then [NetworkSettles(p.hash, outcome.OnChain?)] else []
  }

  /** The tab as a handler finds it when its submission returns or throws. */
  predicate Ready(t: Tab, p: Pending, settled: Option<Outcome>) {
    match settled
    case None => t.phase.Idle? && t.submitted.None?
    case Some(TimedOut) => t.phase.Idle? && t.submitted == Some(p)
    case Some(o) =>
      && t.submitted.None? && t.phase.Polling? && t.phase.p == p && p.hash in t.network
      && (o.OnChain? ==> t.network[p.hash].Succeeded?) && (o.FailedOnChain? ==> t.network[p.hash].Failed?)
  }

  lemma AfterPolls(normalize: string -> Option<string>, t: Tab, p: Pending, polled: seq<Event>, outcome: Outcome)
    requires t.phase == Polling(p, 0) && t.submitted.None? && p.hash in t.network && t.network[p.hash].Included?
    requires var after := Run(normalize, t, polled);
             if outcome.TimedOut? then after == Keep(t, p)
             else after.phase.Polling? && after == t.(phase := Polling(p, after.phase.attempts))
    ensures var u := Run(normalize, t, polled + Decision(p, outcome));
            u.panel == t.panel && u.works == t.works && u.stored == t.stored && Ready(u, p, Some(outcome))
  {
    hide Run;
    RunConcat(normalize, t, polled, Decision(p, outcome));
    var after := Run(normalize, t, polled);
    if outcome.OnChain? || outcome.FailedOnChain? {
      RunOne(normalize, after, NetworkSettles(p.hash, outcome.OnChain?));
    } else {
      RunNothing(normalize, after);
    }
  }

  /** Whether a submission is still to be recovered when its handler ends. */
  predicate StillPending(send: SendReply, outcome: Outcome, confirmed: bool) {
    send.Taken? && (outcome.TimedOut? || outcome.PollingBroke? || (outcome.OnChain? && !confirmed))
  }

  // ------------------------------------------------------------- funding

  class FundingPanel {
    const normalize: string -> Option<string>
    const works: bool
    var submitted: Option<Pending>
    var stored: Option<Saved>
    ghost var tab: Tab

    ghost predicate Follows()
      reads this
    {
      tab.panel == Funding && tab.works == works && tab.submitted == submitted && tab.stored == stored
    }

    ghost predicate Valid()
      reads this
    {
      Follows() && tab.phase.Idle? && Mirrored(normalize, tab)
    }

    constructor (normalize: string -> Option<string>, works: bool)
      ensures Valid() && tab == Opened(Funding, works) && this.normalize == normalize
    {
      this.normalize, this.works := normalize, works;
      submitted, stored, tab := None, None, Opened(Funding, works);
    }

    method StorePendingFundingHash(hash: string)
      modifies this`stored
      ensures stored == if works then Some(SavedHash(Lower(hash))) else old(stored)
    {
      if works { stored := Some(SavedHash(Lower(hash))); }
    }

    method ClearPendingFundingHash()
      modifies this`stored
      ensures stored == if works then None else old(stored)
    {
      if works { stored := None; }
    }

    method ReadPendingFundingHash() returns (found: Option<Pending>)
      modifies this`stored
      ensures found == if works && old(stored).Some? then Load(normalize, Funding, old(stored).value) else None
      ensures stored == if works && found.None? then None else old(stored)
    {
      if !works || stored.None? { return None; }
      found := Load(normalize, Funding, stored.value);
      // What makes no sense recovers nothing, and is removed.
      if found.None? { ClearPendingFundingHash(); }
    }

    /** The page is loaded again, or a link leads away and back: a mount starts from what storage holds. */
    method Reload(load: bool)
      requires Valid()
      modifies this
      ensures Valid() && tab == Step(normalize, old(tab), if load then Refresh else Remount)
      ensures submitted == if works then old(submitted) else None
    {
      MirroredIsFound(normalize, tab);
      submitted := ReadPendingFundingHash();
      tab := Step(normalize, tab, if load then Refresh else Remount);
    }

    method ConfirmWithMergePay(transaction: Pending, reply: ConfirmReply)
      requires Follows() && tab.phase == Confirming(transaction)
      modifies this
      ensures Follows() && tab == Step(normalize, old(tab), if reply.ConfirmOk? then Confirmed else ConfirmFailed)
      ensures submitted == if reply.ConfirmOk? then None else old(submitted)
      ensures stored == if reply.ConfirmOk? && works then None else old(stored)
    {
      if reply.ConfirmOk? {
        ClearPendingFundingHash();
        submitted := None;
        tab := Step(normalize, tab, Confirmed);
      } else {
        tab := Step(normalize, tab, ConfirmFailed);
      }
    }

    /** The retry button: the confirmation again, and nothing is signed or sent. */
    method RetryConfirmation(reply: ConfirmReply) returns (ghost events: seq<Event>)
      requires Valid() && submitted.Some?
      modifies this
      ensures Valid() && tab == Run(normalize, old(tab), events)
      ensures tab.built == old(tab).built && tab.network == old(tab).network
      ensures submitted == if reply.ConfirmOk? then None else old(submitted)
    {
      ghost var before := tab;
      hide WellFormed, Run;
      var e := if reply.ConfirmOk? then Confirmed else ConfirmFailed;
      RunOne(normalize, before, Retry);
      RunAppend(normalize, before, [Retry], e);
      events := [Retry] + [e];
      tab := Step(normalize, tab, Retry);
      ConfirmWithMergePay(submitted.value, reply);
    }

    /** `fundBounty` with its callback; `settled` is what became of a transaction that was taken. */
    method FundBounty(transaction: Pending, send: SendReply, polls: nat -> PollReply)
      returns (settled: Option<Outcome>, ghost events: seq<Event>)
      requires Valid() && Fresh(normalize, tab, transaction.hash, transaction)
      modifies this`stored, this`tab
      ensures tab == Run(normalize, old(tab), events)
      ensures settled == if send.Taken? then Some(PollOutcome(polls, 0)) else None
      ensures tab.panel == Funding && tab.works == works && tab.stored == stored
      ensures stored == if send.Taken? && works then Some(Save(Funding, transaction)) else old(stored)
      ensures Ready(tab, transaction, settled)
    {
      ghost var before := tab;
      assert transaction == NewPending(tab.panel, transaction.hash, "", "");
      hide Run, Step, Fresh, PollOutcome;
      AfterSend(normalize, before, transaction.hash, "", "", send);
      events := SendEvents(transaction.hash, "", "", send);
      tab := Run(normalize, tab, events);
      if !send.Taken? { return None, events; }
      StorePendingFundingHash(transaction.hash);

      var outcome;
      ghost var polled;
      outcome, polled := PollTransaction(normalize, tab, polls);
      ghost var more := polled + Decision(transaction, outcome);
      AfterPolls(normalize, tab, transaction, polled, outcome);
      RunConcat(normalize, before, events, more);
      events, tab := events + more, Run(normalize, tab, more);
      return Some(outcome), events;
    }

    /** What `secureReward` does once `fundBounty` has returned or thrown. */
    method AfterFunding(transaction: Pending, settled: Option<Outcome>, confirm: ConfirmReply)
      returns (ghost events: seq<Event>)
      requires tab.panel == Funding && tab.works == works && tab.stored == stored && submitted.None?
      requires Ready(tab, transaction, settled) && WellFormed(normalize, Funding, transaction)
      requires works ==> stored == if settled.Some? then Some(Save(Funding, transaction)) else None
      modifies this
      ensures Valid() && tab == Run(normalize, old(tab), events)
      ensures submitted == if settled.Some? && StillPending(Taken, settled.value, confirm.ConfirmOk?)
                           then Some(transaction) else None
    {
      ghost var before := tab;
      hide WellFormed, Run, Save, Lower, OrphanActs, DoBuild, DoRetry, DoRefresh, DoRemount, DoAccept, DoSettle;
      events := [];
      match settled
      case None =>
        RunNothing(normalize, before);
      case Some(TimedOut) =>
        RunNothing(normalize, before);
        submitted := Some(transaction);
      case Some(PollingBroke) =>
        submitted := Some(transaction);
        RunOne(normalize, before, PollLost);
        events, tab := [PollLost], Step(normalize, tab, PollLost);
      case Some(FailedOnChain) =>
        RunOne(normalize, before, PollFailed);
        events, tab := [PollFailed], Step(normalize, tab, PollFailed);
        ClearPendingFundingHash();
      case Some(OnChain) =>
        RunOne(normalize, before, PollSuccess);
        events, tab := [PollSuccess], Step(normalize, tab, PollSuccess);
        submitted := Some(transaction);
        ghost var e := if confirm.ConfirmOk? then Confirmed else ConfirmFailed;
        RunAppend(normalize, before, events, e);
        events := events + [e];
        ConfirmWithMergePay(transaction, confirm);
    }

    /** The whole handler: it ends idle, and what it forgets is only what was refused, lost, failed or confirmed. */
    method SecureReward(hash: string, send: SendReply, polls: nat -> PollReply, confirm: ConfirmReply)
      returns (ghost events: seq<Event>)
      requires Valid() && IsHash(hash) && Lower(hash) == hash
      requires hash !in tab.built && hash !in tab.network && hash !in tab.unsent
      modifies this
      ensures Valid() && tab == Run(normalize, old(tab), events)
      ensures submitted == if old(submitted).Some? then old(submitted)
                           else if StillPending(send, PollOutcome(polls, 0), confirm.ConfirmOk?)
                           then Some(Pending(hash, "", "", None)) else None
    {
      if submitted.Some? {
        RunNothing(normalize, tab);
        return [];
      }
      ghost var before := tab;
      var transaction := Pending(hash, "", "", None);
      assert Fresh(normalize, tab, hash, transaction);
      hide WellFormed, Run, Step, PollOutcome, Ready, Fresh;
      var settled;
      settled, events := FundBounty(transaction, send, polls);
      ghost var rest := AfterFunding(transaction, settled, confirm);
      RunConcat(normalize, before, events, rest);
      events := events + rest;
    }
  }

  // ------------------------------------------------------------- assignment

  /** The signature that is still worth sending when an acceptance ends unconfirmed. */
  function StillGood(outcome: Outcome, signature: Option<string>, reply: ConfirmReply): Option<string> {
    if outcome.OnChain? && reply.ConfirmError? then signature else None
  }

  class AssignmentPanel {
    const normalize: string -> Option<string>
    const works: bool
    var pending: Option<Pending>
    var stored: Option<Saved>
    ghost var tab: Tab

    ghost predicate Follows()
      reads this
    {
      tab.panel == Assigning && tab.works == works && tab.submitted == pending && tab.stored == stored
    }

    ghost predicate Valid()
      reads this
    {
      Follows() && tab.phase.Idle? && Mirrored(normalize, tab)
    }

    constructor (normalize: string -> Option<string>, works: bool)
      ensures Valid() && tab == Opened(Assigning, works) && this.normalize == normalize
    {
      this.normalize, this.works := normalize, works;
      pending, stored, tab := None, None, Opened(Assigning, works);
    }

    method StorePendingAssignment(p: Pending)
      modifies this`stored
      ensures stored == if works then Some(Save(Assigning, p)) else old(stored)
    {
      if works { stored := Some(SavedAssignment(Lower(p.hash), Trim(p.github), p.address, p.signature)); }
    }

    method ClearPendingAssignment()
      modifies this`stored
      ensures stored == if works then None else old(stored)
    {
      if works { stored := None; }
    }

    method ReadPendingAssignment() returns (found: Option<Pending>)
      modifies this`stored
      ensures found == if works && old(stored).Some? then Load(normalize, Assigning, old(stored).value) else None
      ensures stored == if works && found.None? then None else old(stored)
    {
      if !works || stored.None? { return None; }
      found := Load(normalize, Assigning, stored.value);
      // What makes no sense recovers nothing, and is removed.
      if found.None? { ClearPendingAssignment(); }
    }

    method Reload(load: bool)
      requires Valid()
      modifies this
      ensures Valid() && tab == Step(normalize, old(tab), if load then Refresh else Remount)
      ensures pending == if works then old(pending) else None
    {
      MirroredIsFound(normalize, tab);
      pending := ReadPendingAssignment();
      tab := Step(normalize, tab, if load then Refresh else Remount);
    }

    function ConfirmEvent(reply: ConfirmReply): Event {
      match reply case ConfirmOk => Confirmed case BadSignature => SignatureRejected case ConfirmError => ConfirmFailed
    }

    /** Only a refused signature changes what is pending, and it drops the signature alone. */
    method ConfirmWithMergePay(signed: Pending, reply: ConfirmReply)
      requires Follows() && tab.phase == Confirming(signed) && pending == Some(signed) && Mirrored(normalize, tab)
      modifies this
      ensures Valid() && tab == Step(normalize, old(tab), ConfirmEvent(reply))
      ensures tab.built == old(tab).built && tab.network == old(tab).network
      ensures pending == match reply
                         case ConfirmOk => None
                         case BadSignature => Some(signed.(signature := None))
                         case ConfirmError => old(pending)
    {
      if reply.ConfirmOk? {
        ClearPendingAssignment();
        pending := None;
      } else if reply.BadSignature? {
        var unsigned := signed.(signature := None);
        SignaturesAreWellFormed(normalize, signed, "");
        StorePendingAssignment(unsigned);
        pending := Some(unsigned);
      }
      tab := Step(normalize, tab, ConfirmEvent(reply));
    }

    /** A second popup, for the message only; closing it leaves the acceptance pending. */
    method ProveOwnership(unsigned: Pending, signature: Option<string>, reply: ConfirmReply)
      returns (ghost events: seq<Event>)
      requires Follows() && tab.phase == Proving(unsigned) && pending == Some(unsigned) && Mirrored(normalize, tab)
      requires signature.Some? ==> normalize(signature.value) == signature
      modifies this
      ensures Valid() && tab == Run(normalize, old(tab), events)
      ensures tab.built == old(tab).built && tab.network == old(tab).network
      ensures pending == if signature.None? then Some(unsigned)
                         else match reply
                              case ConfirmOk => None
                              case BadSignature => Some(unsigned.(signature := None))
                              case ConfirmError => Some(unsigned.(signature := signature))
    {
      hide Run, WellFormed, Lower, Trim;
      ghost var before := tab;
      if signature.None? {
        RunOne(normalize, before, SignRefused);
        tab := Step(normalize, tab, SignRefused);
        return [SignRefused];
      }
      var signed := unsigned.(signature := signature);
      SignaturesAreWellFormed(normalize, unsigned, signature.value);
      StorePendingAssignment(signed);
      pending := Some(signed);
      RunOne(normalize, before, Sign(signature.value));
      events, tab := [Sign(signature.value)], Step(normalize, tab, Sign(signature.value));
      RunAppend(normalize, before, events, ConfirmEvent(reply));
      events := events + [ConfirmEvent(reply)];
      ConfirmWithMergePay(signed, reply);
    }

    /** The buttons of a pending acceptance: its proof of ownership if that is missing, then its confirmation. */
    method RetryConfirmation(signature: Option<string>, reply: ConfirmReply) returns (ghost events: seq<Event>)
      requires Valid() && pending.Some?
      requires signature.Some? ==> normalize(signature.value) == signature
      modifies this
      ensures Valid() && tab == Run(normalize, old(tab), events)
      ensures tab.built == old(tab).built && tab.network == old(tab).network
      ensures pending.Some? ==> pending.value.(signature := None) == old(pending).value.(signature := None)
      ensures pending.None? <==> (old(pending).value.signature.Some? || signature.Some?) && reply.ConfirmOk?
    {
      ghost var before := tab;
      hide WellFormed, Run;
      RunOne(normalize, before, Retry);
      tab := Step(normalize, tab, Retry);
      if pending.value.signature.Some? {
        RunAppend(normalize, before, [Retry], ConfirmEvent(reply));
        events := [Retry] + [ConfirmEvent(reply)];
        ConfirmWithMergePay(pending.value, reply);
      } else {
        ghost var rest := ProveOwnership(pending.value, signature, reply);
        RunConcat(normalize, before, [Retry], rest);
        events := [Retry] + rest;
      }
    }

    method AcceptBounty(github: string, transaction: Pending, send: SendReply, polls: nat -> PollReply)
      returns (settled: Option<Outcome>, ghost events: seq<Event>)
      requires Valid() && Fresh(normalize, tab, transaction.hash, transaction)
      requires transaction == NewPending(tab.panel, transaction.hash, github, transaction.address)
      modifies this`stored, this`tab
      ensures tab == Run(normalize, old(tab), events)
      ensures settled == if send.Taken? then Some(PollOutcome(polls, 0)) else None
      ensures tab.panel == Assigning && tab.works == works && tab.stored == stored
      ensures stored == if send.Taken? && works then Some(Save(Assigning, transaction)) else old(stored)
      ensures Ready(tab, transaction, settled)
    {
      ghost var before := tab;
      hide Run, Step, Fresh, PollOutcome;
      AfterSend(normalize, before, transaction.hash, github, transaction.address, send);
      events := SendEvents(transaction.hash, github, transaction.address, send);
      tab := Run(normalize, tab, events);
      if !send.Taken? { return None, events; }
      StorePendingAssignment(transaction);

      var outcome;
      ghost var polled;
      outcome, polled := PollTransaction(normalize, tab, polls);
      ghost var more := polled + Decision(transaction, outcome);
      AfterPolls(normalize, tab, transaction, polled, outcome);
      RunConcat(normalize, before, events, more);
      events, tab := events + more, Run(normalize, tab, more);
      return Some(outcome), events;
    }

    /** What `acceptTask` does once `acceptBounty` has returned or thrown. */
    method AfterAcceptance(unsigned: Pending, settled: Option<Outcome>, signature: Option<string>, reply: ConfirmReply)
      returns (ghost events: seq<Event>)
      requires tab.panel == Assigning && tab.works == works && tab.stored == stored && pending.None?
      requires Ready(tab, unsigned, settled) && unsigned.signature.None? && WellFormed(normalize, Assigning, unsigned)
      requires works ==> stored == if settled.Some? then Some(Save(Assigning, unsigned)) else None
      requires signature.Some? ==> normalize(signature.value) == signature
      modifies this
      ensures Valid() && tab == Run(normalize, old(tab), events)
      ensures pending == if settled.Some? && StillPending(Taken, settled.value, signature.Some? && reply.ConfirmOk?)
                         then Some(unsigned.(signature := StillGood(settled.value, signature, reply)))
                         else None
    {
      ghost var before := tab;
      hide WellFormed, Run, Save, Lower, OrphanActs, DoBuild, DoRetry, DoRefresh, DoRemount, DoAccept, DoSettle;
      events := [];
      match settled
      case None =>
        RunNothing(normalize, before);
      case Some(TimedOut) =>
        RunNothing(normalize, before);
        pending := Some(unsigned);
      case Some(PollingBroke) =>
        pending := Some(unsigned);
        RunOne(normalize, before, PollLost);
        events, tab := [PollLost], Step(normalize, tab, PollLost);
      case Some(FailedOnChain) =>
        RunOne(normalize, before, PollFailed);
        events, tab := [PollFailed], Step(normalize, tab, PollFailed);
        ClearPendingAssignment();
      case Some(OnChain) =>
        RunOne(normalize, before, PollSuccess);
        events, tab := [PollSuccess], Step(normalize, tab, PollSuccess);
        pending := Some(unsigned);
        ghost var rest := ProveOwnership(unsigned, signature, reply);
        RunConcat(normalize, before, events, rest);
        events := events + rest;
    }

    /** The whole handler; `username` is what was typed and `signature` what the second popup gives. */
    method AcceptTask(username: string, address: string, hash: string, send: SendReply, polls: nat -> PollReply,
                      signature: Option<string>, reply: ConfirmReply)
      returns (ghost events: seq<Event>)
      requires Valid() && IsHash(hash) && Lower(hash) == hash && IsAccount(address)
      requires hash !in tab.built && hash !in tab.network && hash !in tab.unsent
      requires signature.Some? ==> normalize(signature.value) == signature
      modifies this
      ensures Valid() && tab == Run(normalize, old(tab), events)
      ensures pending == if old(pending).Some? || !IsUsername(Trim(username)) then old(pending)
                         else if StillPending(send, PollOutcome(polls, 0), signature.Some? && reply.ConfirmOk?)
                         then Some(Pending(hash, Trim(username), address,
                                           StillGood(PollOutcome(polls, 0), signature, reply)))
                         else None
    {
      var developerGithub := Trim(username);
      if pending.Some? || !IsUsername(developerGithub) {
        RunNothing(normalize, tab);
        return [];
      }
      TrimIdempotent(username);
      ghost var before := tab;
      var unsigned := Pending(hash, developerGithub, address, None);
      assert Fresh(normalize, tab, hash, unsigned);
      hide WellFormed, Run, Step, PollOutcome, Ready, Fresh, IsUsername, Trim;
      var settled;
      settled, events := AcceptBounty(developerGithub, unsigned, send, polls);
      ghost var rest := AfterAcceptance(unsigned, settled, signature, reply);
      RunConcat(normalize, before, events, rest);
      events := events + rest;
    }
  }
}
