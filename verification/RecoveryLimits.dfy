/**
 Exactly when the browser's recovery holds. A transaction is kept through everything that
 may follow when memory and storage hold it and no handler of another one is running; in
 any other state a run is built here that forgets it, and one that builds a second.
 */
module RecoveryLimits {
  import opened Wrappers
  import opened Text
  import opened Recovery

  // ------------------------------------------------------------- and when it does not

  /** Storage no longer holds the transaction, though nothing settled it. */
  predicate Displaced(normalize: string -> Option<string>, t: Tab, u: Tab, h: string) {
    !Holds(normalize, u, h) && h !in u.settled && u.built == t.built && u.works == t.works
  }

  /** The popup of an earlier mount is signed after all: its transaction is stored over this one. */
  lemma SignDisplaces(normalize: string -> Option<string>, t: Tab, handler: nat, h: string, signature: string)
    requires Inv(normalize, t) && t.works && h !in t.settled && normalize(signature) == Some(signature)
    requires handler in t.others && t.others[handler].Proving? && t.others[handler].p.hash != h
    ensures Displaced(normalize, t, Step(normalize, t, Orphan(handler, Sign(signature))), h)
  {
    hide Save, Load, WellFormed, OthersOk;
    var p := t.others[handler].p;
    assert HandlerOk(normalize, t, t.others[handler]) by { OtherIsOk(normalize, t, handler); }
    SignaturesAreWellFormed(normalize, p, signature);
    WriteIsLoaded(normalize, t, p.(signature := Some(signature)));
  }

  lemma OtherIsOk(normalize: string -> Option<string>, t: Tab, handler: nat)
    requires Inv(normalize, t) && handler in t.others
    ensures HandlerOk(normalize, t, t.others[handler]) && !t.others[handler].Idle?
  {
  }

  /** The confirmation of an earlier mount goes through: the entry is cleared, whatever it holds. */
  lemma ConfirmDisplaces(normalize: string -> Option<string>, t: Tab, handler: nat, h: string)
    requires t.works && h !in t.settled
    requires handler in t.others && t.others[handler].Confirming? && t.others[handler].p.hash != h
    ensures Displaced(normalize, t, Step(normalize, t, Orphan(handler, Confirmed)), h)
  {
    hide Save, Load;
  }

  lemma FailureDisplaces(normalize: string -> Option<string>, t: Tab, handler: nat, h: string)
    requires t.works && h !in t.settled
    requires handler in t.others && t.others[handler].Polling? && t.others[handler].p.hash != h
    requires t.others[handler].p.hash in t.network && t.network[t.others[handler].p.hash].Failed?
    ensures Displaced(normalize, t, Step(normalize, t, Orphan(handler, PollFailed)), h)
  {
    hide Save, Load;
  }

  /** The reply to the send of an earlier mount arrives: it is stored over this one. */
  lemma ReplyDisplaces(normalize: string -> Option<string>, t: Tab, handler: nat, h: string)
    requires Inv(normalize, t) && t.works && h !in t.settled
    requires handler in t.others && t.others[handler].Sending? && t.others[handler].p.hash != h
    ensures var accepted := Step(normalize, t, NetworkAccepts(t.others[handler].p.hash));
            Displaced(normalize, t, Step(normalize, accepted, Orphan(handler, SendReplied)), h)
  {
    var p := t.others[handler].p;
    OtherIsOk(normalize, t, handler);
    var u := Step(normalize, t, NetworkAccepts(p.hash));
    NetworkKeeps(normalize, t, NetworkAccepts(p.hash));
    hide Save, Load, WellFormed, OthersOk;
    WriteIsLoaded(normalize, u.(acknowledged := u.acknowledged + {p.hash}), p);
  }

  /** After a successful poll an earlier mount's handler goes on to the proof or the confirmation. */
  lemma SuccessGoesOn(normalize: string -> Option<string>, t: Tab, handler: nat)
    requires handler in t.others && t.others[handler].Polling?
    requires t.others[handler].p.hash in t.network && t.network[t.others[handler].p.hash].Succeeded?
    ensures var u := Step(normalize, t, Orphan(handler, PollSuccess)); var p := t.others[handler].p;
            u == t.(others := t.others[handler := if t.panel.Funding? then Confirming(p) else Proving(p)])
  {
  }

  /** Whatever another transaction's handler waits for, something it may be told makes it displace this one. */
  lemma OtherDisplaces(normalize: string -> Option<string>, t: Tab, handler: nat, h: string, signature: string)
    returns (events: seq<Event>)
    requires Inv(normalize, t) && t.works && h !in t.settled && normalize(signature) == Some(signature)
    requires handler in t.others && HashOf(t.others[handler]) != Some(h)
    ensures Displaced(normalize, t, Run(normalize, t, events), h)
  {
    OtherIsOk(normalize, t, handler);
    hide Displaced, Run, Act, WellFormed, OthersOk, StoredOk, Found;
    var p := t.others[handler].p;
    match t.others[handler]
    case Sending(_) =>
      ReplyDisplaces(normalize, t, handler, h);
      events := [NetworkAccepts(p.hash), Orphan(handler, SendReplied)];
      RunTwo(normalize, t, NetworkAccepts(p.hash), Orphan(handler, SendReplied));
    case Proving(_) =>
      SignDisplaces(normalize, t, handler, h, signature);
      events := [Orphan(handler, Sign(signature))];
      RunOne(normalize, t, Orphan(handler, Sign(signature)));
    case Confirming(_) =>
      ConfirmDisplaces(normalize, t, handler, h);
      events := [Orphan(handler, Confirmed)];
      RunOne(normalize, t, Orphan(handler, Confirmed));
    case Polling(_, _) =>
      events := PollDisplaces(normalize, t, handler, h, signature);
  }

  lemma PollDisplaces(normalize: string -> Option<string>, t: Tab, handler: nat, h: string, signature: string)
    returns (events: seq<Event>)
    requires Inv(normalize, t) && t.works && h !in t.settled && normalize(signature) == Some(signature)
    requires handler in t.others && t.others[handler].Polling? && t.others[handler].p.hash != h
    ensures Displaced(normalize, t, Run(normalize, t, events), h)
  {
    OtherIsOk(normalize, t, handler);
    var p := t.others[handler].p;
    match t.network[p.hash]
    case Failed =>
      FailureDisplaces(normalize, t, handler, h);
      events := [Orphan(handler, PollFailed)];
      RunOne(normalize, t, Orphan(handler, PollFailed));
    case Included =>
      var u := Step(normalize, t, NetworkSettles(p.hash, false));
      FailureDisplaces(normalize, u, handler, h);
      events := [NetworkSettles(p.hash, false), Orphan(handler, PollFailed)];
      RunTwo(normalize, t, NetworkSettles(p.hash, false), Orphan(handler, PollFailed));
    case Succeeded =>
      var u := Step(normalize, t, Orphan(handler, PollSuccess));
      StepKeeps(normalize, t, Orphan(handler, PollSuccess));
      SuccessGoesOn(normalize, t, handler);
      hide Inv;
      if t.panel.Funding? {
        ConfirmDisplaces(normalize, u, handler, h);
        events := [Orphan(handler, PollSuccess), Orphan(handler, Confirmed)];
        RunTwo(normalize, t, Orphan(handler, PollSuccess), Orphan(handler, Confirmed));
      } else {
        SignDisplaces(normalize, u, handler, h, signature);
        events := [Orphan(handler, PollSuccess), Orphan(handler, Sign(signature))];
        RunTwo(normalize, t, Orphan(handler, PollSuccess), Orphan(handler, Sign(signature)));
      }
  }

  lemma RefreshForgets(normalize: string -> Option<string>, t: Tab, u: Tab, h: string)
    requires Displaced(normalize, t, u, h)
    ensures var v := Step(normalize, u, Refresh); !MountHas(v, h) && h !in v.settled && v.built == t.built
  {
    hide Load;
  }

  /** A transaction that is not secure can be forgotten before anything settles it. */
  lemma UnsecureForgets(normalize: string -> Option<string>, t: Tab, h: string, signature: string)
    returns (events: seq<Event>)
    requires Inv(normalize, t) && t.works && h !in t.settled && normalize(signature) == Some(signature)
    requires !Secure(normalize, t, h)
    ensures var u := Run(normalize, t, events); !MountHas(u, h) && h !in u.settled && u.built == t.built
  {
    hide Run, Step, Inv;
    if !MountHas(t, h) {
      events := [];
      RunNothing(normalize, t);
    } else if !Holds(normalize, t, h) {
      RefreshForgets(normalize, t, t, h);
      events := [Refresh];
      RunOne(normalize, t, Refresh);
    } else {
      var handler :| handler in t.others && HashOf(t.others[handler]) != Some(h);
      var first := OtherDisplaces(normalize, t, handler, h, signature);
      RefreshForgets(normalize, t, Run(normalize, t, first), h);
      events := first + [Refresh];
      RunAppend(normalize, t, first, Refresh);
    }
  }

  predicate CanBuild(t: Tab) {
    t.phase.Idle? && t.submitted.None?
  }

  predicate Buildable(hash: string, github: string, address: string) {
    IsHash(hash) && Lower(hash) == hash && IsUsername(github) && IsAccount(address)
  }

  /** An idle panel that remembers nothing builds what it is asked to. */
  lemma IdleBuilds(normalize: string -> Option<string>, t: Tab, hash: string, github: string, address: string)
    requires CanBuild(t) && hash !in t.built && Buildable(hash, github, address)
    ensures var p := NewPending(t.panel, hash, github, address);
            p.hash == hash
            && Step(normalize, t, Build(hash, github, address)) == t.(phase := Sending(p), built := t.built + [hash])
  {
    TrimIdempotent(github);
  }

  /** The mount's own handler told to end with nothing remembered and this transaction not settled. */
  predicate Freed(t: Tab, u: Tab, h: string) {
    CanBuild(u) && h !in u.settled && u.built == t.built
  }

  lemma ConfirmFrees(normalize: string -> Option<string>, t: Tab, h: string)
    requires t.phase.Confirming? && t.phase.p.hash != h && h !in t.settled
    ensures Freed(t, Step(normalize, t, Confirmed), h)
  {
  }

  lemma SignReachesConfirm(normalize: string -> Option<string>, t: Tab, h: string, signature: string)
    requires t.phase.Proving? && t.phase.p.hash != h && h !in t.settled && normalize(signature) == Some(signature)
    ensures var u := Step(normalize, t, Sign(signature));
            u.phase.Confirming? && u.phase.p.hash != h && h !in u.settled && u.built == t.built
  {
    hide Save;
  }

  /** A mount waiting for the proof or the confirmation of another transaction can come free. */
  lemma WaitingFrees(normalize: string -> Option<string>, t: Tab, h: string, signature: string)
    returns (events: seq<Event>)
    requires (t.phase.Proving? || t.phase.Confirming?) && t.phase.p.hash != h
    requires h !in t.settled && normalize(signature) == Some(signature)
    ensures Freed(t, Run(normalize, t, events), h)
  {
    hide Run, Act;
    if t.phase.Confirming? {
      ConfirmFrees(normalize, t, h);
      events := [Confirmed];
      RunOne(normalize, t, Confirmed);
    } else {
      SignReachesConfirm(normalize, t, h, signature);
      ConfirmFrees(normalize, Step(normalize, t, Sign(signature)), h);
      events := [Sign(signature), Confirmed];
      RunTwo(normalize, t, Sign(signature), Confirmed);
    }
  }

  /** So can one that is idle with another transaction pending. */
  lemma PendingFrees(normalize: string -> Option<string>, t: Tab, h: string, signature: string)
    returns (events: seq<Event>)
    requires t.phase.Idle? && t.submitted.Some? && t.submitted.value.hash != h
    requires h !in t.settled && normalize(signature) == Some(signature)
    ensures Freed(t, Run(normalize, t, events), h)
  {
    hide Run;
    var u := Step(normalize, t, Retry);
    var rest := WaitingFrees(normalize, u, h, signature);
    events := [Retry] + rest;
    RunConcat(normalize, t, [Retry], rest);
    RunOne(normalize, t, Retry);
  }

  lemma MountFrees(normalize: string -> Option<string>, t: Tab, h: string, signature: string)
    returns (events: seq<Event>)
    requires Inv(normalize, t) && !MountHas(t, h) && h !in t.settled && normalize(signature) == Some(signature)
    ensures Freed(t, Run(normalize, t, events), h)
  {
    hide Run, OthersOk, StoredOk, WellFormed;
    if CanBuild(t) {
      events := [];
      RunNothing(normalize, t);
    } else if t.phase.Idle? {
      events := PendingFrees(normalize, t, h, signature);
    } else if t.phase.Sending? {
      events := [SendLost];
      RunOne(normalize, t, SendLost);
    } else if t.phase.Polling? {
      RunOne(normalize, t, PollLost);
      var rest := PendingFrees(normalize, Step(normalize, t, PollLost), h, signature);
      events := [PollLost] + rest;
      RunConcat(normalize, t, [PollLost], rest);
    } else {
      events := WaitingFrees(normalize, t, h, signature);
    }
  }

  // ------------------------------------------------------------- the exact condition

  /** The run in which another transaction is built before anything settled this one. */
  lemma UnsecureAllowsASecond(normalize: string -> Option<string>, t: Tab, h: string,
                              another: string, github: string, address: string, signature: string)
    returns (events: seq<Event>)
    requires Inv(normalize, t) && t.works && h !in t.settled && !Secure(normalize, t, h)
    requires normalize(signature) == Some(signature) && Buildable(another, github, address) && another !in t.built
    ensures var u := Run(normalize, t, events); h !in u.settled && u.built == t.built + [another]
  {
    hide Run, Step, Inv, Secure, Buildable, NewPending;
    var first := UnsecureForgets(normalize, t, h, signature);
    var u := Run(normalize, t, first);
    RunKeeps(normalize, t, first);
    var second := MountFrees(normalize, u, h, signature);
    var v := Run(normalize, u, second);
    IdleBuilds(normalize, v, another, github, address);
    events := first + second + [Build(another, github, address)];
    RunConcat(normalize, t, first, second);
    RunAppend(normalize, t, first + second, Build(another, github, address));
  }

  /**
   In every reachable state, with working storage: a transaction stays remembered and alone
   through everything that may follow until it is settled, if and only if it is secure now.
   */
  lemma KeptExactlyIfSecure(normalize: string -> Option<string>, panel: Panel, before: seq<Event>, h: string,
                            signature: string)
    requires normalize(signature) == Some(signature)
    requires h !in Run(normalize, Opened(panel, true), before).settled
    ensures var t := Run(normalize, Opened(panel, true), before);
            (forall events :: Kept(t, Run(normalize, t, events), h)) <==> Secure(normalize, t, h)
  {
    hide Run, Inv, Secure;
    OpenedIsOk(normalize, panel);
    RunKeeps(normalize, Opened(panel, true), before);
    KeptFromHere(normalize, Run(normalize, Opened(panel, true), before), h, signature);
  }

  lemma OpenedIsOk(normalize: string -> Option<string>, panel: Panel)
    ensures Inv(normalize, Opened(panel, true))
  {
  }

  lemma KeptFromHere(normalize: string -> Option<string>, t: Tab, h: string, signature: string)
    requires Inv(normalize, t) && t.works && h !in t.settled && normalize(signature) == Some(signature)
    ensures (forall events :: Kept(t, Run(normalize, t, events), h)) <==> Secure(normalize, t, h)
  {
    hide Run, Inv, Holds, AllOthersAre;
    if Secure(normalize, t, h) {
      forall events ensures Kept(t, Run(normalize, t, events), h) {
        SecureUntilSettled(normalize, t, events, h);
      }
    } else {
      var events := UnsecureForgets(normalize, t, h, signature);
      assert !Kept(t, Run(normalize, t, events), h);
    }
  }

  /** And a second transaction can be built before it is settled if and only if it is not. */
  lemma SecondExactlyIfNotSecure(normalize: string -> Option<string>, panel: Panel, before: seq<Event>, h: string,
                                 another: string, github: string, address: string, signature: string)
    requires normalize(signature) == Some(signature) && Buildable(another, github, address)
    requires var t := Run(normalize, Opened(panel, true), before); h !in t.settled && another !in t.built
    ensures var t := Run(normalize, Opened(panel, true), before);
            (exists events :: h !in Run(normalize, t, events).settled && Run(normalize, t, events).built != t.built)
            <==> !Secure(normalize, t, h)
  {
    hide Run, Inv, Secure, Buildable;
    OpenedIsOk(normalize, panel);
    RunKeeps(normalize, Opened(panel, true), before);
    var t := Run(normalize, Opened(panel, true), before);
    if Secure(normalize, t, h) {
      forall events ensures h in Run(normalize, t, events).settled || Run(normalize, t, events).built == t.built {
        SecureUntilSettled(normalize, t, events, h);
      }
    } else {
      var events := UnsecureAllowsASecond(normalize, t, h, another, github, address, signature);
      assert h !in Run(normalize, t, events).settled && Run(normalize, t, events).built != t.built;
    }
  }

  // ------------------------------------------------------------- when a send ends

  /** Some handler waits for the reply to this send. */
  predicate Awaited(t: Tab, h: string) {
    (t.phase.Sending? && t.phase.p.hash == h)
    || exists m :: m in t.others && t.others[m].Sending? && t.others[m].p.hash == h
  }

  /** The reply comes to the mount that sent it, and no handler of an earlier mount is running. */
  predicate OwnReply(t: Tab, e: Event, h: string) {
    e == SendReplied && t.phase.Sending? && t.phase.p.hash == h && t.others == map[]
  }

  lemma OwnReplySecures(normalize: string -> Option<string>, t: Tab, h: string)
    requires Inv(normalize, t) && t.works && h in t.network && OwnReply(t, SendReplied, h)
    ensures Secure(normalize, Step(normalize, t, SendReplied), h)
    ensures h !in Step(normalize, t, SendReplied).settled
  {
    hide Save, Load, WellFormed, OthersOk;
    WriteIsLoaded(normalize, t.(acknowledged := t.acknowledged + {h}), t.phase.p);
  }

  /** Nobody else knows of a transaction whose reply is awaited. */
  lemma AwaitedIsUnknown(normalize: string -> Option<string>, t: Tab, h: string)
    requires Inv(normalize, t) && Awaited(t, h)
    ensures h !in t.acknowledged && h !in t.settled && !MountHas(t, h) && !Holds(normalize, t, h)
  {
    hide WellFormed, Load;
  }

  /** A handler settles only a transaction it knows the reply of. */
  lemma NotSettledByOther(normalize: string -> Option<string>, t: Tab, ph: Phase, e: Event, h: string)
    requires HandlerOk(normalize, t, ph) && h !in t.acknowledged && h !in t.settled
    ensures h !in Act(normalize, t, ph, e).tab.settled
  {
    hide WellFormed, Save;
  }

  /** Nothing settled the transaction, and only its own reply can have told the mount of it. */
  predicate ToldByReply(t: Tab, u: Tab, e: Event, h: string) {
    && h !in u.settled
    && (MountHas(u, h) ==> e == SendReplied && t.phase.Sending? && t.phase.p.hash == h && u.others == t.others)
  }

  lemma MountIsTold(normalize: string -> Option<string>, t: Tab, e: Event, h: string)
    requires Inv(normalize, t) && h !in t.acknowledged && h !in t.settled && !MountHas(t, h)
    ensures h !in MountActs(normalize, t, e).settled && MountActs(normalize, t, e).others == t.others
    ensures MountHas(MountActs(normalize, t, e), h) ==> e == SendReplied && t.phase.Sending? && t.phase.p.hash == h
  {
    hide WellFormed, Load, Save, OthersOk, StoredOk;
    if !t.phase.Idle? {
      ActIsSound(normalize, t, t.phase, e);
      NotSettledByOther(normalize, t, t.phase, e, h);
    }
  }

  lemma OrphanTellsNobody(normalize: string -> Option<string>, t: Tab, handler: nat, e: Event, h: string)
    requires Inv(normalize, t) && h !in t.acknowledged && h !in t.settled && !MountHas(t, h)
    ensures var u := OrphanActs(normalize, t, handler, e); h !in u.settled && !MountHas(u, h)
  {
    if handler in t.others {
      OtherIsOk(normalize, t, handler);
      ActIsSound(normalize, t, t.others[handler], e);
      NotSettledByOther(normalize, t, t.others[handler], e, h);
      hide Act, Inv;
    }
  }

  lemma UserTellsNobody(normalize: string -> Option<string>, t: Tab, e: Event, h: string)
    requires Inv(normalize, t) && h !in t.settled && !MountHas(t, h) && !Holds(normalize, t, h)
    requires e.NetworkAccepts? || e.NetworkSettles? || e.Build? || e.Retry? || e.Refresh? || e.Remount?
    ensures var u := Step(normalize, t, e); h !in u.settled && !MountHas(u, h)
  {
    hide WellFormed, Load, Trim, OthersOk;
    if e.Refresh? || e.Remount? { MountedIsSound(normalize, t); }
  }

  lemma OnlyRepliesTell(normalize: string -> Option<string>, t: Tab, e: Event, h: string)
    requires Inv(normalize, t) && Awaited(t, h)
    ensures ToldByReply(t, Step(normalize, t, e), e, h)
  {
    AwaitedIsUnknown(normalize, t, h);
    hide Inv, Awaited, Act, Found;
    match e
    case Orphan(handler, event) => OrphanTellsNobody(normalize, t, handler, event, h);
    case NetworkAccepts(_) => UserTellsNobody(normalize, t, e, h);
    case NetworkSettles(_, _) => UserTellsNobody(normalize, t, e, h);
    case Build(_, _, _) => UserTellsNobody(normalize, t, e, h);
    case Retry => UserTellsNobody(normalize, t, e, h);
    case Refresh => UserTellsNobody(normalize, t, e, h);
    case Remount => UserTellsNobody(normalize, t, e, h);
    case _ => MountIsTold(normalize, t, e, h);
  }

  /**
   How a send ends decides. For every transaction the network has taken and whose reply is
   still awaited, and whatever happens next: it stays remembered and alone through all that
   may follow, until it is settled, if and only if what happened is its reply reaching the
   mount that sent it, with no handler of an earlier mount still running. A lost reply, a
   page load, and a mount that went away are each the other case.
   */
  lemma ReplyDecides(normalize: string -> Option<string>, panel: Panel, before: seq<Event>, e: Event, h: string,
                     signature: string)
    requires normalize(signature) == Some(signature)
    requires var t := Run(normalize, Opened(panel, true), before); Awaited(t, h) && h in t.network
    ensures var t := Run(normalize, Opened(panel, true), before);
            var u := Step(normalize, t, e);
            (forall events :: Kept(u, Run(normalize, u, events), h)) <==> OwnReply(t, e, h)
  {
    hide Run, Step, Inv, Holds;
    OpenedIsOk(normalize, panel);
    RunKeeps(normalize, Opened(panel, true), before);
    var t := Run(normalize, Opened(panel, true), before);
    var u := Step(normalize, t, e);
    StepKeeps(normalize, t, e);
    OnlyRepliesTell(normalize, t, e, h);
    KeptFromHere(normalize, u, h, signature);
    if OwnReply(t, e, h) {
      OwnReplySecures(normalize, t, h);
    } else if Secure(normalize, u, h) {
      SecuredHasNoOthers(normalize, t, u, h);
    }
  }

  lemma SecuredHasNoOthers(normalize: string -> Option<string>, t: Tab, u: Tab, h: string)
    requires Inv(normalize, t) && t.phase.Sending? && t.phase.p.hash == h
    requires AllOthersAre(u, h) && u.others == t.others
    ensures t.others == map[]
  {
    forall m | m in t.others ensures HashOf(t.others[m]) != Some(h) {
      OtherSendsElse(normalize, t, m);
    }
    hide Inv;
    assert forall m :: m !in t.others;
  }

  lemma OtherSendsElse(normalize: string -> Option<string>, t: Tab, m: nat)
    requires Inv(normalize, t) && t.phase.Sending? && m in t.others
    ensures HashOf(t.others[m]) != Some(t.phase.p.hash)
  {
    OtherIsOk(normalize, t, m);
    hide WellFormed;
  }

  // ------------------------------------------------------------- two runs in which it fails

  /** The network takes the transaction, its reply is lost or the page loaded again, and a second is built. */
  lemma LostReplyAllowsASecond(normalize: string -> Option<string>, panel: Panel, cut: Event,
                               first: string, second: string, github: string, address: string)
    requires cut == SendLost || cut == Refresh
    requires first != second && Buildable(first, github, address) && Buildable(second, github, address)
    ensures var t := Run(normalize, Opened(panel, true),
                         [Build(first, github, address), NetworkAccepts(first), cut]
                         + [Build(second, github, address)]);
            && t.network == map[first := Included] && t.settled == {} && !MountHas(t, first)
            && t.built == [first, second] && Awaited(t, second)
  {
    hide Buildable, NewPending, DoBuild, Load, Run;
    var t0 := Opened(panel, true);
    var a, b := Build(first, github, address), NetworkAccepts(first);
    RunAppend(normalize, t0, [a, b, cut], Build(second, github, address));
    RunThree(normalize, t0, a, b, cut);
    IdleBuilds(normalize, t0, first, github, address);
    var u := Step(normalize, Step(normalize, Step(normalize, t0, a), b), cut);
    assert u == t0.(built := [first], network := map[first := Included], mounts := u.mounts);
    IdleBuilds(normalize, u, second, github, address);
  }

  /** A send, and a new mount before its reply. */
  function LeftWaiting(first: string, github: string, address: string): seq<Event> {
    [Build(first, github, address), NetworkAccepts(first), Remount]
  }

  /** The reply reaches the handler left behind; the new mount sends a transaction of its own. */
  function SentTwice(second: string, github: string, address: string): seq<Event> {
    [Orphan(0, SendReplied), Build(second, github, address), NetworkAccepts(second)]
  }

  /** The first succeeds, and the failure of the second clears the entry. */
  function ClearedBySecond(first: string, second: string): seq<Event> {
    [NetworkSettles(first, true), NetworkSettles(second, false), PollFailed]
  }

  lemma LeftWaitingLeads(normalize: string -> Option<string>, panel: Panel, first: string, github: string,
                         address: string)
    requires Buildable(first, github, address)
    ensures var t0 := Opened(panel, true); var p := NewPending(panel, first, github, address);
            && WellFormed(normalize, panel, p) && p.hash == first
            && Run(normalize, t0, LeftWaiting(first, github, address))
               == t0.(built := [first], network := map[first := Included], others := map[0 := Sending(p)], mounts := 1)
  {
    hide Run, Load, Trim;
    var t0 := Opened(panel, true);
    TrimIdempotent(github);
    var p := NewPending(panel, first, github, address);
    assert WellFormed(normalize, panel, p) && p.hash == first;
    hide Buildable, WellFormed, NewPending;
    RunThree(normalize, t0, Build(first, github, address), NetworkAccepts(first), Remount);
  }

  lemma SentTwiceLeads(normalize: string -> Option<string>, t: Tab, first: Pending, second: string,
                       github: string, address: string)
    requires CanBuild(t) && t.works && t.built == [first.hash] && t.unsent == {}
    requires t.network == map[first.hash := Included] && t.others == map[0 := Sending(first)]
    requires second != first.hash && Buildable(second, github, address)
    ensures var p := NewPending(t.panel, second, github, address);
            && p.hash == second
            && Run(normalize, t, SentTwice(second, github, address))
               == t.(others := map[0 := Polling(first, 0)], acknowledged := t.acknowledged + {first.hash},
                     stored := Some(Save(t.panel, first)), phase := Sending(p), built := [first.hash, second],
                     network := map[first.hash := Included, second := Included])
  {
    hide Buildable, WellFormed, Load, Save, Run, NewPending, DoBuild;
    RunThree(normalize, t, Orphan(0, SendReplied), Build(second, github, address), NetworkAccepts(second));
    var u := Step(normalize, t, Orphan(0, SendReplied));
    assert u == t.(others := map[0 := Polling(first, 0)], acknowledged := t.acknowledged + {first.hash},
                   stored := Some(Save(t.panel, first)));
    IdleBuilds(normalize, u, second, github, address);
    assert [first.hash] + [second] == [first.hash, second];
  }

  lemma ClearedBySecondLeads(normalize: string -> Option<string>, t: Tab, first: string)
    requires t.works && t.phase.Polling? && t.phase.p.hash != first
    requires t.network == map[first := Included, t.phase.p.hash := Included]
    ensures Run(normalize, t, ClearedBySecond(first, t.phase.p.hash))
         == t.(phase := Idle, stored := None, settled := t.settled + {t.phase.p.hash},
               network := map[first := Succeeded, t.phase.p.hash := Failed])
  {
    hide Load, Save, Run, OrphanActs, DoBuild, DoRetry, DoRefresh, DoRemount, DoAccept;
    RunThree(normalize, t, NetworkSettles(first, true), NetworkSettles(t.phase.p.hash, false), PollFailed);
  }

  /**
   A link away and back while a send is awaited, with no reply lost and no page load: the
   second transaction is stored over the first when its own reply comes, and its failure
   clears the entry, though the first was acknowledged and succeeded.
   */
  lemma RemountForgetsASuccess(normalize: string -> Option<string>, panel: Panel,
                               first: string, second: string, github: string, address: string)
    requires first != second && Buildable(first, github, address) && Buildable(second, github, address)
    ensures var t := Run(normalize, Opened(panel, true),
                         LeftWaiting(first, github, address) + SentTwice(second, github, address) + [SendReplied]
                         + ClearedBySecond(first, second));
            && first in t.acknowledged && t.network == map[first := Succeeded, second := Failed]
            && first !in t.settled && t.built == [first, second]
            && !MountHas(t, first) && t.stored == None && CanBuild(t)
  {
    hide Run, Step, Buildable, WellFormed, NewPending, Save;
    var t0 := Opened(panel, true);
    var a, b := LeftWaiting(first, github, address), SentTwice(second, github, address);
    var d := ClearedBySecond(first, second);
    LeftWaitingLeads(normalize, panel, first, github, address);
    var t1 := Run(normalize, t0, a);
    SentTwiceLeads(normalize, t1, NewPending(panel, first, github, address), second, github, address);
    var t2 := Run(normalize, t1, b);
    ReplyStores(normalize, t2);
    var t3 := Step(normalize, t2, SendReplied);
    ClearedBySecondLeads(normalize, t3, first);
    RunConcat(normalize, t0, a, b);
    RunAppend(normalize, t0, a + b, SendReplied);
    RunConcat(normalize, t0, a + b + [SendReplied], d);
  }

  lemma ReplyStores(normalize: string -> Option<string>, t: Tab)
    requires t.works && t.phase.Sending? && t.phase.p.hash in t.network
    ensures Step(normalize, t, SendReplied)
         == t.(phase := Polling(t.phase.p, 0), acknowledged := t.acknowledged + {t.phase.p.hash},
               stored := Some(Save(t.panel, t.phase.p)))
  {
    hide Save;
  }
}
