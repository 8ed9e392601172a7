/**
 What the browser remembers of a transaction it has sent, from the funding panel or the
 assignment panel, through timeouts, lost replies, refused signatures and refreshes.
 */
module Recovery {
  import opened Wrappers
  import opened Text
  import opened Messages

  datatype Panel = Funding | Assigning

  /** A submitted transaction; funding keeps only its hash. */
  datatype Pending = Pending(hash: string, github: string, address: string, signature: Option<string>)

  // ------------------------------------------------------------- session storage

  /** What is written under the panel's key, or anything else found there. */
  datatype Saved =
    | SavedHash(text: string)
    | SavedAssignment(hash: string, github: string, address: string, signature: Option<string>)
    | Corrupt

  /** `G[A-Z2-7]{55}`, matched in full. */
  predicate IsAccount(s: string) {
    |s| == 56 && s[0] == 'G' && forall c :: c in s ==> 'A' <= c <= 'Z' || '2' <= c <= '7'
  }

  predicate IsUsername(s: string) {
    1 <= |Trim(s)| <= 39 && forall c :: c in Trim(s) ==> IsGithubChar(c)
  }

  function Save(panel: Panel, p: Pending): Saved {
    match panel
    case Funding => SavedHash(Lower(p.hash))
    case Assigning => SavedAssignment(Lower(p.hash), Trim(p.github), p.address, p.signature)
  }

  /** `normalize` re-encodes a base64 signature of 64 bytes; what is not one is dropped, alone. */
  function Load(normalize: string -> Option<string>, panel: Panel, saved: Saved): Option<Pending> {
    match (panel, saved)
    case (Funding, SavedHash(text)) =>
      if IsHash(text) then Some(Pending(Lower(text), "", "", None)) else None
    case (Assigning, SavedAssignment(hash, github, address, signature)) =>
      if IsHash(hash) && IsUsername(github) && IsAccount(address)
      then Some(Pending(Lower(hash), Trim(github), address,
                        if signature.Some? then normalize(signature.value) else None))
      else None
    case _ => None
  }

  /** What the panels put together before they store anything. */
  predicate WellFormed(normalize: string -> Option<string>, panel: Panel, p: Pending) {
    && IsHash(p.hash) && Lower(p.hash) == p.hash
    && match panel
       case Funding => p.github == "" && p.address == "" && p.signature == None
       case Assigning =>
         && IsUsername(p.github) && Trim(p.github) == p.github && IsAccount(p.address)
         && (p.signature.Some? ==> normalize(p.signature.value) == p.signature)
  }

  /** What is stored is read back as it was, signature and all. */
  lemma SaveLoadRoundTrip(normalize: string -> Option<string>, panel: Panel, p: Pending)
    requires WellFormed(normalize, panel, p)
    ensures Load(normalize, panel, Save(panel, p)) == Some(p)
  {
    LowerIdempotent(p.hash);
  }

  // ------------------------------------------------------------- the page

  const MAX_POLL_ATTEMPTS: nat := 30

  /** Where a handler is waiting. */
  datatype Phase =
    | Idle
    | Sending(p: Pending)
    | Polling(p: Pending, attempts: nat)
    | Proving(p: Pending)
    | Confirming(p: Pending)

  datatype TxStatus = Included | Succeeded | Failed

  /**
   One bounty's panel in one browser session, and the network as it treats this browser's
   transactions. `phase` and `submitted` are the current mount's. A handler whose mount went
   away without a page load runs on among `others`: what it stores and clears counts, what it
   sets is dropped. The last four fields are history: transactions built, known never to have
   been sent, acknowledged by a reply that arrived, and settled, which is seen FAILED or
   confirmed by MergePay.
   */
  datatype Tab = Tab(
    panel: Panel,
    works: bool,
    phase: Phase,
    submitted: Option<Pending>,
    others: map<nat, Phase>,
    mounts: nat,
    stored: Option<Saved>,
    network: map<string, TxStatus>,
    built: seq<string>,
    unsent: set<string>,
    acknowledged: set<string>,
    settled: set<string>)

  /** What a waiting handler can be woken by, what the network does, and what the user does to the page. */
  datatype Event =
    | SendReplied
    | SendRefused
    | SendLost
    | PollNotFound
    | PollSuccess
    | PollFailed
    | PollLost
    | Sign(signature: string)
    | SignRefused
    | Confirmed
    | SignatureRejected
    | ConfirmFailed
    | Orphan(handler: nat, event: Event)
    | NetworkAccepts(accepted: string)
    | NetworkSettles(decided: string, success: bool)
    | Build(hash: string, github: string, address: string)
    | Retry
    | Refresh
    | Remount

  function Write(t: Tab, p: Pending): Tab {
    if t.works then t.(stored := Some(Save(t.panel, p))) else t
  }

  function Clear(t: Tab): Tab {
    if t.works then t.(stored := None) else t
  }

  // ------------------------------------------------------------- one handler

  /** A handler's step: the page after it, where it waits next, and what it sets its mount's memory to, if it does. */
  datatype Acted = Acted(tab: Tab, phase: Phase, memory: Option<Option<Pending>>)

  /** From the reply of `sendTransaction` on: polling, the proof of ownership, the confirmation. */
  function Act(normalize: string -> Option<string>, t: Tab, ph: Phase, e: Event): Acted {
    match (ph, e)
    // PENDING or DUPLICATE: `onSubmitted` runs.
    case (Sending(p), SendReplied) =>
      if p.hash !in t.network then Acted(t, ph, None)
      else Acted(Write(t.(acknowledged := t.acknowledged + {p.hash}), p), Polling(p, 0), None)
    // Nothing was sent, or the network refused it.
    case (Sending(p), SendRefused) =>
      if p.hash in t.network then Acted(t, ph, None) else Acted(t.(unsent := t.unsent + {p.hash}), Idle, None)
    // The send threw: no hash is known.
    case (Sending(p), SendLost) => Acted(t, Idle, None)
    case (Polling(p, attempts), PollNotFound) =>
      if attempts + 1 < MAX_POLL_ATTEMPTS then Acted(t, Polling(p, attempts + 1), None)
      else Acted(t, Idle, Some(Some(p)))
    case (Polling(p, _), PollSuccess) =>
      if p.hash !in t.network || !t.network[p.hash].Succeeded? then Acted(t, ph, None)
      else Acted(t, if t.panel.Funding? then Confirming(p) else Proving(p), Some(Some(p)))
    case (Polling(p, _), PollFailed) =>
      if p.hash !in t.network || !t.network[p.hash].Failed? then Acted(t, ph, None)
      else Acted(Clear(t.(settled := t.settled + {p.hash})), Idle, None)
    case (Polling(p, _), PollLost) => Acted(t, Idle, Some(Some(p)))
    case (Proving(p), Sign(signature)) =>
      if normalize(signature) != Some(signature) then Acted(t, ph, None)
      else
        var signed := p.(signature := Some(signature));
        Acted(Write(t, signed), Confirming(signed), Some(Some(signed)))
    case (Proving(p), SignRefused) => Acted(t, Idle, None)
    case (Confirming(p), Confirmed) => Acted(Clear(t.(settled := t.settled + {p.hash})), Idle, Some(None))
    // 403 'Developer wallet signature is invalid': the signature goes, the acceptance stays.
    case (Confirming(p), SignatureRejected) =>
      if t.panel.Funding? then Acted(t, ph, None)
      else Acted(Write(t, p.(signature := None)), Idle, Some(Some(p.(signature := None))))
    case (Confirming(p), ConfirmFailed) => Acted(t, Idle, None)
    case _ => Acted(t, ph, None)
  }

  function MountActs(normalize: string -> Option<string>, t: Tab, e: Event): Tab {
    var a := Act(normalize, t, t.phase, e);
    a.tab.(phase := a.phase, submitted := if a.memory.Some? then a.memory.value else t.submitted)
  }

  /** The same code after its mount is gone: React drops what it sets. */
  function OrphanActs(normalize: string -> Option<string>, t: Tab, handler: nat, e: Event): Tab {
    if handler !in t.others then t
    else
      var a := Act(normalize, t, t.others[handler], e);
      a.tab.(others := if a.phase.Idle? then t.others - {handler} else t.others[handler := a.phase])
  }

  // ------------------------------------------------------------- the network and the user

  function NewPending(panel: Panel, hash: string, github: string, address: string): Pending {
    match panel
    case Funding => Pending(hash, "", "", None)
    case Assigning => Pending(hash, Trim(github), address, None)
  }

  /**
   A click on `secureReward` or `acceptTask` that passes their guards. From here to the reply the
   handler is Sending: the transaction is prepared, signed in the wallet's popup and sent.
   */
  function DoBuild(normalize: string -> Option<string>, t: Tab, hash: string, github: string, address: string): Tab {
    var p := NewPending(t.panel, hash, github, address);
    if !t.phase.Idle? || t.submitted.Some? || hash in t.built || !WellFormed(normalize, t.panel, p) then t
    else t.(phase := Sending(p), built := t.built + [hash])
  }

  /** A transaction that was sent may be accepted late, even after the browser gave it up. */
  function DoAccept(t: Tab, hash: string): Tab {
    if hash in t.built && hash !in t.unsent && hash !in t.network then t.(network := t.network[hash := Included]) else t
  }

  function DoSettle(t: Tab, hash: string, success: bool): Tab {
    if hash in t.network && t.network[hash].Included?
    then t.(network := t.network[hash := if success then Succeeded else Failed])
    else t
  }

  function DoRetry(t: Tab): Tab {
    if !t.phase.Idle? || t.submitted.None? then t
    else
      var p := t.submitted.value;
      t.(phase := if t.panel.Funding? || p.signature.Some? then Confirming(p) else Proving(p))
  }

  /** What a new mount finds in storage; what makes no sense there is removed. */
  function Found(normalize: string -> Option<string>, t: Tab): Option<Pending> {
    if t.works && t.stored.Some? then Load(normalize, t.panel, t.stored.value) else None
  }

  function Mounted(normalize: string -> Option<string>, t: Tab): Tab {
    var found := Found(normalize, t);
    (if found.None? then Clear(t) else t).(phase := Idle, submitted := found, mounts := t.mounts + 1)
  }

  /** A page load ends every handler. */
  function DoRefresh(normalize: string -> Option<string>, t: Tab): Tab {
    Mounted(normalize, t).(others := map[])
  }

  /** A link away and back, or another identity: the handler in progress loses its mount and runs on. */
  function DoRemount(normalize: string -> Option<string>, t: Tab): Tab {
    Mounted(normalize, t).(others := if t.phase.Idle? then t.others else t.others[t.mounts := t.phase])
  }

  function Step(normalize: string -> Option<string>, t: Tab, e: Event): Tab {
    match e
    case Orphan(handler, event) => OrphanActs(normalize, t, handler, event)
    case NetworkAccepts(hash) => DoAccept(t, hash)
    case NetworkSettles(hash, success) => DoSettle(t, hash, success)
    case Build(hash, github, address) => DoBuild(normalize, t, hash, github, address)
    case Retry => DoRetry(t)
    case Refresh => DoRefresh(normalize, t)
    case Remount => DoRemount(normalize, t)
    case _ => MountActs(normalize, t, e)
  }

  function Run(normalize: string -> Option<string>, t: Tab, events: seq<Event>): Tab
    decreases |events|
  {
    if events == [] then t else Run(normalize, Step(normalize, t, events[0]), events[1..])
  }

  function Opened(panel: Panel, works: bool): Tab {
    Tab(panel, works, Idle, None, map[], 0, None, map[], [], {}, {}, {})
  }

  // ------------------------------------------------------------- the invariant

  function HashOf(ph: Phase): Option<string> {
    if ph.Idle? then None else Some(ph.p.hash)
  }

  /** A transaction whose reply arrived. */
  predicate Known(normalize: string -> Option<string>, t: Tab, p: Pending) {
    WellFormed(normalize, t.panel, p) && p.hash in t.acknowledged
  }

  predicate HandlerOk(normalize: string -> Option<string>, t: Tab, ph: Phase) {
    match ph
    case Idle => true
    case Sending(p) => WellFormed(normalize, t.panel, p) && p.hash in t.built && p.hash !in t.acknowledged + t.unsent
    case Polling(p, attempts) => Known(normalize, t, p) && attempts < MAX_POLL_ATTEMPTS
    case Proving(p) => Known(normalize, t, p) && t.panel.Assigning?
    case Confirming(p) => Known(normalize, t, p)
  }

  predicate StoredOk(normalize: string -> Option<string>, t: Tab) {
    t.stored.Some? ==>
      && Load(normalize, t.panel, t.stored.value).Some?
      && Known(normalize, t, Load(normalize, t.panel, t.stored.value).value)
  }

  predicate HistoryOk(t: Tab) {
    && t.settled <= t.acknowledged <= t.network.Keys
    && t.unsent !! t.network.Keys
    && (forall h :: h in t.network ==> h in t.built)
    && (forall h :: h in t.unsent ==> h in t.built)
  }

  /** What the mount holds in memory agrees with where its handler waits. */
  predicate MemoryOk(normalize: string -> Option<string>, t: Tab) {
    && (t.submitted.Some? ==> Known(normalize, t, t.submitted.value))
    && (t.phase.Sending? || t.phase.Polling? ==> t.submitted.None?)
    && (t.phase.Proving? || t.phase.Confirming? ==> t.submitted == Some(t.phase.p))
  }

  predicate BothSend(a: Phase, b: Phase) {
    a.Sending? && b.Sending? && a.p.hash == b.p.hash
  }

  predicate OthersOk(normalize: string -> Option<string>, t: Tab) {
    && (forall m :: m in t.others ==>
         m < t.mounts && !t.others[m].Idle? && HandlerOk(normalize, t, t.others[m]) && !BothSend(t.phase, t.others[m]))
    && (forall m, n :: m in t.others && n in t.others && BothSend(t.others[m], t.others[n]) ==> m == n)
  }

  predicate Inv(normalize: string -> Option<string>, t: Tab) {
    && HistoryOk(t)
    && StoredOk(normalize, t)
    && HandlerOk(normalize, t, t.phase)
    && MemoryOk(normalize, t)
    && OthersOk(normalize, t)
  }

  /** A handler's step touches only storage and the history of its own transaction. */
  predicate Touches(t: Tab, u: Tab, h: string) {
    && u == t.(stored := u.stored, unsent := u.unsent, acknowledged := u.acknowledged, settled := u.settled)
    && t.acknowledged <= u.acknowledged <= t.acknowledged + {h}
    && t.unsent <= u.unsent <= t.unsent + {h}
    && t.settled <= u.settled <= t.settled + {h}
  }

  lemma WriteIsLoaded(normalize: string -> Option<string>, t: Tab, p: Pending)
    requires Known(normalize, t, p) && StoredOk(normalize, t)
    ensures StoredOk(normalize, Write(t, p))
    ensures t.works ==> Found(normalize, Write(t, p)) == Some(p)
  {
    SaveLoadRoundTrip(normalize, t.panel, p);
  }

  lemma SignaturesAreWellFormed(normalize: string -> Option<string>, p: Pending, signature: string)
    requires WellFormed(normalize, Assigning, p)
    ensures normalize(signature) == Some(signature) ==>
              WellFormed(normalize, Assigning, p.(signature := Some(signature)))
    ensures WellFormed(normalize, Assigning, p.(signature := None))
  {
  }

  /** What a handler writes, if it writes, is its own transaction. */
  predicate Rewrites(normalize: string -> Option<string>, t: Tab, u: Tab, h: string) {
    u.stored == t.stored
    || (u.stored.None? && h in u.settled)
    || (t.works && Found(normalize, u).Some? && Found(normalize, u).value.hash == h)
  }

  /** What one handler's step keeps, and what it may set. */
  predicate Sound(normalize: string -> Option<string>, t: Tab, ph: Phase, a: Acted)
    requires !ph.Idle?
  {
    && HistoryOk(a.tab) && StoredOk(normalize, a.tab) && HandlerOk(normalize, a.tab, a.phase)
    && Touches(t, a.tab, ph.p.hash)
    && (a.phase.Idle? || a.phase.p.hash == ph.p.hash) && (a.phase.Sending? ==> a == Acted(t, ph, None))
    && (a.memory.Some? && a.memory.value.Some? ==>
          Known(normalize, a.tab, a.memory.value.value) && a.memory.value.value.hash == ph.p.hash)
    && Rewrites(normalize, t, a.tab, ph.p.hash)
  }

  lemma SendingIsSound(normalize: string -> Option<string>, t: Tab, p: Pending, e: Event)
    requires HistoryOk(t) && StoredOk(normalize, t) && HandlerOk(normalize, t, Sending(p))
    ensures Sound(normalize, t, Sending(p), Act(normalize, t, Sending(p), e))
  {
    hide WellFormed, Save, Load;
    if e.SendReplied? && p.hash in t.network {
      WriteIsLoaded(normalize, t.(acknowledged := t.acknowledged + {p.hash}), p);
    }
  }

  lemma PollingIsSound(normalize: string -> Option<string>, t: Tab, ph: Phase, e: Event)
    requires HistoryOk(t) && StoredOk(normalize, t) && ph.Polling? && HandlerOk(normalize, t, ph)
    ensures Sound(normalize, t, ph, Act(normalize, t, ph, e))
  {
    hide WellFormed, Save, Load;
  }

  lemma ProvingIsSound(normalize: string -> Option<string>, t: Tab, p: Pending, e: Event)
    requires HistoryOk(t) && StoredOk(normalize, t) && HandlerOk(normalize, t, Proving(p))
    ensures Sound(normalize, t, Proving(p), Act(normalize, t, Proving(p), e))
  {
    hide WellFormed, Save, Load;
    if e.Sign? && normalize(e.signature) == Some(e.signature) {
      SignaturesAreWellFormed(normalize, p, e.signature);
      WriteIsLoaded(normalize, t, p.(signature := Some(e.signature)));
    }
  }

  lemma ConfirmingIsSound(normalize: string -> Option<string>, t: Tab, p: Pending, e: Event)
    requires HistoryOk(t) && StoredOk(normalize, t) && HandlerOk(normalize, t, Confirming(p))
    ensures Sound(normalize, t, Confirming(p), Act(normalize, t, Confirming(p), e))
  {
    hide WellFormed, Save, Load;
    if e.SignatureRejected? && t.panel.Assigning? {
      SignaturesAreWellFormed(normalize, p, "");
      WriteIsLoaded(normalize, t, p.(signature := None));
    }
  }

  lemma ActIsSound(normalize: string -> Option<string>, t: Tab, ph: Phase, e: Event)
    requires HistoryOk(t) && StoredOk(normalize, t) && HandlerOk(normalize, t, ph) && !ph.Idle?
    ensures Sound(normalize, t, ph, Act(normalize, t, ph, e))
  {
    hide HistoryOk, StoredOk, HandlerOk, Sound, Act;
    match ph
    case Sending(p) => SendingIsSound(normalize, t, p, e);
    case Polling(_, _) => PollingIsSound(normalize, t, ph, e);
    case Proving(p) => ProvingIsSound(normalize, t, p, e);
    case Confirming(p) => ConfirmingIsSound(normalize, t, p, e);
  }

  lemma OtherHandlerKept(normalize: string -> Option<string>, t: Tab, u: Tab, ph: Phase, q: Phase)
    requires !ph.Idle? && HandlerOk(normalize, t, ph) && HandlerOk(normalize, t, q) && !BothSend(ph, q)
    requires Touches(t, u, ph.p.hash)
    ensures HandlerOk(normalize, u, q)
  {
    hide WellFormed;
  }

  lemma OthersKept(normalize: string -> Option<string>, t: Tab, u: Tab)
    requires Inv(normalize, t) && !t.phase.Idle? && Touches(t, u, t.phase.p.hash)
    ensures forall m :: m in t.others ==> HandlerOk(normalize, u, t.others[m])
  {
    forall m | m in t.others ensures HandlerOk(normalize, u, t.others[m]) {
      hide HandlerOk, HistoryOk, StoredOk;
      OtherHandlerKept(normalize, t, u, t.phase, t.others[m]);
    }
  }

  /** A handler looks only at what the page is for and at its own transaction's history. */
  lemma HandlerFramed(normalize: string -> Option<string>, t: Tab, u: Tab, ph: Phase)
    requires HandlerOk(normalize, t, ph) && u.panel == t.panel && u.built == t.built
    requires u.acknowledged == t.acknowledged && u.unsent == t.unsent
    ensures HandlerOk(normalize, u, ph)
  {
    hide WellFormed;
  }

  lemma SameOthers(normalize: string -> Option<string>, t: Tab, u: Tab)
    requires OthersOk(normalize, t) && u.others == t.others && u.mounts == t.mounts
    requires forall m :: m in t.others ==> HandlerOk(normalize, u, t.others[m])
    requires u.phase.Sending? ==> u.phase == t.phase
    ensures OthersOk(normalize, u)
  {
    hide HandlerOk;
    forall m | m in u.others ensures !BothSend(u.phase, u.others[m]) {
      assert !BothSend(t.phase, t.others[m]);
    }
  }

  /** The handlers without a mount are not disturbed by the mount's own. */
  lemma OthersFollow(normalize: string -> Option<string>, t: Tab, e: Event)
    requires Inv(normalize, t) && !t.phase.Idle?
    ensures OthersOk(normalize, MountActs(normalize, t, e))
  {
    var a := Act(normalize, t, t.phase, e);
    var u := MountActs(normalize, t, e);
    ActIsSound(normalize, t, t.phase, e);
    OthersKept(normalize, t, a.tab);
    hide Act, HandlerOk, StoredOk, HistoryOk, MemoryOk, Rewrites, OthersOk;
    forall m | m in t.others ensures HandlerOk(normalize, u, t.others[m]) {
      HandlerFramed(normalize, a.tab, u, t.others[m]);
    }
    SameOthers(normalize, t, u);
  }

  lemma MountActsKeeps(normalize: string -> Option<string>, t: Tab, e: Event)
    requires Inv(normalize, t)
    ensures Inv(normalize, MountActs(normalize, t, e))
  {
    if t.phase.Idle? {
      assert MountActs(normalize, t, e) == t;
    } else {
      ActIsSound(normalize, t, t.phase, e);
      OthersFollow(normalize, t, e);
      MemoryFollows(normalize, t, e);
      hide Act, WellFormed, Load, Save, OthersOk, MemoryOk;
    }
  }

  lemma MemoryFollows(normalize: string -> Option<string>, t: Tab, e: Event)
    requires Inv(normalize, t) && !t.phase.Idle?
    ensures MemoryOk(normalize, MountActs(normalize, t, e))
  {
    hide WellFormed, Load, Save, OthersOk;
    ActIsSound(normalize, t, t.phase, e);
  }

  /** The handlers without a mount after one of them acted. */
  lemma OrphansFollow(normalize: string -> Option<string>, t: Tab, handler: nat, e: Event)
    requires Inv(normalize, t) && handler in t.others
    ensures OthersOk(normalize, OrphanActs(normalize, t, handler, e))
  {
    var ph := t.others[handler];
    var a := Act(normalize, t, ph, e);
    var u := OrphanActs(normalize, t, handler, e);
    ActIsSound(normalize, t, ph, e);
    hide Act, HistoryOk, StoredOk, MemoryOk, Rewrites;
    forall m | m in t.others && m != handler ensures HandlerOk(normalize, a.tab, t.others[m]) {
      hide HandlerOk;
      OtherHandlerKept(normalize, t, a.tab, ph, t.others[m]);
    }
    hide HandlerOk;
    OneMoves(normalize, t, a.tab, handler, a.phase);
  }

  lemma OneMoves(normalize: string -> Option<string>, t: Tab, u: Tab, handler: nat, next: Phase)
    requires OthersOk(normalize, t) && handler in t.others && u.others == t.others && u.mounts == t.mounts
    requires u.phase == t.phase && (next.Sending? ==> next == t.others[handler])
    requires HandlerOk(normalize, u, next)
    requires forall m :: m in t.others && m != handler ==> HandlerOk(normalize, u, t.others[m])
    ensures OthersOk(normalize, u.(others := if next.Idle? then u.others - {handler} else u.others[handler := next]))
  {
    var v := u.(others := if next.Idle? then u.others - {handler} else u.others[handler := next]);
    forall m | m in v.others ensures HandlerOk(normalize, v, v.others[m]) {
      HandlerFramed(normalize, u, v, v.others[m]);
    }
    hide HandlerOk;
    forall m, n | m in v.others && n in v.others && BothSend(v.others[m], v.others[n]) ensures m == n {
      assert BothSend(t.others[m], t.others[n]);
    }
    forall m | m in v.others ensures !BothSend(v.phase, v.others[m]) {
      assert !BothSend(t.phase, t.others[m]);
    }
  }

  lemma OrphanActsKeeps(normalize: string -> Option<string>, t: Tab, handler: nat, e: Event)
    requires Inv(normalize, t) && handler in t.others
    ensures Inv(normalize, OrphanActs(normalize, t, handler, e))
  {
    var ph := t.others[handler];
    ActIsSound(normalize, t, ph, e);
    OtherHandlerKept(normalize, t, Act(normalize, t, ph, e).tab, ph, t.phase);
    OrphansFollow(normalize, t, handler, e);
    hide Act, OthersOk, WellFormed, Load, Rewrites;
  }

  lemma MountedIsSound(normalize: string -> Option<string>, t: Tab)
    requires HistoryOk(t) && StoredOk(normalize, t)
    ensures var u := Mounted(normalize, t); HistoryOk(u) && StoredOk(normalize, u) && MemoryOk(normalize, u)
    ensures Found(normalize, Mounted(normalize, t)) == Found(normalize, t) == Mounted(normalize, t).submitted
  {
    hide WellFormed, Load;
  }

  lemma NetworkKeeps(normalize: string -> Option<string>, t: Tab, e: Event)
    requires Inv(normalize, t) && (e.NetworkAccepts? || e.NetworkSettles?)
    ensures Inv(normalize, Step(normalize, t, e))
  {
    hide WellFormed, Load;
  }

  /** The handler that lost its mount joins the others. */
  lemma OrphanedJoins(normalize: string -> Option<string>, t: Tab)
    requires Inv(normalize, t)
    ensures OthersOk(normalize, DoRemount(normalize, t))
  {
    var u := DoRemount(normalize, t);
    hide Found, StoredOk, HistoryOk, MemoryOk, WellFormed;
    forall m | m in u.others ensures HandlerOk(normalize, u, u.others[m]) {
      assert m in t.others ==> HandlerOk(normalize, t, t.others[m]);
    }
    forall m, n | m in u.others && n in u.others && BothSend(u.others[m], u.others[n]) ensures m == n {
      assert m in t.others && n in t.others ==> BothSend(t.others[m], t.others[n]);
    }
  }

  /** A mount goes away and another takes its place, or a page load ends them all. */
  lemma RemountKeeps(normalize: string -> Option<string>, t: Tab, e: Event)
    requires Inv(normalize, t) && (e.Refresh? || e.Remount?)
    ensures Inv(normalize, Step(normalize, t, e))
  {
    MountedIsSound(normalize, t);
    OrphanedJoins(normalize, t);
    hide WellFormed, Load, Found;
    if e.Remount? {
      hide OthersOk;
    }
  }

  lemma ButtonKeeps(normalize: string -> Option<string>, t: Tab, e: Event)
    requires Inv(normalize, t) && (e.Build? || e.Retry?)
    ensures Inv(normalize, Step(normalize, t, e))
  {
    hide WellFormed, Load, Trim;
    assert HandlerOk(normalize, t, Idle);
  }

  lemma StepKeeps(normalize: string -> Option<string>, t: Tab, e: Event)
    requires Inv(normalize, t)
    ensures Inv(normalize, Step(normalize, t, e)) && Step(normalize, t, e).works == t.works
  {
    hide Inv, Act, Found;
    match e
    case Orphan(handler, event) =>
      OrphanSameBrowser(normalize, t, handler, event);
      if handler in t.others { OrphanActsKeeps(normalize, t, handler, event); }
    case NetworkAccepts(_) => NetworkKeeps(normalize, t, e);
    case NetworkSettles(_, _) => NetworkKeeps(normalize, t, e);
    case Build(_, _, _) => ButtonKeeps(normalize, t, e);
    case Retry => ButtonKeeps(normalize, t, e);
    case Refresh => RemountKeeps(normalize, t, e);
    case Remount => RemountKeeps(normalize, t, e);
    case _ =>
      MountSameBrowser(normalize, t, e);
      MountActsKeeps(normalize, t, e);
  }

  lemma MountSameBrowser(normalize: string -> Option<string>, t: Tab, e: Event)
    ensures MountActs(normalize, t, e).works == t.works
  {
    hide WellFormed, Load, Save;
  }

  lemma OrphanSameBrowser(normalize: string -> Option<string>, t: Tab, handler: nat, e: Event)
    ensures OrphanActs(normalize, t, handler, e).works == t.works
  {
    hide WellFormed, Load, Save;
  }

  lemma {:induction false} RunKeeps(normalize: string -> Option<string>, t: Tab, events: seq<Event>)
    requires Inv(normalize, t)
    ensures Inv(normalize, Run(normalize, t, events)) && Run(normalize, t, events).works == t.works
    decreases |events|
  {
    hide Inv, Step;
    if events != [] {
      StepKeeps(normalize, t, events[0]);
      RunKeeps(normalize, Step(normalize, t, events[0]), events[1..]);
    }
  }

  // ------------------------------------------------------------- runs put together

  lemma {:induction false} RunConcat(normalize: string -> Option<string>, t: Tab, a: seq<Event>, b: seq<Event>)
    ensures Run(normalize, t, a + b) == Run(normalize, Run(normalize, t, a), b)
    decreases |a|
  {
    hide Step;
    if a == [] {
      assert a + b == b;
    } else {
      assert (a + b)[1..] == a[1..] + b;
      RunConcat(normalize, Step(normalize, t, a[0]), a[1..], b);
    }
  }

  lemma RunNothing(normalize: string -> Option<string>, t: Tab)
    ensures Run(normalize, t, []) == t
  {
  }

  lemma RunOne(normalize: string -> Option<string>, t: Tab, e: Event)
    ensures Run(normalize, t, [e]) == Step(normalize, t, e)
  {
    hide Step;
    assert Run(normalize, t, [e]) == Run(normalize, Step(normalize, t, e), [e][1..]);
  }

  lemma RunAppend(normalize: string -> Option<string>, t: Tab, a: seq<Event>, e: Event)
    ensures Run(normalize, t, a + [e]) == Step(normalize, Run(normalize, t, a), e)
  {
    RunConcat(normalize, t, a, [e]);
    RunOne(normalize, Run(normalize, t, a), e);
  }

  lemma RunTwo(normalize: string -> Option<string>, t: Tab, a: Event, b: Event)
    ensures Run(normalize, t, [a, b]) == Step(normalize, Step(normalize, t, a), b)
  {
    assert [a, b] == [a] + [b];
    RunAppend(normalize, t, [a], b);
    RunOne(normalize, t, a);
  }

  lemma RunThree(normalize: string -> Option<string>, t: Tab, a: Event, b: Event, c: Event)
    ensures Run(normalize, t, [a, b, c]) == Step(normalize, Step(normalize, Step(normalize, t, a), b), c)
  {
    assert [a, b, c] == [a, b] + [c];
    RunAppend(normalize, t, [a, b], c);
    RunTwo(normalize, t, a, b);
  }

  // ------------------------------------------------------------- what recovery promises

  /** The mount knows of this transaction: it builds no other. */
  predicate MountHas(t: Tab, h: string) {
    match t.phase
    case Idle => t.submitted.Some? && t.submitted.value.hash == h
    case Sending(_) => false
    case _ => t.phase.p.hash == h
  }

  /** A new mount would find this transaction. */
  predicate Holds(normalize: string -> Option<string>, t: Tab, h: string) {
    Found(normalize, t).Some? && Found(normalize, t).value.hash == h
  }

  predicate AllOthersAre(t: Tab, h: string) {
    forall m :: m in t.others ==> HashOf(t.others[m]) == Some(h)
  }

  /** Memory and storage hold the transaction, and no handler of another one is still running. */
  predicate Secure(normalize: string -> Option<string>, t: Tab, h: string) {
    MountHas(t, h) && (t.works ==> Holds(normalize, t, h) && AllOthersAre(t, h))
  }

  /** Without working storage, a new mount forgets. */
  predicate Tolerable(works: bool, e: Event) {
    works || (!e.Refresh? && !e.Remount?)
  }

  /** Settled, or remembered by the mount with no other transaction built since `t`. */
  predicate Kept(t: Tab, u: Tab, h: string) {
    h in u.settled || (MountHas(u, h) && u.built == t.built)
  }

  lemma MountStaysSecure(normalize: string -> Option<string>, t: Tab, e: Event, h: string)
    requires Inv(normalize, t) && Secure(normalize, t, h)
    ensures var u := MountActs(normalize, t, e); h in u.settled || Secure(normalize, u, h)
    ensures MountActs(normalize, t, e).built == t.built
  {
    hide WellFormed, Load, Save, OthersOk;
    if !t.phase.Idle? {
      ActIsSound(normalize, t, t.phase, e);
    }
  }

  lemma OrphanStaysSecure(normalize: string -> Option<string>, t: Tab, handler: nat, e: Event, h: string)
    requires Inv(normalize, t) && Secure(normalize, t, h)
    ensures var u := OrphanActs(normalize, t, handler, e); h in u.settled || Secure(normalize, u, h)
    ensures OrphanActs(normalize, t, handler, e).built == t.built
  {
    if handler in t.others {
      ActIsSound(normalize, t, t.others[handler], e);
      hide Act, WellFormed, Load, Save;
    }
  }

  lemma UserStaysSecure(normalize: string -> Option<string>, t: Tab, e: Event, h: string)
    requires Inv(normalize, t) && Secure(normalize, t, h) && Tolerable(t.works, e)
    requires e.NetworkAccepts? || e.NetworkSettles? || e.Build? || e.Retry? || e.Refresh? || e.Remount?
    ensures Secure(normalize, Step(normalize, t, e), h) && Step(normalize, t, e).built == t.built
  {
    hide WellFormed, Load, OthersOk, StoredOk;
    if e.Refresh? || e.Remount? { MountedIsSound(normalize, t); }
  }

  lemma StepStaysSecure(normalize: string -> Option<string>, t: Tab, e: Event, h: string)
    requires Inv(normalize, t) && Secure(normalize, t, h) && Tolerable(t.works, e)
    ensures var u := Step(normalize, t, e); h in u.settled || Secure(normalize, u, h)
    ensures Step(normalize, t, e).built == t.built
  {
    hide Inv, Secure, Act;
    match e
    case Orphan(handler, event) => OrphanStaysSecure(normalize, t, handler, event, h);
    case NetworkAccepts(_) => UserStaysSecure(normalize, t, e, h);
    case NetworkSettles(_, _) => UserStaysSecure(normalize, t, e, h);
    case Build(_, _, _) => UserStaysSecure(normalize, t, e, h);
    case Retry => UserStaysSecure(normalize, t, e, h);
    case Refresh => UserStaysSecure(normalize, t, e, h);
    case Remount => UserStaysSecure(normalize, t, e, h);
    case _ => MountStaysSecure(normalize, t, e, h);
  }

  lemma SettledStays(normalize: string -> Option<string>, t: Tab, e: Event)
    ensures t.settled <= Step(normalize, t, e).settled
  {
    hide WellFormed, Load, Save, Lower, Trim;
  }

  lemma {:induction false} SettledGrows(normalize: string -> Option<string>, t: Tab, events: seq<Event>)
    ensures t.settled <= Run(normalize, t, events).settled
    decreases |events|
  {
    hide Step;
    if events != [] {
      SettledStays(normalize, t, events[0]);
      SettledGrows(normalize, Step(normalize, t, events[0]), events[1..]);
    }
  }

  /**
   A secure transaction is remembered, in memory and in working storage, until it is seen
   FAILED or MergePay confirms it, and no other is built: over refreshes, remounts, timeouts,
   lost polls, closed popups and refused signatures in any order. Without working storage
   the same holds up to the first refresh or remount.
   */
  lemma {:induction false} SecureUntilSettled(normalize: string -> Option<string>, t: Tab, events: seq<Event>,
                                              h: string)
    requires Inv(normalize, t) && Secure(normalize, t, h)
    requires forall e :: e in events ==> Tolerable(t.works, e)
    ensures var u := Run(normalize, t, events);
            h in u.settled || (Secure(normalize, u, h) && u.built == t.built)
    decreases |events|
  {
    hide Inv, Secure, Step, Tolerable;
    if events != [] {
      var next := Step(normalize, t, events[0]);
      StepKeeps(normalize, t, events[0]);
      StepStaysSecure(normalize, t, events[0], h);
      if h in next.settled {
        SettledGrows(normalize, next, events[1..]);
      } else {
        SecureUntilSettled(normalize, next, events[1..], h);
      }
    }
  }


  // ------------------------------------------------------------- what the network says

  lemma DecidedStays(normalize: string -> Option<string>, t: Tab, e: Event, h: string)
    requires h in t.network && !t.network[h].Included?
    ensures h in Step(normalize, t, e).network && Step(normalize, t, e).network[h] == t.network[h]
  {
    hide Load, Save, WellFormed;
  }

  /** What the network has decided of a transaction it never takes back. */
  lemma {:induction false} DecidedForGood(normalize: string -> Option<string>, t: Tab, events: seq<Event>, h: string)
    requires h in t.network && !t.network[h].Included?
    ensures h in Run(normalize, t, events).network && Run(normalize, t, events).network[h] == t.network[h]
    decreases |events|
  {
    hide Step;
    if events != [] {
      DecidedStays(normalize, t, events[0], h);
      DecidedForGood(normalize, Step(normalize, t, events[0]), events[1..], h);
    }
  }

  /** A poll moves its handler on exactly as the network decided. */
  lemma PollsTellTheTruth(normalize: string -> Option<string>, t: Tab, p: Pending, attempts: nat)
    ensures var ph := Polling(p, attempts); var told := if p.hash in t.network then Some(t.network[p.hash]) else None;
            && (Act(normalize, t, ph, PollSuccess).phase == ph <==> told != Some(Succeeded))
            && (Act(normalize, t, ph, PollFailed).phase == ph <==> told != Some(Failed))
  {
  }
}
