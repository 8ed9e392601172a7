/** Who may read what: the list and the four detail endpoints of a task. */
module Reads {
  import opened Wrappers
  import opened Escrow
  import opened Verifier
  import opened Records
  import opened Settlement
  import opened Serialised
  import opened Services

  type Database = map<u64, Record>

  /** The one rule of visibility; `reader` is the wallet of a live session, if there is one. */
  predicate CanRead(row: Row, reader: Option<Address>) {
    if row.status == OPEN_FUNDED then true
    else if reader.None? then false
    else if row.status == DRAFT then reader == row.clientWallet
    else reader == row.clientWallet || (row.developerWallet.Some? && reader == row.developerWallet)
  }

  /** A GET request; `stellar` is what the contract would say of that bounty at the time. */
  datatype Get =
    | List
    | Task(id: u64)
    | OnChain(id: u64, stellar: StellarRead)
    | LatestSubmission(id: u64)
    | LatestVerification(id: u64)

  datatype Answer =
    | Tasks(tasks: seq<(u64, Row)>)
    | TheTask(id: u64, row: Row)
    | TheEscrow(bounty: Bounty)
    | TheSubmission(submission: Submission)
    | TheVerification(result: VerificationResult)
    | Failure(error: HttpError, detail: string)
    | Crashed

  const NO_BOUNTY := Failure(NotFound, "Bounty not found")

  // ------------------------------------------------------------- the marketplace

  predicate IsLeast(m: u64, ids: set<u64>) {
    m in ids && forall x :: x in ids ==> m <= x
  }

  lemma {:induction false} HasLeast(ids: set<u64>)
    requires ids != {}
    ensures exists m :: IsLeast(m, ids)
  {
    var m :| m in ids;
    var rest := ids - {m};
    if rest == {} {
      assert ids == {m};
      assert IsLeast(m, ids);
    } else {
      HasLeast(rest);
      var n :| IsLeast(n, rest);
      assert ids == rest + {m};
      assert IsLeast(if m < n then m else n, ids);
    }
  }

  ghost function Least(ids: set<u64>): (m: u64)
    requires ids != {}
    ensures IsLeast(m, ids)
  {
    HasLeast(ids);
    var m :| IsLeast(m, ids);
    m
  }

  /** `ORDER BY id`. */
  ghost function Ordered(db: Database, ids: set<u64>): (r: seq<(u64, Row)>)
    requires ids <= db.Keys
    decreases |ids|
  {
    if ids == {} then []
    else
      var m := Least(ids);
      [(m, db[m].row)] + Ordered(db, ids - {m})
  }

  function OpenTasks(db: Database): set<u64> {
    set id | id in db && db[id].row.status == OPEN_FUNDED
  }

  /** The list holds every row whose status is OPEN_FUNDED, once, by ascending id, and nothing else. */
  lemma {:induction false} OrderedIsTheSet(db: Database, ids: set<u64>)
    requires ids <= db.Keys
    ensures var r := Ordered(db, ids);
            && (forall id, row :: (id, row) in r <==> id in ids && row == db[id].row)
            && (forall j, k :: 0 <= j < k < |r| ==> r[j].0 < r[k].0)
    decreases |ids|
  {
    if ids != {} {
      var m := Least(ids);
      var rest := Ordered(db, ids - {m});
      OrderedIsTheSet(db, ids - {m});
      forall k | 0 <= k < |rest| ensures m < rest[k].0 {
        assert (rest[k].0, rest[k].1) in rest;
      }
    }
  }

  // ------------------------------------------------------------- answers

  predicate Visible(db: Database, id: u64, reader: Option<Address>) {
    id in db && CanRead(db[id].row, reader)
  }

  function ReadOnChain(r: Record, stellar: StellarRead): Answer {
    if r.row.createTx.None? then Failure(Conflict, "Bounty has not been confirmed on Stellar")
    else
      match stellar
      case NotConfigured => Failure(Unavailable, "Stellar evidence service is not configured")
      case ReadFailed => Failure(BadGateway, "Unable to read bounty evidence from Stellar")
      case ReadCrashed => Crashed
      case Read(b) => TheEscrow(b)
  }

  ghost function Serve(db: Database, reader: Option<Address>, q: Get): Answer {
    if q.List? then Tasks(Ordered(db, OpenTasks(db)))
    else if !Visible(db, q.id, reader) then NO_BOUNTY
    else
      var r := db[q.id];
      match q
      case Task(id) => TheTask(id, r.row)
      case OnChain(_, stellar) => ReadOnChain(r, stellar)
      case LatestSubmission(_) =>
        if r.submission.None? then Failure(NotFound, "Submission not found") else TheSubmission(r.submission.value)
      case LatestVerification(_) =>
        if r.verifications == [] then Failure(NotFound, "Verification not found") else TheVerification(Last(r).result)
  }

  ghost function ServeAll(db: Database, reader: Option<Address>, requests: seq<Get>): seq<Answer> {
    seq(|requests|, i requires 0 <= i < |requests| => Serve(db, reader, requests[i]))
  }

  /** What a reader can be shown of a record. */
  datatype Shown = Shown(row: Row, submission: Option<Submission>, result: Option<VerificationResult>)

  function ShownOf(r: Record): Shown {
    Shown(r.row, r.submission, if r.verifications == [] then None else Some(Last(r).result))
  }

  /** Two databases hold the same tasks as far as this reader may see. */
  ghost predicate SameToReader(a: Database, b: Database, reader: Option<Address>) {
    && (forall id :: Visible(a, id, reader) <==> Visible(b, id, reader))
    && (forall id :: Visible(a, id, reader) && Visible(b, id, reader) ==> ShownOf(a[id]) == ShownOf(b[id]))
  }

  lemma {:induction false} SameOrdered(a: Database, b: Database, ids: set<u64>)
    requires ids <= a.Keys && ids <= b.Keys && forall id :: id in ids ==> a[id].row == b[id].row
    ensures Ordered(a, ids) == Ordered(b, ids)
    decreases |ids|
  {
    if ids != {} {
      SameOrdered(a, b, ids - {Least(ids)});
    }
  }

  lemma SameOpenTasks(a: Database, b: Database, reader: Option<Address>)
    requires SameToReader(a, b, reader)
    ensures OpenTasks(a) == OpenTasks(b) && Ordered(a, OpenTasks(a)) == Ordered(b, OpenTasks(b))
  {
    forall id ensures id in OpenTasks(a) <==> id in OpenTasks(b) {
      if id in OpenTasks(a) { assert Visible(a, id, reader) && Visible(b, id, reader); }
      if id in OpenTasks(b) { assert Visible(a, id, reader) && Visible(b, id, reader); }
    }
    forall id | id in OpenTasks(a) ensures a[id].row == b[id].row {
      assert Visible(a, id, reader) && Visible(b, id, reader);
      assert ShownOf(a[id]) == ShownOf(b[id]);
    }
    SameOrdered(a, b, OpenTasks(a));
  }

  lemma SameAnswer(a: Database, b: Database, reader: Option<Address>, q: Get)
    requires SameToReader(a, b, reader)
    ensures Serve(a, reader, q) == Serve(b, reader, q)
  {
    if q.List? {
      SameOpenTasks(a, b, reader);
    } else {
      assert Visible(a, q.id, reader) <==> Visible(b, q.id, reader);
      if Visible(a, q.id, reader) {
        assert ShownOf(a[q.id]) == ShownOf(b[q.id]);
      }
    }
  }

  /** The three reads that together show everything of one task. */
  function Probes(id: u64): seq<Get> {
    [Task(id), LatestSubmission(id), LatestVerification(id)]
  }

  lemma ProbesShowAll(a: Database, b: Database, reader: Option<Address>, id: u64)
    requires forall q :: q in Probes(id) ==> Serve(a, reader, q) == Serve(b, reader, q)
    ensures Visible(a, id, reader) <==> Visible(b, id, reader)
    ensures Visible(a, id, reader) && Visible(b, id, reader) ==> ShownOf(a[id]) == ShownOf(b[id])
  {
    assert Task(id) in Probes(id) && LatestSubmission(id) in Probes(id) && LatestVerification(id) in Probes(id);
  }

  /**
   Reads depend on exactly what the reader may see: two databases answer every sequence of
   reads alike if, and only if, they show that reader the same tasks.
   */
  lemma ReadsShowExactlyTheVisible(a: Database, b: Database, reader: Option<Address>)
    ensures SameToReader(a, b, reader) <==>
            forall requests :: ServeAll(a, reader, requests) == ServeAll(b, reader, requests)
  {
    if SameToReader(a, b, reader) {
      forall requests ensures ServeAll(a, reader, requests) == ServeAll(b, reader, requests) {
        forall i | 0 <= i < |requests| ensures Serve(a, reader, requests[i]) == Serve(b, reader, requests[i]) {
          SameAnswer(a, b, reader, requests[i]);
        }
      }
    }
    if forall requests :: ServeAll(a, reader, requests) == ServeAll(b, reader, requests) {
      forall id
        ensures Visible(a, id, reader) <==> Visible(b, id, reader)
        ensures Visible(a, id, reader) && Visible(b, id, reader) ==> ShownOf(a[id]) == ShownOf(b[id])
      {
        assert ServeAll(a, reader, Probes(id)) == ServeAll(b, reader, Probes(id));
        forall q | q in Probes(id) ensures Serve(a, reader, q) == Serve(b, reader, q) {
          var i :| 0 <= i < |Probes(id)| && Probes(id)[i] == q;
          assert ServeAll(a, reader, Probes(id))[i] == ServeAll(b, reader, Probes(id))[i];
        }
        ProbesShowAll(a, b, reader, id);
      }
    }
  }

  /** To who may not read it, a task is as good as missing, on every endpoint; to who may, it never is. */
  lemma HiddenIsMissing(db: Database, reader: Option<Address>, id: u64, q: Get)
    requires id in db
    ensures !CanRead(db[id].row, reader) ==> Serve(db, reader, q) == Serve(db - {id}, reader, q)
    ensures !q.List? && q.id == id ==> (Serve(db, reader, q) == NO_BOUNTY <==> !CanRead(db[id].row, reader))
  {
    if !CanRead(db[id].row, reader) {
      assert SameToReader(db, db - {id}, reader);
      SameAnswer(db, db - {id}, reader, q);
    }
  }

  // ------------------------------------------------------------- over whole runs

  /**
   At any moment, whatever requests overlap, a task is on offer to everyone, or open to its
   client and its developer alone.
   */
  lemma OfferedOrTheirs(cfg: Config, start: System, actions: seq<Action>, id: u64, reader: Option<Address>)
    requires Initial(cfg, start) && id in Settlement.Run(cfg, start, actions).db
    ensures var row := Settlement.Run(cfg, start, actions).db[id].row;
            CanRead(row, reader) <==>
              row.status == OPEN_FUNDED
              || (reader.Some? && (reader == row.clientWallet || reader == row.developerWallet))
  {
    hide Initial, Settlement.Run;
    RunFromStart(cfg, start, actions);
    var s := Settlement.Run(cfg, start, actions);
    assert RecordOk(cfg, s, id, s.db[id]);
  }

  /** With requests on one row serialised, an accepted task's readers are its client and its developer for good. */
  lemma SerialisedStaysPrivate(cfg: Config, start: System, before: seq<Action>, after: seq<Action>, id: u64,
                               reader: Option<Address>)
    requires Initial(cfg, start) && id in SerialRun(cfg, start, before).db
    requires WithDeveloper(SerialRun(cfg, start, before).db[id].row.status)
    ensures var row := SerialRun(cfg, start, before).db[id].row;
            var t := SerialRun(cfg, SerialRun(cfg, start, before), after);
            && id in t.db
            && (CanRead(t.db[id].row, reader) <==>
                 reader.Some? && (reader == row.clientWallet || reader == row.developerWallet))
  {
    hide Initial, SerialRun;
    HistoryOnlyGrows(cfg, start, before, after, id);
    SerialFromStart(cfg, start, before);
    var s := SerialRun(cfg, start, before);
    AcceptedIsStaffed(cfg, s, id);
  }

  lemma AcceptedIsStaffed(cfg: Config, s: System, id: u64)
    requires Settlement.Inv(cfg, s) && id in s.db && WithDeveloper(s.db[id].row.status)
    ensures s.db[id].row.developerWallet.Some? && s.db[id].row.clientWallet.Some?
  {
    assert RecordOk(cfg, s, id, s.db[id]);
  }

  // ------------------------------------------------------------- endpoint by endpoint

  /** The rule of visibility, case by case. */
  lemma ReadersExactly(row: Row, reader: Option<Address>)
    ensures CanRead(row, reader) <==>
            || row.status == OPEN_FUNDED
            || (row.status == DRAFT && reader.Some? && row.clientWallet == reader)
            || (row.status != DRAFT && reader.Some? && (row.clientWallet == reader || row.developerWallet == reader))
  {
  }

  /** The list: every offer, to anyone. */
  lemma ListsExactly(db: Database, reader: Option<Address>)
    ensures var answer := Serve(db, reader, List);
            && answer.Tasks?
            && (forall id, row :: (id, row) in answer.tasks <==>
                 id in db && db[id].row == row && row.status == OPEN_FUNDED)
            && (forall j, k :: 0 <= j < k < |answer.tasks| ==> answer.tasks[j].0 < answer.tasks[k].0)
  {
    OrderedIsTheSet(db, OpenTasks(db));
    hide Ordered;
  }

  /** The other endpoints: of one task, to a reader who may see it, what there is; to anyone else, no task. */
  lemma AnswersExactly(db: Database, reader: Option<Address>, id: u64, stellar: StellarRead)
    ensures id !in db || !CanRead(db[id].row, reader) ==>
              && Serve(db, reader, Task(id)) == Failure(NotFound, "Bounty not found")
              && Serve(db, reader, OnChain(id, stellar)) == Failure(NotFound, "Bounty not found")
              && Serve(db, reader, LatestSubmission(id)) == Failure(NotFound, "Bounty not found")
              && Serve(db, reader, LatestVerification(id)) == Failure(NotFound, "Bounty not found")
    ensures id in db && CanRead(db[id].row, reader) ==>
              && Serve(db, reader, Task(id)) == TheTask(id, db[id].row)
              && Serve(db, reader, OnChain(id, stellar)) == EscrowAnswer(db[id].row, stellar)
              && Serve(db, reader, LatestSubmission(id))
                 == (if db[id].submission.Some? then TheSubmission(db[id].submission.value)
                     else Failure(NotFound, "Submission not found"))
              && Serve(db, reader, LatestVerification(id))
                 == (if |db[id].verifications| > 0
                     then TheVerification(db[id].verifications[|db[id].verifications| - 1].result)
                     else Failure(NotFound, "Verification not found"))
  {
    hide CanRead, Ordered;
  }

  /** The contract's bounty, once a funding was confirmed and if Stellar can be read. */
  function EscrowAnswer(row: Row, stellar: StellarRead): Answer {
    if !row.createTx.Some? then Failure(Conflict, "Bounty has not been confirmed on Stellar")
    else if stellar.NotConfigured? then Failure(Unavailable, "Stellar evidence service is not configured")
    else if stellar.ReadFailed? then Failure(BadGateway, "Unable to read bounty evidence from Stellar")
    else if stellar.ReadCrashed? then Crashed
    else TheEscrow(stellar.bounty)
  }
}
