/**
 The verdict on a pull request: functions of the inspection, the check runs and
 what the bounty expects. `fold` is the case folding of one character.
 */
module Verifier {
  import opened Wrappers

  datatype PullRequestFile = PullRequestFile(filename: string, previousFilename: Option<string>)

  datatype Inspection = Inspection(
    owner: string,
    repo: string,
    pullNumber: nat,
    state: string,
    draft: bool,
    author: Option<string>,
    baseRef: string,
    baseSha: string,
    headRef: string,
    headSha: string,
    files: seq<PullRequestFile>)

  datatype CheckRun = CheckRun(
    id: int,
    name: string,
    status: string,
    conclusion: Option<string>,
    headSha: string)

  /** What the bounty row says the pull request must be. */
  datatype Expected = Expected(
    owner: string,
    repo: string,
    baseBranch: string,
    baseSha: string,
    developerGithub: string)

  datatype Verdict = PASS | FAIL | PENDING

  datatype CheckResult = CheckResult(name: string, status: string, conclusion: Option<string>, passed: bool)

  datatype VerificationResult = VerificationResult(
    status: Verdict,
    eligibleForPayout: bool,
    repositoryValid: bool,
    baseBranchValid: bool,
    baseShaValid: bool,
    developerValid: bool,
    prOpen: bool,
    prNotDraft: bool,
    protectedFilesValid: bool,
    protectedFilesModified: seq<string>,
    checks: seq<CheckResult>,
    reasons: seq<string>,
    headSha: string)

  const REQUIRED_CHECKS := ["build", "regression-tests", "acceptance-tests"]
  const PROTECTED_EXACT_PATHS := [".github/workflows/mergepay-ci.yml", "requirements.txt"]
  const PROTECTED_PATH_PREFIXES := ["tests/regression/", "tests/acceptance/"]
  const MISSING_CHECK_STATUS := "missing"
  const COMPLETED_STATUS := "completed"
  const SUCCESS_CONCLUSION := "success"

  const WRONG_REPOSITORY := "Repository does not match bounty"
  const WRONG_BASE_BRANCH := "Base branch does not match bounty"
  const WRONG_BASE_SHA := "Base SHA does not match bounty"
  /** In two pieces: proofs look at the first characters, and the verifier unfolds long literals only so far. */
  const WRONG_AUTHOR := "Pull request author" + " does not match assigned developer"
  const NOT_OPEN := "Pull request is not open"
  const DRAFT := "Pull request is a draft"
  const PROTECTED_TOUCHED := "Protected files were modified"

  // ------------------------------------------------------------- case folding

  /** `str.casefold`: every character is replaced by its folding. */
  function CaseFold(fold: char -> string, s: string): string {
    if s == "" then "" else fold(s[0]) + CaseFold(fold, s[1..])
  }

  predicate SameFolded(fold: char -> string, a: string, b: string) {
    CaseFold(fold, a) == CaseFold(fold, b)
  }

  // ------------------------------------------------------------- check runs

  /** The highest id among the runs of that name; of equal ids the first. */
  function SelectLatest(name: string, runs: seq<CheckRun>): Option<CheckRun> {
    if runs == [] then None
    else
      var last := runs[|runs| - 1];
      var best := SelectLatest(name, runs[..|runs| - 1]);
      if last.name == name && (best.None? || best.value.id < last.id) then Some(last) else best
  }

  function OfCommit(runs: seq<CheckRun>, headSha: string): seq<CheckRun> {
    if runs == [] then []
    else OfCommit(runs[..|runs| - 1], headSha)
         + if runs[|runs| - 1].headSha == headSha then [runs[|runs| - 1]] else []
  }

  function EvaluateCheck(name: string, runs: seq<CheckRun>): (CheckResult, Option<string>) {
    match SelectLatest(name, runs)
    case None =>
      (CheckResult(name, MISSING_CHECK_STATUS, None, false), Some("Required check '" + name + "' is missing"))
    case Some(run) =>
      if run.status != COMPLETED_STATUS then
        (CheckResult(name, run.status, run.conclusion, false),
         Some("Required check '" + name + "' is still running"))
      else
        var passed := run.conclusion == Some(SUCCESS_CONCLUSION);
        (CheckResult(name, run.status, run.conclusion, passed),
         if passed then None
         else Some("Required check '" + name + "' failed with conclusion '" + Shown(run.conclusion) + "'"))
  }

  /** How a conclusion prints inside a message. */
  function Shown(conclusion: Option<string>): string {
    if conclusion.Some? then conclusion.value else "None"
  }

  function CheckResults(names: seq<string>, runs: seq<CheckRun>): (r: seq<CheckResult>)
    ensures |r| == |names|
    ensures forall i :: 0 <= i < |names| ==> r[i] == EvaluateCheck(names[i], runs).0
  {
    seq(|names|, i requires 0 <= i < |names| => EvaluateCheck(names[i], runs).0)
  }

  function CheckReasons(names: seq<string>, runs: seq<CheckRun>): seq<string> {
    if names == [] then []
    else
      var reason := EvaluateCheck(names[|names| - 1], runs).1;
      CheckReasons(names[..|names| - 1], runs) + if reason.Some? then [reason.value] else []
  }

  // ------------------------------------------------------------- protected files

  predicate HasPrefix(s: string, prefix: string) {
    prefix <= s
  }

  predicate IsProtectedPath(path: string) {
    path in PROTECTED_EXACT_PATHS || exists p :: p in PROTECTED_PATH_PREFIXES && HasPrefix(path, p)
  }

  function PathsOf(file: PullRequestFile): seq<string> {
    [file.filename] + if file.previousFilename.Some? then [file.previousFilename.value] else []
  }

  /** One path met by the scan: kept when protected and not met before. */
  function Note(protected: seq<string>, path: string): seq<string> {
    if path != "" && IsProtectedPath(path) && path !in protected then protected + [path] else protected
  }

  function NoteFile(protected: seq<string>, file: PullRequestFile): seq<string> {
    var noted := Note(protected, file.filename);
    if file.previousFilename.Some? then Note(noted, file.previousFilename.value) else noted
  }

  function ProtectedFiles(files: seq<PullRequestFile>): seq<string> {
    if files == [] then [] else NoteFile(ProtectedFiles(files[..|files| - 1]), files[|files| - 1])
  }

  // ------------------------------------------------------------- the verdict

  function RepositoryValid(fold: char -> string, i: Inspection, e: Expected): bool {
    SameFolded(fold, i.owner, e.owner) && SameFolded(fold, i.repo, e.repo)
  }

  function DeveloperValid(fold: char -> string, i: Inspection, e: Expected): bool {
    i.author.Some? && SameFolded(fold, i.author.value, e.developerGithub)
  }

  predicate StructureValid(fold: char -> string, i: Inspection, e: Expected) {
    && RepositoryValid(fold, i, e)
    && i.baseRef == e.baseBranch
    && i.baseSha == e.baseSha
    && DeveloperValid(fold, i, e)
    && i.state == "open"
    && !i.draft
    && ProtectedFiles(i.files) == []
  }

  function Unless(valid: bool, reason: string): seq<string> {
    if valid then [] else [reason]
  }

  function StructureReasons(fold: char -> string, i: Inspection, e: Expected): seq<string> {
    Unless(RepositoryValid(fold, i, e), WRONG_REPOSITORY)
    + Unless(i.baseRef == e.baseBranch, WRONG_BASE_BRANCH)
    + Unless(i.baseSha == e.baseSha, WRONG_BASE_SHA)
    + Unless(DeveloperValid(fold, i, e), WRONG_AUTHOR)
    + Unless(i.state == "open", NOT_OPEN)
    + Unless(!i.draft, DRAFT)
    + Unless(ProtectedFiles(i.files) == [], PROTECTED_TOUCHED)
  }

  function Decide(structure: bool, checks: seq<CheckResult>): Verdict {
    if !structure then FAIL
    else if exists c :: c in checks && c.status != COMPLETED_STATUS then PENDING
    else if forall c :: c in checks ==> c.passed then PASS
    else FAIL
  }

  function Verify(fold: char -> string, i: Inspection, runs: seq<CheckRun>, e: Expected): VerificationResult {
    var head := OfCommit(runs, i.headSha);
    var checks := CheckResults(REQUIRED_CHECKS, head);
    var status := Decide(StructureValid(fold, i, e), checks);
    VerificationResult(
      status, status == PASS,
      RepositoryValid(fold, i, e), i.baseRef == e.baseBranch, i.baseSha == e.baseSha,
      DeveloperValid(fold, i, e), i.state == "open", !i.draft,
      ProtectedFiles(i.files) == [], ProtectedFiles(i.files),
      checks, StructureReasons(fold, i, e) + CheckReasons(REQUIRED_CHECKS, head), i.headSha)
  }

  // ------------------------------------------------------------- selection

  /** What the selected run is, said without an order: one of the runs of that name, none newer. */
  ghost predicate IsLatest(name: string, runs: set<CheckRun>, r: CheckRun) {
    r in runs && r.name == name && forall q :: q in runs && q.name == name ==> q.id <= r.id
  }

  function SetOf<T>(s: seq<T>): set<T> {
    set x | x in s
  }

  lemma {:induction false} SelectsLatest(name: string, runs: seq<CheckRun>)
    ensures SelectLatest(name, runs).None? <==> forall q :: q in runs ==> q.name != name
    ensures SelectLatest(name, runs).Some? ==> IsLatest(name, SetOf(runs), SelectLatest(name, runs).value)
  {
    if runs != [] {
      var front := runs[..|runs| - 1];
      SelectsLatest(name, front);
      assert runs == front + [runs[|runs| - 1]];
    }
  }

  /** GitHub's ids identify a run among those of one name and commit. */
  ghost predicate DistinctIds(runs: set<CheckRun>) {
    forall p, q :: p in runs && q in runs && p.name == q.name && p.headSha == q.headSha && p.id == q.id ==> p == q
  }

  lemma {:induction false} OfCommitIsFilter(runs: seq<CheckRun>, headSha: string)
    ensures SetOf(OfCommit(runs, headSha)) == set r | r in runs && r.headSha == headSha
  {
    if runs != [] {
      var front := runs[..|runs| - 1];
      OfCommitIsFilter(front, headSha);
      assert runs == front + [runs[|runs| - 1]];
      assert SetOf(OfCommit(runs, headSha))
          == SetOf(OfCommit(front, headSha)) + if runs[|runs| - 1].headSha == headSha then {runs[|runs| - 1]} else {};
    }
  }

  lemma SelectionIgnoresOrder(name: string, a: seq<CheckRun>, b: seq<CheckRun>, headSha: string)
    requires SetOf(a) == SetOf(b) && DistinctIds(SetOf(a))
    ensures SelectLatest(name, OfCommit(a, headSha)) == SelectLatest(name, OfCommit(b, headSha))
  {
    OfCommitIsFilter(a, headSha);
    OfCommitIsFilter(b, headSha);
    var p, q := OfCommit(a, headSha), OfCommit(b, headSha);
    assert forall r :: r in a <==> r in SetOf(a);
    assert forall r :: r in b <==> r in SetOf(b);
    assert SetOf(p) == SetOf(q);
    assert forall r :: r in p <==> r in SetOf(p);
    assert forall r :: r in q <==> r in SetOf(q);
    SelectsLatest(name, p);
    SelectsLatest(name, q);
  }

  /** Two lists of runs that select alike for every required check give the same verdict. */
  lemma VerdictDependsOnSelection(fold: char -> string, i: Inspection, a: seq<CheckRun>, b: seq<CheckRun>, e: Expected)
    requires forall name :: name in REQUIRED_CHECKS ==>
               SelectLatest(name, OfCommit(a, i.headSha)) == SelectLatest(name, OfCommit(b, i.headSha))
    ensures Verify(fold, i, a, e) == Verify(fold, i, b, e)
  {
    var p, q := OfCommit(a, i.headSha), OfCommit(b, i.headSha);
    assert CheckResults(REQUIRED_CHECKS, p) == CheckResults(REQUIRED_CHECKS, q);
    ReasonsDependOnSelection(REQUIRED_CHECKS, p, q);
  }

  lemma {:induction false} ReasonsDependOnSelection(names: seq<string>, p: seq<CheckRun>, q: seq<CheckRun>)
    requires forall name :: name in names ==> SelectLatest(name, p) == SelectLatest(name, q)
    ensures CheckReasons(names, p) == CheckReasons(names, q)
  {
    if names != [] {
      ReasonsDependOnSelection(names[..|names| - 1], p, q);
      assert names[|names| - 1] in names;
    }
  }

  /** The verdict does not depend on the order, or the repetition, of the check runs. */
  lemma VerdictIgnoresOrder(fold: char -> string, i: Inspection, a: seq<CheckRun>, b: seq<CheckRun>, e: Expected)
    requires SetOf(a) == SetOf(b) && DistinctIds(SetOf(a))
    ensures Verify(fold, i, a, e) == Verify(fold, i, b, e)
  {
    forall name | name in REQUIRED_CHECKS
      ensures SelectLatest(name, OfCommit(a, i.headSha)) == SelectLatest(name, OfCommit(b, i.headSha))
    {
      SelectionIgnoresOrder(name, a, b, i.headSha);
    }
    VerdictDependsOnSelection(fold, i, a, b, e);
  }

  /** A run that cannot decide anything: another commit, no required name, or older than a namesake. */
  ghost predicate Irrelevant(x: CheckRun, runs: seq<CheckRun>, headSha: string) {
    || x.headSha != headSha
    || x.name !in REQUIRED_CHECKS
    || exists r :: r in runs && r.headSha == headSha && r.name == x.name && r.id > x.id
  }

  /** Inserting `x` changes the selection only by putting `x` in the place of nothing newer. */
  lemma {:induction false} InsertSelectsSelf(name: string, front: seq<CheckRun>, x: CheckRun, back: seq<CheckRun>)
    ensures var with := SelectLatest(name, front + [x] + back); var without := SelectLatest(name, front + back);
            || with == without
            || (with == Some(x) && x.name == name && (without.None? || without.value.id <= x.id))
    decreases |back|
  {
    var without, with := front + back, front + [x] + back;
    if back == [] {
      assert with[..|with| - 1] == front && without == front;
    } else {
      assert with[..|with| - 1] == front + [x] + back[..|back| - 1];
      assert without[..|without| - 1] == front + back[..|back| - 1];
      InsertSelectsSelf(name, front, x, back[..|back| - 1]);
    }
  }

  lemma {:induction false} OfCommitConcat(a: seq<CheckRun>, b: seq<CheckRun>, headSha: string)
    ensures OfCommit(a + b, headSha) == OfCommit(a, headSha) + OfCommit(b, headSha)
    decreases |b|
  {
    if b == [] {
      assert a + b == a;
    } else {
      assert (a + b)[..|a + b| - 1] == a + b[..|b| - 1];
      OfCommitConcat(a, b[..|b| - 1], headSha);
    }
  }

  /** Wherever an irrelevant run turns up in the list, the result is the same in every field. */
  lemma IrrelevantRunsDoNotMatter(fold: char -> string, i: Inspection, front: seq<CheckRun>, x: CheckRun,
                                  back: seq<CheckRun>, e: Expected)
    requires Irrelevant(x, front + back, i.headSha)
    ensures Verify(fold, i, front + [x] + back, e) == Verify(fold, i, front + back, e)
  {
    var p, q := OfCommit(front, i.headSha), OfCommit(back, i.headSha);
    OfCommitConcat(front, back, i.headSha);
    OfCommitConcat(front + [x], back, i.headSha);
    OfCommitConcat(front, [x], i.headSha);
    assert OfCommit([x], i.headSha) == if x.headSha == i.headSha then [x] else [];
    forall name | name in REQUIRED_CHECKS
      ensures SelectLatest(name, OfCommit(front + [x] + back, i.headSha))
           == SelectLatest(name, OfCommit(front + back, i.headSha))
    {
      if x.headSha == i.headSha {
        OfCommitIsFilter(front + back, i.headSha);
        assert forall r :: r in SetOf(OfCommit(front + back, i.headSha)) <==> r in p + q;
        SelectsLatest(name, p + q);
        InsertSelectsSelf(name, p, x, q);
      } else {
        assert p + [] == p;
      }
    }
    VerdictDependsOnSelection(fold, i, front + [x] + back, front + back, e);
  }

  // ------------------------------------------------------------- what each verdict means

  /** The newest run of a required name on the inspected commit finished with success. */
  ghost predicate Succeeded(name: string, runs: seq<CheckRun>, headSha: string) {
    var r := SelectLatest(name, OfCommit(runs, headSha));
    r.Some? && r.value.status == COMPLETED_STATUS && r.value.conclusion == Some(SUCCESS_CONCLUSION)
  }

  ghost predicate Unfinished(name: string, runs: seq<CheckRun>, headSha: string) {
    var r := SelectLatest(name, OfCommit(runs, headSha));
    r.None? || r.value.status != COMPLETED_STATUS
  }

  lemma {:induction false} NoCheckReasons(names: seq<string>, runs: seq<CheckRun>)
    ensures CheckReasons(names, runs) == []
            <==> (forall name :: name in names ==> EvaluateCheck(name, runs).1.None?)
  {
    if names != [] {
      NoCheckReasons(names[..|names| - 1], runs);
      assert names == names[..|names| - 1] + [names[|names| - 1]];
    }
  }

  /** A check result says whether its run succeeded or is unfinished, and complains unless it succeeded. */
  lemma CheckMeaning(name: string, runs: seq<CheckRun>, headSha: string)
    ensures var c := EvaluateCheck(name, OfCommit(runs, headSha));
            && (c.0.passed <==> Succeeded(name, runs, headSha))
            && (c.1.None? <==> Succeeded(name, runs, headSha))
            && (c.0.status != COMPLETED_STATUS <==> Unfinished(name, runs, headSha))
  {
  }

  lemma DecideMeaning(structure: bool, names: seq<string>, runs: seq<CheckRun>, headSha: string)
    ensures var status := Decide(structure, CheckResults(names, OfCommit(runs, headSha)));
            && (status == PENDING
                <==> structure && exists name :: name in names && Unfinished(name, runs, headSha))
            && (status == PASS
                <==> structure && forall name :: name in names ==> Succeeded(name, runs, headSha))
  {
    var checks := CheckResults(names, OfCommit(runs, headSha));
    forall k | 0 <= k < |names|
      ensures checks[k].passed <==> Succeeded(names[k], runs, headSha)
      ensures checks[k].status != COMPLETED_STATUS <==> Unfinished(names[k], runs, headSha)
    {
      CheckMeaning(names[k], runs, headSha);
    }
    assert (forall c :: c in checks ==> c.passed) <==> (forall k :: 0 <= k < |names| ==> checks[k].passed);
    assert (forall name :: name in names ==> Succeeded(name, runs, headSha))
        <==> (forall k :: 0 <= k < |names| ==> Succeeded(names[k], runs, headSha));
    if k :| 0 <= k < |names| && Unfinished(names[k], runs, headSha) {
      assert checks[k] in checks;
      assert names[k] in names;
    }
  }

  /** The verdict said outright, and PASS is exactly the verdict without complaints. */
  lemma VerdictMeaning(fold: char -> string, i: Inspection, runs: seq<CheckRun>, e: Expected)
    ensures var r := Verify(fold, i, runs, e);
            && (r.status == PASS <==> (StructureValid(fold, i, e)
                && forall name :: name in REQUIRED_CHECKS ==> Succeeded(name, runs, i.headSha)))
            && (r.status == PENDING <==> (StructureValid(fold, i, e)
                && exists name :: name in REQUIRED_CHECKS && Unfinished(name, runs, i.headSha)))
            && (r.eligibleForPayout <==> r.status == PASS)
            && (r.status == PASS <==> r.reasons == [])
  {
    DecideMeaning(StructureValid(fold, i, e), REQUIRED_CHECKS, runs, i.headSha);
    NoCheckReasons(REQUIRED_CHECKS, OfCommit(runs, i.headSha));
    forall name | name in REQUIRED_CHECKS
      ensures EvaluateCheck(name, OfCommit(runs, i.headSha)).1.None? <==> Succeeded(name, runs, i.headSha)
    {
      CheckMeaning(name, runs, i.headSha);
    }
  }

  // ------------------------------------------------------------- protected files

  lemma {:induction false} ProtectedFilesExactly(files: seq<PullRequestFile>)
    ensures forall p :: p in ProtectedFiles(files) <==>
              p != "" && IsProtectedPath(p) && exists f :: f in files && p in PathsOf(f)
    ensures forall j, k :: 0 <= j < k < |ProtectedFiles(files)| ==>
              ProtectedFiles(files)[j] != ProtectedFiles(files)[k]
  {
    if files != [] {
      var front, last := files[..|files| - 1], files[|files| - 1];
      ProtectedFilesExactly(front);
      assert files == front + [last];
      forall p ensures p in ProtectedFiles(files) <==>
                         p in ProtectedFiles(front) || (p != "" && IsProtectedPath(p) && p in PathsOf(last))
      {
      }
    }
  }

  // ------------------------------------------------------------- reasons shown at submission

  predicate NamesACheck(reason: string, checks: seq<CheckResult>) {
    exists c :: c in checks && HasPrefix(reason, "Required check '" + c.name + "'")
  }

  /** verification_service._structural_reasons: drops every reason that starts by naming a check. */
  function WithoutCheckReasons(reasons: seq<string>, checks: seq<CheckResult>): seq<string> {
    if reasons == [] then []
    else
      WithoutCheckReasons(reasons[..|reasons| - 1], checks)
      + if NamesACheck(reasons[|reasons| - 1], checks) then [] else [reasons[|reasons| - 1]]
  }

  function StructuralReasons(r: VerificationResult): seq<string> {
    WithoutCheckReasons(r.reasons, r.checks)
  }

  lemma {:induction false} WithoutConcat(a: seq<string>, b: seq<string>, checks: seq<CheckResult>)
    ensures WithoutCheckReasons(a + b, checks) == WithoutCheckReasons(a, checks) + WithoutCheckReasons(b, checks)
    decreases |b|
  {
    if b == [] {
      assert a + b == a;
    } else {
      assert (a + b)[..|a + b| - 1] == a + b[..|b| - 1];
      WithoutConcat(a, b[..|b| - 1], checks);
    }
  }

  lemma {:induction false} WithoutDropsAll(reasons: seq<string>, checks: seq<CheckResult>)
    requires forall r :: r in reasons ==> NamesACheck(r, checks)
    ensures WithoutCheckReasons(reasons, checks) == []
  {
    if reasons != [] {
      WithoutDropsAll(reasons[..|reasons| - 1], checks);
    }
  }

  lemma {:induction false} WithoutKeepsAll(reasons: seq<string>, checks: seq<CheckResult>)
    requires forall r :: r in reasons ==> !NamesACheck(r, checks)
    ensures WithoutCheckReasons(reasons, checks) == reasons
  {
    if reasons != [] {
      WithoutKeepsAll(reasons[..|reasons| - 1], checks);
    }
  }

  lemma ReasonNamesItsCheck(name: string, runs: seq<CheckRun>)
    ensures var c := EvaluateCheck(name, runs);
            c.1.Some? ==> HasPrefix(c.1.value, "Required check '" + c.0.name + "'")
  {
  }

  lemma {:induction false} CheckReasonsNameChecks(names: seq<string>, runs: seq<CheckRun>, checks: seq<CheckResult>)
    requires forall name :: name in names ==> EvaluateCheck(name, runs).0 in checks
    ensures forall r :: r in CheckReasons(names, runs) ==> NamesACheck(r, checks)
  {
    if names != [] {
      CheckReasonsNameChecks(names[..|names| - 1], runs, checks);
      ReasonNamesItsCheck(names[|names| - 1], runs);
    }
  }

  lemma PlainReason(reason: string, checks: seq<CheckResult>)
    requires |reason| > 2 && (reason[0] != 'R' || reason[2] != 'q')
    ensures !NamesACheck(reason, checks)
  {
    forall c | c in checks ensures !HasPrefix(reason, "Required check '" + c.name + "'") {
      var p := "Required check '" + c.name + "'";
      assert p[0] == 'R' && p[2] == 'q';
    }
  }

  lemma StructureReasonsArePlain(fold: char -> string, i: Inspection, e: Expected, checks: seq<CheckResult>)
    ensures forall r :: r in StructureReasons(fold, i, e) ==> !NamesACheck(r, checks)
  {
    assert WRONG_REPOSITORY[0] == 'R' && WRONG_REPOSITORY[2] == 'p';
    PlainReason(WRONG_REPOSITORY, checks);
    assert WRONG_BASE_BRANCH[0] == 'B' && WRONG_BASE_BRANCH[2] == 's';
    PlainReason(WRONG_BASE_BRANCH, checks);
    assert WRONG_BASE_SHA[0] == 'B' && WRONG_BASE_SHA[2] == 's';
    PlainReason(WRONG_BASE_SHA, checks);
    assert WRONG_AUTHOR[0] == 'P' && WRONG_AUTHOR[2] == 'l';
    PlainReason(WRONG_AUTHOR, checks);
    assert NOT_OPEN[0] == 'P' && NOT_OPEN[2] == 'l';
    PlainReason(NOT_OPEN, checks);
    assert DRAFT[0] == 'P' && DRAFT[2] == 'l';
    PlainReason(DRAFT, checks);
    assert PROTECTED_TOUCHED[0] == 'P' && PROTECTED_TOUCHED[2] == 'o';
    PlainReason(PROTECTED_TOUCHED, checks);
  }

  /** What a rejected submission is told: every broken structural rule, in order, and nothing about checks. */
  lemma StructuralReasonsExactly(fold: char -> string, i: Inspection, runs: seq<CheckRun>, e: Expected)
    ensures StructuralReasons(Verify(fold, i, runs, e)) == StructureReasons(fold, i, e)
    ensures StructureReasons(fold, i, e) == [] <==> StructureValid(fold, i, e)
  {
    var head := OfCommit(runs, i.headSha);
    var checks := CheckResults(REQUIRED_CHECKS, head);
    forall name | name in REQUIRED_CHECKS ensures EvaluateCheck(name, head).0 in checks {
      var k :| 0 <= k < |REQUIRED_CHECKS| && REQUIRED_CHECKS[k] == name;
      assert checks[k] == EvaluateCheck(name, head).0;
    }
    CheckReasonsNameChecks(REQUIRED_CHECKS, head, checks);
    WithoutDropsAll(CheckReasons(REQUIRED_CHECKS, head), checks);
    StructureReasonsArePlain(fold, i, e, checks);
    WithoutKeepsAll(StructureReasons(fold, i, e), checks);
    WithoutConcat(StructureReasons(fold, i, e), CheckReasons(REQUIRED_CHECKS, head), checks);
  }

  // ------------------------------------------------------------- the loops

  method FindProtectedFiles(files: seq<PullRequestFile>) returns (protected: seq<string>)
    ensures protected == ProtectedFiles(files)
  {
    protected := [];
    for k := 0 to |files|
      invariant protected == ProtectedFiles(files[..k])
    {
      var paths := PathsOf(files[k]);
      ghost var before := protected;
      for j := 0 to |paths|
        invariant j == 0 ==> protected == before
        invariant j == 1 ==> protected == Note(before, files[k].filename)
        invariant j == 2 ==> protected == NoteFile(before, files[k])
      {
        var path := paths[j];
        if path != "" && IsProtectedPath(path) && path !in protected {
          protected := protected + [path];
        }
      }
      assert files[..k + 1][..k] == files[..k];
    }
    assert files[..|files|] == files;
  }

  method CheckStructure(fold: char -> string, inspection: Inspection, e: Expected)
    returns (valid: bool, protectedFilesModified: seq<string>, reasons: seq<string>)
    ensures valid == StructureValid(fold, inspection, e)
    ensures protectedFilesModified == ProtectedFiles(inspection.files)
    ensures reasons == StructureReasons(fold, inspection, e)
  {
    var repositoryValid := RepositoryValid(fold, inspection, e);
    var baseBranchValid := inspection.baseRef == e.baseBranch;
    var baseShaValid := inspection.baseSha == e.baseSha;
    var developerValid := DeveloperValid(fold, inspection, e);
    var prOpen := inspection.state == "open";
    var prNotDraft := !inspection.draft;
    protectedFilesModified := FindProtectedFiles(inspection.files);
    var protectedFilesValid := protectedFilesModified == [];

    reasons := Unless(repositoryValid, WRONG_REPOSITORY);
    reasons := reasons + Unless(baseBranchValid, WRONG_BASE_BRANCH);
    reasons := reasons + Unless(baseShaValid, WRONG_BASE_SHA);
    reasons := reasons + Unless(developerValid, WRONG_AUTHOR);
    reasons := reasons + Unless(prOpen, NOT_OPEN);
    reasons := reasons + Unless(prNotDraft, DRAFT);
    reasons := reasons + Unless(protectedFilesValid, PROTECTED_TOUCHED);
    valid := repositoryValid && baseBranchValid && baseShaValid && developerValid
             && prOpen && prNotDraft && protectedFilesValid;
  }

  method EvaluateChecks(names: seq<string>, head: seq<CheckRun>)
    returns (checks: seq<CheckResult>, reasons: seq<string>)
    ensures checks == CheckResults(names, head) && reasons == CheckReasons(names, head)
  {
    checks, reasons := [], [];
    for k := 0 to |names|
      invariant checks == CheckResults(names[..k], head)
      invariant reasons == CheckReasons(names[..k], head)
    {
      var (result, reason) := EvaluateCheck(names[k], head);
      checks := checks + [result];
      if reason.Some? { reasons := reasons + [reason.value]; }
      assert names[..k + 1][..k] == names[..k];
    }
    assert names[..|names|] == names;
  }

  method VerifyPullRequest(fold: char -> string, inspection: Inspection, runs: seq<CheckRun>, e: Expected)
    returns (r: VerificationResult)
    ensures r == Verify(fold, inspection, runs, e)
  {
    var structuralValid, protectedFilesModified, reasons := CheckStructure(fold, inspection, e);
    var checks, checkReasons := EvaluateChecks(REQUIRED_CHECKS, OfCommit(runs, inspection.headSha));
    var status := Decide(structuralValid, checks);
    return VerificationResult(
        status, status == PASS,
        RepositoryValid(fold, inspection, e), inspection.baseRef == e.baseBranch,
        inspection.baseSha == e.baseSha, DeveloperValid(fold, inspection, e),
        inspection.state == "open", !inspection.draft,
        protectedFilesModified == [], protectedFilesModified,
        checks, reasons + checkReasons, inspection.headSha);
  }
}
