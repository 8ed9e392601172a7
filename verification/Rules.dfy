/**
 The verdict on a pull request, said on the inspection's own fields and the runs GitHub served:
 what makes each rule hold, which run counts for a check, what the result says and why.
 */
module Rules {
  import opened Wrappers
  import opened Verifier

  // ------------------------------------------------------------- folding

  /** Folding goes character by character: it is fixed by what it does to one. */
  lemma {:induction false} FoldsEachCharacter(fold: char -> string, a: string, b: string, c: char)
    ensures CaseFold(fold, "") == "" && CaseFold(fold, [c]) == fold(c)
    ensures CaseFold(fold, a + b) == CaseFold(fold, a) + CaseFold(fold, b)
  {
    assert [c][1..] == "";
    if a == "" {
      assert a + b == b;
    } else {
      FoldsEachCharacter(fold, a[1..], b, c);
      assert (a + b)[1..] == a[1..] + b;
    }
  }

  // ------------------------------------------------------------- what the rules say

  predicate ProtectedPath(path: string) {
    || path == ".github/workflows/mergepay-ci.yml"
    || path == "requirements.txt"
    || "tests/regression/" <= path
    || "tests/acceptance/" <= path
  }

  /** This path is one the pull request touches, now or before a rename. */
  ghost predicate Touches(files: seq<PullRequestFile>, path: string) {
    exists f :: f in files && (f.filename == path || f.previousFilename == Some(path))
  }

  ghost predicate NothingProtected(files: seq<PullRequestFile>) {
    forall path :: path != "" && Touches(files, path) ==> !ProtectedPath(path)
  }

  /** The bounty's repository, branch and base commit, its developer, open, no draft, nothing protected touched. */
  ghost predicate InOrder(fold: char -> string, i: Inspection, e: Expected) {
    && CaseFold(fold, i.owner) == CaseFold(fold, e.owner) && CaseFold(fold, i.repo) == CaseFold(fold, e.repo)
    && i.baseRef == e.baseBranch && i.baseSha == e.baseSha
    && i.author.Some? && CaseFold(fold, i.author.value) == CaseFold(fold, e.developerGithub)
    && i.state == "open" && !i.draft
    && NothingProtected(i.files)
  }

  /** Run `k` decides a check: of that name and commit, the highest id, and the first listed with that id. */
  ghost predicate Decides(name: string, runs: seq<CheckRun>, headSha: string, k: nat) {
    && k < |runs| && runs[k].name == name && runs[k].headSha == headSha
    && forall j :: 0 <= j < |runs| && runs[j].name == name && runs[j].headSha == headSha ==>
         runs[j].id < runs[k].id || (runs[j].id == runs[k].id && k <= j)
  }

  /** The run that decides finished with success. */
  ghost predicate Passed(name: string, runs: seq<CheckRun>, headSha: string) {
    exists k: nat :: Decides(name, runs, headSha, k)
      && runs[k].status == "completed" && runs[k].conclusion == Some("success")
  }

  /** No run decides, or the one that does has not finished. */
  ghost predicate Waiting(name: string, runs: seq<CheckRun>, headSha: string) {
    forall k: nat :: Decides(name, runs, headSha, k) ==> runs[k].status != "completed"
  }

  ghost predicate AllPassed(runs: seq<CheckRun>, headSha: string) {
    && Passed("build", runs, headSha)
    && Passed("regression-tests", runs, headSha)
    && Passed("acceptance-tests", runs, headSha)
  }

  ghost predicate SomeWaiting(runs: seq<CheckRun>, headSha: string) {
    || Waiting("build", runs, headSha)
    || Waiting("regression-tests", runs, headSha)
    || Waiting("acceptance-tests", runs, headSha)
  }

  // ------------------------------------------------------------- the run that decides

  ghost predicate SelectionDecides(name: string, runs: seq<CheckRun>, headSha: string, best: Option<CheckRun>) {
    && (best.None? <==> forall j :: 0 <= j < |runs| ==> runs[j].name != name || runs[j].headSha != headSha)
    && (best.Some? ==> exists k: nat :: Decides(name, runs, headSha, k) && runs[k] == best.value)
  }

  lemma SelectStep(name: string, runs: seq<CheckRun>, headSha: string)
    requires runs != []
    ensures var last := runs[|runs| - 1];
            var best := SelectLatest(name, OfCommit(runs[..|runs| - 1], headSha));
            SelectLatest(name, OfCommit(runs, headSha))
            == if last.headSha == headSha && last.name == name && (best.None? || best.value.id < last.id)
               then Some(last)
               else best
  {
    var before := OfCommit(runs[..|runs| - 1], headSha);
    assert (before + [runs[|runs| - 1]])[..|before|] == before;
    assert before + [] == before;
  }

  lemma {:induction false} SelectsDeciding(name: string, runs: seq<CheckRun>, headSha: string)
    ensures SelectionDecides(name, runs, headSha, SelectLatest(name, OfCommit(runs, headSha)))
  {
    if runs != [] {
      var n := |runs| - 1;
      var last, best := runs[n], SelectLatest(name, OfCommit(runs[..n], headSha));
      SelectStep(name, runs, headSha);
      SelectsDeciding(name, runs[..n], headSha);
      if last.headSha == headSha && last.name == name && (best.None? || best.value.id < last.id) {
        NewestDecides(name, runs, headSha);
        assert Decides(name, runs, headSha, n);
      } else {
        hide SelectionDecides, SelectLatest, OfCommit;
        OlderStillDecides(name, runs, headSha, best);
      }
    }
  }

  /** A last run that is not one of this check, or not newer. */
  lemma OlderStillDecides(name: string, runs: seq<CheckRun>, headSha: string, best: Option<CheckRun>)
    requires runs != [] && SelectionDecides(name, runs[..|runs| - 1], headSha, best)
    requires var last := runs[|runs| - 1];
             last.headSha != headSha || last.name != name || (best.Some? && last.id <= best.value.id)
    ensures SelectionDecides(name, runs, headSha, best)
  {
    var front := runs[..|runs| - 1];
    if best.Some? {
      var k: nat :| Decides(name, front, headSha, k) && front[k] == best.value;
      assert Decides(name, runs, headSha, k) && runs[k] == best.value;
    } else {
      forall j | 0 <= j < |runs| ensures runs[j].name != name || runs[j].headSha != headSha {
        assert j < |front| ==> front[j] == runs[j];
      }
    }
  }

  /** A last run newer than everything selected before it. */
  lemma NewestDecides(name: string, runs: seq<CheckRun>, headSha: string)
    requires runs != []
    requires var last := runs[|runs| - 1]; last.name == name && last.headSha == headSha
    requires var best := SelectLatest(name, OfCommit(runs[..|runs| - 1], headSha));
             best.None? || best.value.id < runs[|runs| - 1].id
    ensures Decides(name, runs, headSha, |runs| - 1)
  {
    var n := |runs| - 1;
    var front := runs[..n];
    OfCommitIsFilter(front, headSha);
    SelectsLatest(name, OfCommit(front, headSha));
    forall j | 0 <= j < n && runs[j].name == name && runs[j].headSha == headSha ensures runs[j].id < runs[n].id {
      assert runs[j] in front;
      assert runs[j] in SetOf(OfCommit(front, headSha));
    }
  }

  lemma OneDecides(name: string, runs: seq<CheckRun>, headSha: string, j: nat, k: nat)
    requires Decides(name, runs, headSha, j) && Decides(name, runs, headSha, k)
    ensures j == k
  {
  }

  /** The result of one check and what it complains of, from the run that decides. */
  lemma CheckExactly(name: string, runs: seq<CheckRun>, headSha: string)
    ensures var (c, reason) := EvaluateCheck(name, OfCommit(runs, headSha));
            && (forall k: nat :: Decides(name, runs, headSha, k) ==>
                  c == CheckResult(name, runs[k].status, runs[k].conclusion,
                                   runs[k].status == "completed" && runs[k].conclusion == Some("success")))
            && ((forall k: nat :: !Decides(name, runs, headSha, k)) ==> c == CheckResult(name, "missing", None, false))
            && (c.passed <==> Passed(name, runs, headSha))
            && (c.status != "completed" <==> Waiting(name, runs, headSha))
            && (if reason.Some? then [reason.value] else []) == Complaint(name, runs, headSha)
  {
    SelectsDeciding(name, runs, headSha);
    var best := SelectLatest(name, OfCommit(runs, headSha));
    if best.Some? {
      var k: nat :| Decides(name, runs, headSha, k) && runs[k] == best.value;
      forall j: nat | Decides(name, runs, headSha, j) ensures j == k {
        OneDecides(name, runs, headSha, j, k);
      }
    }
  }

  /** What is said of a check that has not passed. */
  ghost function Complaint(name: string, runs: seq<CheckRun>, headSha: string): seq<string> {
    if Passed(name, runs, headSha) then []
    else if forall k: nat :: !Decides(name, runs, headSha, k) then ["Required check '" + name + "' is missing"]
    else if Waiting(name, runs, headSha) then ["Required check '" + name + "' is still running"]
    else
      var k: nat :| Decides(name, runs, headSha, k);
      var conclusion := runs[k].conclusion;
      ["Required check '" + name + "' failed with conclusion '"
       + (if conclusion.Some? then conclusion.value else "None") + "'"]
  }

  // ------------------------------------------------------------- the paths it names

  /** Every path a pull request touches, in the order it is listed, renamed files under both names. */
  function AllPaths(files: seq<PullRequestFile>): seq<string> {
    if files == [] then []
    else
      var f := files[|files| - 1];
      AllPaths(files[..|files| - 1]) + [f.filename]
      + if f.previousFilename.Some? then [f.previousFilename.value] else []
  }

  /** `path` first appears in `paths` before `other` does. */
  ghost predicate AppearsBefore(paths: seq<string>, path: string, other: string) {
    exists k :: 0 <= k < |paths| && paths[k] == path && other !in paths[..k + 1]
  }

  /** The protected ones among them, each once, by first appearance. */
  ghost predicate Lists(named: seq<string>, paths: seq<string>) {
    && (forall p :: p in named <==> p in paths && p != "" && ProtectedPath(p))
    && (forall j, k :: 0 <= j < k < |named| ==> AppearsBefore(paths, named[j], named[k]))
  }

  lemma ProtectedAlike(path: string)
    ensures IsProtectedPath(path) <==> ProtectedPath(path)
  {
    assert PROTECTED_PATH_PREFIXES[0] == "tests/regression/" && PROTECTED_PATH_PREFIXES[1] == "tests/acceptance/";
    if "tests/regression/" <= path {
      assert "tests/regression/" in PROTECTED_PATH_PREFIXES && HasPrefix(path, "tests/regression/");
    }
    if "tests/acceptance/" <= path {
      assert "tests/acceptance/" in PROTECTED_PATH_PREFIXES && HasPrefix(path, "tests/acceptance/");
    }
  }

  lemma NotesOne(named: seq<string>, paths: seq<string>, path: string)
    requires Lists(named, paths)
    ensures Lists(Note(named, path), paths + [path])
  {
    ProtectedAlike(path);
    hide ProtectedPath, IsProtectedPath;
    var noted := Note(named, path);
    var more := paths + [path];
    forall j, k | 0 <= j < k < |noted| ensures AppearsBefore(more, noted[j], noted[k]) {
      assert noted[j] == named[j];
      if k < |named| {
        assert AppearsBefore(paths, named[j], named[k]);
        var m :| 0 <= m < |paths| && paths[m] == named[j] && named[k] !in paths[..m + 1];
        assert more[m] == named[j] && more[..m + 1] == paths[..m + 1];
      } else {
        assert named[j] in named && named[j] in paths;
        var m :| 0 <= m < |paths| && paths[m] == named[j];
        assert more[m] == named[j] && more[..m + 1] == paths[..m + 1];
        assert path !in paths;
      }
    }
  }

  lemma {:induction false} NamesExactly(files: seq<PullRequestFile>)
    ensures Lists(ProtectedFiles(files), AllPaths(files))
  {
    if files != [] {
      var front, f := files[..|files| - 1], files[|files| - 1];
      NamesExactly(front);
      hide Lists;
      NotesOne(ProtectedFiles(front), AllPaths(front), f.filename);
      if f.previousFilename.Some? {
        NotesOne(Note(ProtectedFiles(front), f.filename), AllPaths(front) + [f.filename], f.previousFilename.value);
      }
      assert AllPaths(front) + [f.filename] + [] == AllPaths(front) + [f.filename];
    } else {
      assert ProtectedFiles(files) == [];
    }
  }

  lemma {:induction false} PathsAreTouched(files: seq<PullRequestFile>, path: string)
    ensures path in AllPaths(files) <==> Touches(files, path)
  {
    if files != [] {
      var front, f := files[..|files| - 1], files[|files| - 1];
      PathsAreTouched(front, path);
      assert files == front + [f];
      assert f in files;
    }
  }

  lemma NoneNamed(files: seq<PullRequestFile>)
    ensures ProtectedFiles(files) == [] <==> NothingProtected(files)
  {
    NamesExactly(files);
    var named := ProtectedFiles(files);
    forall path ensures path in AllPaths(files) <==> Touches(files, path) { PathsAreTouched(files, path); }
    if named != [] {
      assert named[0] in named;
      assert Touches(files, named[0]);
    }
  }

  // ------------------------------------------------------------- the result

  /** A reason given when a rule is broken. */
  function Said(broken: bool, reason: string): seq<string> {
    if broken then [reason] else []
  }

  /** What is said of the structural rules, in order. */
  ghost function SaidOfStructure(fold: char -> string, i: Inspection, e: Expected): seq<string> {
    Said(CaseFold(fold, i.owner) != CaseFold(fold, e.owner) || CaseFold(fold, i.repo) != CaseFold(fold, e.repo),
         "Repository does not match bounty")
    + Said(i.baseRef != e.baseBranch, "Base branch does not match bounty")
    + Said(i.baseSha != e.baseSha, "Base SHA does not match bounty")
    + Said(i.author.None? || CaseFold(fold, i.author.value) != CaseFold(fold, e.developerGithub),
           "Pull request author" + " does not match assigned developer")
    + Said(i.state != "open", "Pull request is not open")
    + Said(i.draft, "Pull request is a draft")
    + Said(!NothingProtected(i.files), "Protected files were modified")
  }

  ghost function SaidOfChecks(runs: seq<CheckRun>, headSha: string): seq<string> {
    Complaint("build", runs, headSha)
    + Complaint("regression-tests", runs, headSha)
    + Complaint("acceptance-tests", runs, headSha)
  }

  lemma ChecksSay(runs: seq<CheckRun>, headSha: string)
    ensures CheckReasons(REQUIRED_CHECKS, OfCommit(runs, headSha)) == SaidOfChecks(runs, headSha)
    ensures var checks := CheckResults(REQUIRED_CHECKS, OfCommit(runs, headSha));
            && |checks| == 3
            && checks[0] == EvaluateCheck("build", OfCommit(runs, headSha)).0
            && checks[1] == EvaluateCheck("regression-tests", OfCommit(runs, headSha)).0
            && checks[2] == EvaluateCheck("acceptance-tests", OfCommit(runs, headSha)).0
  {
    hide EvaluateCheck, Complaint, OfCommit;
    var names, head := REQUIRED_CHECKS, OfCommit(runs, headSha);
    CheckExactly(names[0], runs, headSha);
    CheckExactly(names[1], runs, headSha);
    CheckExactly(names[2], runs, headSha);
    assert names[..2] == [names[0], names[1]] && [names[0], names[1]][..1] == [names[0]] && [names[0]][..0] == [];
    assert CheckReasons([], head) == [];
    assert CheckReasons([names[0]], head) == Complaint(names[0], runs, headSha);
    assert CheckReasons([names[0], names[1]], head)
        == Complaint(names[0], runs, headSha) + Complaint(names[1], runs, headSha);
  }

  lemma RulesAlike(fold: char -> string, i: Inspection, e: Expected)
    ensures StructureValid(fold, i, e) <==> InOrder(fold, i, e)
    ensures StructureReasons(fold, i, e) == SaidOfStructure(fold, i, e)
  {
    hide ProtectedFiles, NothingProtected, CaseFold;
    NoneNamed(i.files);
  }

  lemma ChecksAlike(runs: seq<CheckRun>, headSha: string)
    ensures (forall name :: name in REQUIRED_CHECKS ==> Succeeded(name, runs, headSha)) <==> AllPassed(runs, headSha)
    ensures (exists name :: name in REQUIRED_CHECKS && Unfinished(name, runs, headSha)) <==> SomeWaiting(runs, headSha)
  {
    hide Succeeded, Unfinished, Passed, Waiting;
    var names := REQUIRED_CHECKS;
    SucceedsAlike(names[0], runs, headSha);
    SucceedsAlike(names[1], runs, headSha);
    SucceedsAlike(names[2], runs, headSha);
    assert names[0] in names && names[1] in names && names[2] in names;
  }

  lemma SucceedsAlike(name: string, runs: seq<CheckRun>, headSha: string)
    ensures Succeeded(name, runs, headSha) <==> Passed(name, runs, headSha)
    ensures Unfinished(name, runs, headSha) <==> Waiting(name, runs, headSha)
  {
    CheckMeaning(name, runs, headSha);
    CheckExactly(name, runs, headSha);
    hide Succeeded, Unfinished, Passed, Waiting;
  }

  /**
   The verdict: PASS exactly for a pull request in order whose three checks passed, PENDING exactly
   for one in order with a check still waiting, and FAIL for every other.
   */
  lemma VerdictExactly(fold: char -> string, i: Inspection, runs: seq<CheckRun>, e: Expected)
    ensures var r := Verify(fold, i, runs, e);
            && (r.status == PASS <==> InOrder(fold, i, e) && AllPassed(runs, i.headSha))
            && (r.status == PENDING <==> InOrder(fold, i, e) && SomeWaiting(runs, i.headSha))
            && (r.eligibleForPayout <==> r.status == PASS)
  {
    VerdictMeaning(fold, i, runs, e);
    RulesAlike(fold, i, e);
    ChecksAlike(runs, i.headSha);
    hide Verify, InOrder, StructureValid, AllPassed, SomeWaiting;
  }

  /** Every field of the result, on the inspection's own. */
  lemma ResultExactly(fold: char -> string, i: Inspection, runs: seq<CheckRun>, e: Expected)
    ensures var r := Verify(fold, i, runs, e);
            && (r.repositoryValid <==>
                 CaseFold(fold, i.owner) == CaseFold(fold, e.owner) && CaseFold(fold, i.repo) == CaseFold(fold, e.repo))
            && (r.baseBranchValid <==> i.baseRef == e.baseBranch) && (r.baseShaValid <==> i.baseSha == e.baseSha)
            && (r.developerValid <==>
                 i.author.Some? && CaseFold(fold, i.author.value) == CaseFold(fold, e.developerGithub))
            && (r.prOpen <==> i.state == "open") && (r.prNotDraft <==> !i.draft)
            && (r.protectedFilesValid <==> NothingProtected(i.files))
            && Lists(r.protectedFilesModified, AllPaths(i.files))
            && r.headSha == i.headSha
            && r.reasons == SaidOfStructure(fold, i, e) + SaidOfChecks(runs, i.headSha)
            && StructuralReasons(r) == SaidOfStructure(fold, i, e)
  {
    NoneNamed(i.files);
    NamesExactly(i.files);
    RulesAlike(fold, i, e);
    ChecksSay(runs, i.headSha);
    StructuralReasonsExactly(fold, i, runs, e);
    hide ProtectedFiles, NothingProtected, CaseFold, Lists, StructureReasons, SaidOfStructure, CheckReasons,
      SaidOfChecks, StructuralReasons, OfCommit, CheckResults;
  }

  /** The three check results, each from the run that decides it. */
  lemma ResultsExactly(fold: char -> string, i: Inspection, runs: seq<CheckRun>, e: Expected)
    ensures var checks := Verify(fold, i, runs, e).checks;
            && |checks| == 3
            && ChecksOut(checks[0], "build", runs, i.headSha)
            && ChecksOut(checks[1], "regression-tests", runs, i.headSha)
            && ChecksOut(checks[2], "acceptance-tests", runs, i.headSha)
  {
    ChecksSay(runs, i.headSha);
    hide EvaluateCheck, OfCommit;
    CheckExactly("build", runs, i.headSha);
    CheckExactly("regression-tests", runs, i.headSha);
    CheckExactly("acceptance-tests", runs, i.headSha);
  }

  ghost predicate ChecksOut(c: CheckResult, name: string, runs: seq<CheckRun>, headSha: string) {
    && (forall k: nat :: Decides(name, runs, headSha, k) ==>
          c == CheckResult(name, runs[k].status, runs[k].conclusion,
                           runs[k].status == "completed" && runs[k].conclusion == Some("success")))
    && ((forall k: nat :: !Decides(name, runs, headSha, k)) ==> c == CheckResult(name, "missing", None, false))
  }
}
