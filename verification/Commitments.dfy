/**
 The two texts whose SHA-256 goes on chain. The digest itself is a parameter; what
 is proved is that each text identifies exactly what it commits to, so a shared
 digest of different commitments would be a collision.
 */
module Commitments {
  import opened Wrappers
  import opened Text
  import opened HexCodec
  import opened CanonicalJson
  import opened Verifier
  import opened GitHubClient

  datatype Criterion = Criterion(description: string, required: bool)

  /** The row's and submission's side of the evidence. */
  datatype Facts = Facts(
    bountyId: int,
    repoOwner: string,
    repoName: string,
    baseBranch: string,
    baseSha: string,
    criteriaHash: string,
    developerGithub: string,
    pullRequestNumber: int,
    pullRequestUrl: string)

  const EVIDENCE_SCHEMA := "mergepay-evidence-v1"

  // ------------------------------------------------------------- payloads

  function CriterionJson(position: nat, c: Criterion): Json {
    Object(map["position" := Number(position), "description" := String(c.description), "required" := Bool(c.required)])
  }

  function CriteriaJson(criteria: seq<Criterion>): Json {
    Array(seq(|criteria|, k requires 0 <= k < |criteria| => CriterionJson(k, criteria[k])))
  }

  function StringOrNull(s: Option<string>): Json {
    if s.Some? then String(s.value) else Null
  }

  function StringsJson(items: seq<string>): Json {
    Array(seq(|items|, k requires 0 <= k < |items| => String(items[k])))
  }

  function CheckJson(c: CheckResult): Json {
    Object(map["name" := String(c.name), "status" := String(c.status),
               "conclusion" := StringOrNull(c.conclusion), "passed" := Bool(c.passed)])
  }

  function ChecksJson(checks: seq<CheckResult>): Json {
    Array(seq(|checks|, k requires 0 <= k < |checks| => CheckJson(checks[k])))
  }

  function VerdictName(v: Verdict): string {
    match v
    case PASS => "PASS"
    case FAIL => "FAIL"
    case PENDING => "PENDING"
  }

  function ResultJson(r: VerificationResult): Json {
    Object(map[
             "status" := String(VerdictName(r.status)),
             "eligible_for_payout" := Bool(r.eligibleForPayout),
             "repository_valid" := Bool(r.repositoryValid),
             "base_branch_valid" := Bool(r.baseBranchValid),
             "base_sha_valid" := Bool(r.baseShaValid),
             "developer_valid" := Bool(r.developerValid),
             "pr_open" := Bool(r.prOpen),
             "pr_not_draft" := Bool(r.prNotDraft),
             "protected_files_valid" := Bool(r.protectedFilesValid),
             "protected_files_modified" := StringsJson(r.protectedFilesModified),
             "checks" := ChecksJson(r.checks),
             "reasons" := StringsJson(r.reasons),
             "head_sha" := String(r.headSha)])
  }

  function EvidenceJson(f: Facts, r: VerificationResult): Json {
    Object(map[
             "schema" := String(EVIDENCE_SCHEMA),
             "bounty_id" := Number(f.bountyId),
             "repository" := String(f.repoOwner + "/" + f.repoName),
             "base_branch" := String(f.baseBranch),
             "base_sha" := String(f.baseSha),
             "criteria_hash" := String(Lower(f.criteriaHash)),
             "developer_github" := String(f.developerGithub),
             "pull_request_number" := Number(f.pullRequestNumber),
             "pull_request_url" := String(f.pullRequestUrl),
             "verification" := ResultJson(r)])
  }

  ghost function CriteriaText(criteria: seq<Criterion>): string {
    Print(CriteriaJson(criteria))
  }

  ghost function EvidenceText(f: Facts, r: VerificationResult): string {
    Print(EvidenceJson(f, r))
  }

  // ------------------------------------------------------------- digests

  ghost function CriteriaHash(sha: string -> Bytes32, criteria: seq<Criterion>): string {
    HexOf(sha(CriteriaText(criteria)))
  }

  /** compute_evidence_hash; None is its ValueError on a malformed criteria hash. */
  ghost function EvidenceHash(sha: string -> Bytes32, f: Facts, r: VerificationResult): Option<string> {
    if !IsHash(f.criteriaHash) then None else Some(HexOf(sha(EvidenceText(f, r))))
  }

  /** The bytes `release_bounty` hands to the contract are the digest itself. */
  lemma EvidenceBytes(sha: string -> Bytes32, f: Facts, r: VerificationResult)
    requires IsHash(f.criteriaHash)
    ensures DecodeEvidenceHash(EvidenceHash(sha, f, r).value) == Some(sha(EvidenceText(f, r)))
  {
    BytesOfHexOf(sha(EvidenceText(f, r)));
    DecodesExactlyHashes(EvidenceHash(sha, f, r).value);
  }

  // ------------------------------------------------------------- injectivity

  lemma CriterionJsonInjective(j: nat, a: Criterion, k: nat, b: Criterion)
    requires CriterionJson(j, a) == CriterionJson(k, b)
    ensures a == b && j == k
  {
    var x, y := CriterionJson(j, a).fields, CriterionJson(k, b).fields;
    assert x["position"] == y["position"];
    assert x["description"] == y["description"];
    assert x["required"] == y["required"];
  }

  /** The criteria text determines the criteria and their order. */
  lemma CriteriaTextInjective(a: seq<Criterion>, b: seq<Criterion>)
    requires CriteriaText(a) == CriteriaText(b)
    ensures a == b
  {
    PrintInjective(CriteriaJson(a), CriteriaJson(b));
    var x, y := CriteriaJson(a).items, CriteriaJson(b).items;
    assert |a| == |x| == |y| == |b|;
    forall k | 0 <= k < |a| ensures a[k] == b[k] {
      assert x[k] == y[k];
      CriterionJsonInjective(k, a[k], k, b[k]);
    }
  }

  lemma StringsJsonInjective(a: seq<string>, b: seq<string>)
    requires StringsJson(a) == StringsJson(b)
    ensures a == b
  {
    var x, y := StringsJson(a).items, StringsJson(b).items;
    assert |a| == |x| == |y| == |b|;
    forall k | 0 <= k < |a| ensures a[k] == b[k] {
      assert x[k] == y[k];
    }
  }

  lemma CheckJsonInjective(a: CheckResult, b: CheckResult)
    requires CheckJson(a) == CheckJson(b)
    ensures a == b
  {
    var x, y := CheckJson(a).fields, CheckJson(b).fields;
    assert x["name"] == y["name"];
    assert x["status"] == y["status"];
    assert x["conclusion"] == y["conclusion"];
    assert x["passed"] == y["passed"];
  }

  lemma ChecksJsonInjective(a: seq<CheckResult>, b: seq<CheckResult>)
    requires ChecksJson(a) == ChecksJson(b)
    ensures a == b
  {
    var x, y := ChecksJson(a).items, ChecksJson(b).items;
    assert |a| == |x| == |y| == |b|;
    forall k | 0 <= k < |a| ensures a[k] == b[k] {
      assert x[k] == y[k];
      CheckJsonInjective(a[k], b[k]);
    }
  }

  lemma RulesInjective(a: VerificationResult, b: VerificationResult)
    requires ResultJson(a) == ResultJson(b)
    ensures a.repositoryValid == b.repositoryValid && a.baseBranchValid == b.baseBranchValid
    ensures a.baseShaValid == b.baseShaValid
  {
    var x, y := ResultJson(a).fields, ResultJson(b).fields;
    assert x["repository_valid"] == y["repository_valid"];
    assert x["base_branch_valid"] == y["base_branch_valid"];
    assert x["base_sha_valid"] == y["base_sha_valid"];
  }

  lemma StateInjective(a: VerificationResult, b: VerificationResult)
    requires ResultJson(a) == ResultJson(b)
    ensures a.developerValid == b.developerValid && a.prOpen == b.prOpen && a.prNotDraft == b.prNotDraft
  {
    var x, y := ResultJson(a).fields, ResultJson(b).fields;
    assert x["developer_valid"] == y["developer_valid"];
    assert x["pr_open"] == y["pr_open"];
    assert x["pr_not_draft"] == y["pr_not_draft"];
  }

  lemma OutcomeInjective(a: VerificationResult, b: VerificationResult)
    requires ResultJson(a) == ResultJson(b)
    ensures a.status == b.status && a.eligibleForPayout == b.eligibleForPayout && a.headSha == b.headSha
  {
    var x, y := ResultJson(a).fields, ResultJson(b).fields;
    assert x["status"] == y["status"];
    assert x["eligible_for_payout"] == y["eligible_for_payout"];
    assert x["head_sha"] == y["head_sha"];
  }

  lemma FilesInjective(a: VerificationResult, b: VerificationResult)
    requires ResultJson(a) == ResultJson(b)
    ensures a.protectedFilesValid == b.protectedFilesValid && a.protectedFilesModified == b.protectedFilesModified
  {
    var x, y := ResultJson(a).fields, ResultJson(b).fields;
    assert x["protected_files_valid"] == y["protected_files_valid"];
    assert x["protected_files_modified"] == y["protected_files_modified"];
    StringsJsonInjective(a.protectedFilesModified, b.protectedFilesModified);
  }

  lemma ListsInjective(a: VerificationResult, b: VerificationResult)
    requires ResultJson(a) == ResultJson(b)
    ensures a.checks == b.checks && a.reasons == b.reasons
  {
    var x, y := ResultJson(a).fields, ResultJson(b).fields;
    assert x["checks"] == y["checks"];
    assert x["reasons"] == y["reasons"];
    StringsJsonInjective(a.reasons, b.reasons);
    ChecksJsonInjective(a.checks, b.checks);
  }

  lemma ResultJsonInjective(a: VerificationResult, b: VerificationResult)
    requires ResultJson(a) == ResultJson(b)
    ensures a == b
  {
    RulesInjective(a, b);
    StateInjective(a, b);
    OutcomeInjective(a, b);
    FilesInjective(a, b);
    ListsInjective(a, b);
  }

  /** Equal up to the case of the criteria hash and to how `owner/name` splits. */
  predicate SameFacts(f: Facts, g: Facts) {
    && f.bountyId == g.bountyId
    && f.repoOwner + "/" + f.repoName == g.repoOwner + "/" + g.repoName
    && f.baseBranch == g.baseBranch && f.baseSha == g.baseSha
    && Lower(f.criteriaHash) == Lower(g.criteriaHash)
    && f.developerGithub == g.developerGithub
    && f.pullRequestNumber == g.pullRequestNumber && f.pullRequestUrl == g.pullRequestUrl
  }

  lemma EvidenceJsonInjective(f: Facts, r: VerificationResult, g: Facts, q: VerificationResult)
    requires EvidenceJson(f, r) == EvidenceJson(g, q)
    ensures SameFacts(f, g) && r == q
  {
    var x, y := EvidenceJson(f, r).fields, EvidenceJson(g, q).fields;
    assert x["bounty_id"] == y["bounty_id"];
    assert x["repository"] == y["repository"];
    assert x["base_branch"] == y["base_branch"];
    assert x["base_sha"] == y["base_sha"];
    assert x["criteria_hash"] == y["criteria_hash"];
    assert x["developer_github"] == y["developer_github"];
    assert x["pull_request_number"] == y["pull_request_number"];
    assert x["pull_request_url"] == y["pull_request_url"];
    assert x["verification"] == y["verification"];
    ResultJsonInjective(r, q);
  }

  /** The evidence text is the same exactly when the evidence is. */
  lemma EvidenceTextIdentifies(f: Facts, r: VerificationResult, g: Facts, q: VerificationResult)
    ensures EvidenceText(f, r) == EvidenceText(g, q) <==> SameFacts(f, g) && r == q
  {
    if EvidenceText(f, r) == EvidenceText(g, q) {
      PrintInjective(EvidenceJson(f, r), EvidenceJson(g, q));
      EvidenceJsonInjective(f, r, g, q);
    }
  }

  // ------------------------------------------------------------- the joined repository

  /** Case folding neither makes nor removes a slash. */
  ghost predicate KeepsSlashes(fold: char -> string) {
    fold('/') == "/" && forall c :: c != '/' ==> '/' !in fold(c)
  }

  lemma {:induction false} FoldKeepsSlashes(fold: char -> string, s: string)
    requires KeepsSlashes(fold)
    ensures '/' in CaseFold(fold, s) <==> '/' in s
  {
    if s != "" {
      FoldKeepsSlashes(fold, s[1..]);
      assert s == [s[0]] + s[1..];
    }
  }

  lemma SplitIsUnique(a: string, b: string, c: string, d: string)
    requires '/' !in a && '/' !in c
    requires a + "/" + b == c + "/" + d
    ensures a == c && b == d
  {
    SplitSlashOf(a, b);
    SplitSlashOf(c, d);
  }

  function ExpectedOf(f: Facts): Expected {
    Expected(f.repoOwner, f.repoName, f.baseBranch, f.baseSha, f.developerGithub)
  }

  lemma PassMakesOwnerSlashFree(fold: char -> string, f: Facts, s: Snapshot, runs: seq<CheckRun>)
    requires KeepsSlashes(fold)
    requires Inspect(f.pullRequestUrl, s).Ok?
    requires Verify(fold, Inspect(f.pullRequestUrl, s).value, runs, ExpectedOf(f)).status == PASS
    ensures '/' !in f.repoOwner
  {
    var i := Inspect(f.pullRequestUrl, s).value;
    VerdictMeaning(fold, i, runs, ExpectedOf(f));
    ParsedNamesAreSlashFree(f.pullRequestUrl);
    FoldKeepsSlashes(fold, i.owner);
    FoldKeepsSlashes(fold, f.repoOwner);
  }

  /** Between slash-free owners the text tells everything apart, owner and name included. */
  lemma SlashFreeEvidenceIdentifies(f: Facts, r: VerificationResult, g: Facts, q: VerificationResult)
    requires '/' !in f.repoOwner && '/' !in g.repoOwner
    ensures EvidenceText(f, r) == EvidenceText(g, q)
            <==> f.(criteriaHash := Lower(f.criteriaHash)) == g.(criteriaHash := Lower(g.criteriaHash)) && r == q
  {
    hide Lower;
    EvidenceTextIdentifies(f, r, g, q);
    if SameFacts(f, g) {
      SplitIsUnique(f.repoOwner, f.repoName, g.repoOwner, g.repoName);
    }
  }

  /** `r` is a PASS, the verdict on what GitHub showed of the pull request for these facts. */
  predicate IsPassOn(fold: char -> string, f: Facts, s: Snapshot, runs: seq<CheckRun>, r: VerificationResult) {
    && Inspect(f.pullRequestUrl, s).Ok?
    && r == Verify(fold, Inspect(f.pullRequestUrl, s).value, runs, ExpectedOf(f))
    && r.status == PASS
  }

  /**
   Among passing verifications the evidence text identifies the bounty's facts
   completely, owner and name included, up to the case of the criteria hash.
   */
  lemma PassingEvidenceIdentifiesEverything(
    fold: char -> string,
    f: Facts, s: Snapshot, runs: seq<CheckRun>, r: VerificationResult,
    g: Facts, t: Snapshot, others: seq<CheckRun>, q: VerificationResult)
    requires KeepsSlashes(fold)
    ensures IsPassOn(fold, f, s, runs, r) && IsPassOn(fold, g, t, others, q) ==>
              (EvidenceText(f, r) == EvidenceText(g, q)
               <==> f.(criteriaHash := Lower(f.criteriaHash)) == g.(criteriaHash := Lower(g.criteriaHash)) && r == q)
  {
    hide Verify, Inspect, ParsePullRequestUrl, Lower;
    if IsPassOn(fold, f, s, runs, r) && IsPassOn(fold, g, t, others, q) {
      PassMakesOwnerSlashFree(fold, f, s, runs);
      PassMakesOwnerSlashFree(fold, g, t, others);
      SlashFreeEvidenceIdentifies(f, r, g, q);
    }
  }

  /** Without a PASS two different repositories do share a text. */
  lemma JoinedRepositoryIsAmbiguous(f: Facts, r: VerificationResult)
    requires f.repoOwner == "a" && f.repoName == "b/c"
    ensures EvidenceText(f, r) == EvidenceText(f.(repoOwner := "a/b", repoName := "c"), r)
  {
    assert "a" + "/" + "b/c" == "a/b" + "/" + "c";
  }
}
