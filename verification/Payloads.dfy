/**
 What the two committed texts say, read back by the parser: which keys they have and which fact
 stands under each. Nothing here looks at how they were built.
 */
module Payloads {
  import opened Wrappers
  import opened Text
  import opened HexCodec
  import opened CanonicalJson
  import opened Verifier
  import opened GitHubClient
  import opened Rules
  import opened Commitments

  ghost predicate HasKeys(v: Json, keys: set<string>) {
    v.Object? && v.fields.Keys == keys
  }

  // ------------------------------------------------------------- criteria

  ghost predicate SaysCriterion(v: Json, k: nat, c: Criterion) {
    && HasKeys(v, {"position", "description", "required"})
    && v.fields["position"] == Number(k)
    && v.fields["description"] == String(c.description)
    && v.fields["required"] == Bool(c.required)
  }

  /** The criteria's text: an array of one object each, in order, numbered from zero. */
  lemma CriteriaTextSays(criteria: seq<Criterion>)
    ensures var p := ParseValue(CriteriaText(criteria));
            && p.Got? && p.rest == "" && p.value.Array? && |p.value.items| == |criteria|
            && forall k :: 0 <= k < |criteria| ==> SaysCriterion(p.value.items[k], k, criteria[k])
  {
    var v := CriteriaJson(criteria);
    ValueRoundTrip(v, "");
    assert Print(v) + "" == Print(v);
    hide ParseValue, Print;
    forall k | 0 <= k < |criteria| ensures SaysCriterion(v.items[k], k, criteria[k]) {
      assert v.items[k] == CriterionJson(k, criteria[k]);
    }
  }

  // ------------------------------------------------------------- evidence

  const FACT_KEYS: set<string> := {
    "schema", "bounty_id", "repository", "base_branch", "base_sha", "criteria_hash", "developer_github",
    "pull_request_number", "pull_request_url", "verification"
  }

  const RESULT_KEYS: set<string> := {
    "status", "eligible_for_payout", "repository_valid", "base_branch_valid", "base_sha_valid", "developer_valid",
    "pr_open", "pr_not_draft", "protected_files_valid", "protected_files_modified", "checks", "reasons", "head_sha"
  }

  ghost predicate SaysFacts(v: Json, f: Facts) {
    && HasKeys(v, FACT_KEYS)
    && v.fields["schema"] == String("mergepay-evidence-v1")
    && v.fields["bounty_id"] == Number(f.bountyId)
    && v.fields["repository"] == String(f.repoOwner + "/" + f.repoName)
    && v.fields["base_branch"] == String(f.baseBranch)
    && v.fields["base_sha"] == String(f.baseSha)
    && v.fields["criteria_hash"] == String(Lower(f.criteriaHash))
    && v.fields["developer_github"] == String(f.developerGithub)
    && v.fields["pull_request_number"] == Number(f.pullRequestNumber)
    && v.fields["pull_request_url"] == String(f.pullRequestUrl)
  }

  ghost predicate SaysStrings(v: Json, items: seq<string>) {
    v.Array? && |v.items| == |items| && forall k :: 0 <= k < |items| ==> v.items[k] == String(items[k])
  }

  ghost predicate SaysCheck(v: Json, c: CheckResult) {
    && HasKeys(v, {"name", "status", "conclusion", "passed"})
    && v.fields["name"] == String(c.name)
    && v.fields["status"] == String(c.status)
    && v.fields["conclusion"] == (if c.conclusion.Some? then String(c.conclusion.value) else Null)
    && v.fields["passed"] == Bool(c.passed)
  }

  ghost predicate SaysChecks(v: Json, checks: seq<CheckResult>) {
    v.Array? && |v.items| == |checks| && forall k :: 0 <= k < |checks| ==> SaysCheck(v.items[k], checks[k])
  }

  ghost predicate SaysRules(v: Json, r: VerificationResult)
    requires HasKeys(v, RESULT_KEYS)
  {
    && v.fields["repository_valid"] == Bool(r.repositoryValid)
    && v.fields["base_branch_valid"] == Bool(r.baseBranchValid)
    && v.fields["base_sha_valid"] == Bool(r.baseShaValid)
    && v.fields["developer_valid"] == Bool(r.developerValid)
    && v.fields["pr_open"] == Bool(r.prOpen)
    && v.fields["pr_not_draft"] == Bool(r.prNotDraft)
    && v.fields["protected_files_valid"] == Bool(r.protectedFilesValid)
  }

  ghost predicate SaysOutcome(v: Json, r: VerificationResult)
    requires HasKeys(v, RESULT_KEYS)
  {
    && v.fields["status"] == String(if r.status == PASS then "PASS" else if r.status == FAIL then "FAIL" else "PENDING")
    && v.fields["eligible_for_payout"] == Bool(r.eligibleForPayout)
    && v.fields["head_sha"] == String(r.headSha)
    && SaysStrings(v.fields["protected_files_modified"], r.protectedFilesModified)
    && SaysChecks(v.fields["checks"], r.checks)
    && SaysStrings(v.fields["reasons"], r.reasons)
  }

  ghost predicate SaysResult(v: Json, r: VerificationResult) {
    HasKeys(v, RESULT_KEYS) && SaysRules(v, r) && SaysOutcome(v, r)
  }

  lemma ChecksSay(checks: seq<CheckResult>)
    ensures SaysChecks(ChecksJson(checks), checks)
  {
    forall k | 0 <= k < |checks| ensures SaysCheck(ChecksJson(checks).items[k], checks[k]) {
      assert ChecksJson(checks).items[k] == CheckJson(checks[k]);
    }
  }

  lemma ResultHasKeys(r: VerificationResult)
    ensures HasKeys(ResultJson(r), RESULT_KEYS)
  {
    hide ChecksJson, StringsJson, VerdictName;
    var keys := ResultJson(r).fields.Keys;
    forall k ensures k in keys <==> k in RESULT_KEYS {
    }
  }

  lemma RulesSay(r: VerificationResult)
    ensures HasKeys(ResultJson(r), RESULT_KEYS) && SaysRules(ResultJson(r), r)
  {
    hide ChecksJson, StringsJson, VerdictName;
    ResultHasKeys(r);
  }

  lemma OutcomeSays(r: VerificationResult)
    ensures HasKeys(ResultJson(r), RESULT_KEYS) && SaysOutcome(ResultJson(r), r)
  {
    ChecksSay(r.checks);
    assert SaysStrings(StringsJson(r.reasons), r.reasons);
    assert SaysStrings(StringsJson(r.protectedFilesModified), r.protectedFilesModified);
    hide ChecksJson, StringsJson, SaysChecks, SaysStrings;
    ResultHasKeys(r);
  }

  lemma ResultSays(r: VerificationResult)
    ensures SaysResult(ResultJson(r), r)
  {
    hide ResultJson, SaysRules, SaysOutcome;
    RulesSay(r);
    OutcomeSays(r);
  }

  lemma FactsSay(f: Facts, r: VerificationResult)
    ensures SaysFacts(EvidenceJson(f, r), f) && EvidenceJson(f, r).fields["verification"] == ResultJson(r)
  {
    hide ResultJson, Lower;
    assert EvidenceJson(f, r).fields.Keys == FACT_KEYS;
  }

  /**
   The evidence's text: an object of ten keys with each fact under its own, the criteria hash in
   lower case, and under `verification` the thirteen fields of the result.
   */
  lemma EvidenceTextSays(f: Facts, r: VerificationResult)
    ensures var p := ParseValue(EvidenceText(f, r));
            && p.Got? && p.rest == "" && SaysFacts(p.value, f) && SaysResult(p.value.fields["verification"], r)
  {
    var v := EvidenceJson(f, r);
    ValueRoundTrip(v, "");
    assert Print(v) + "" == Print(v);
    hide ParseValue, Print, SaysResult, ResultJson, EvidenceJson;
    FactsSay(f, r);
    ResultSays(r);
  }

  // ------------------------------------------------------------- digests

  /** Both hashes are the lower-case hexadecimal digest of their text; a malformed criteria hash gives no evidence. */
  lemma HashesExactly(sha: string -> Bytes32, criteria: seq<Criterion>, f: Facts, r: VerificationResult)
    ensures var h := CriteriaHash(sha, criteria);
            |h| == 64 && AllHex(h) && Lower(h) == h && BytesOf(h) == sha(CriteriaText(criteria))
    ensures var h := EvidenceHash(sha, f, r);
            && (h.Some? <==> |f.criteriaHash| == 64 && forall c :: c in f.criteriaHash ==>
                               '0' <= c <= '9' || 'a' <= c <= 'f' || 'A' <= c <= 'F')
            && (h.Some? ==> |h.value| == 64 && AllHex(h.value) && Lower(h.value) == h.value
                            && BytesOf(h.value) == sha(EvidenceText(f, r)))
  {
    hide CriteriaText, EvidenceText, HexOf, BytesOf;
    BytesOfHexOf(sha(CriteriaText(criteria)));
    BytesOfHexOf(sha(EvidenceText(f, r)));
  }


  // ------------------------------------------------------------- passing texts

  /** A pull request that passes for a bounty's facts is the one those facts, and so their text, describe. */
  lemma PassingTextsAreGitHubs(fold: char -> string, f: Facts, s: Snapshot, runs: seq<CheckRun>, r: VerificationResult)
    requires IsPassOn(fold, f, s, runs, r)
    ensures var i := Inspect(f.pullRequestUrl, s);
            && i.Ok? && r.status == PASS && r.headSha == s.headSha
            && CaseFold(fold, i.value.owner) == CaseFold(fold, f.repoOwner)
            && CaseFold(fold, i.value.repo) == CaseFold(fold, f.repoName)
            && s.baseRef == f.baseBranch && s.baseSha == f.baseSha
            && s.author.Some? && CaseFold(fold, s.author.value) == CaseFold(fold, f.developerGithub)
            && s.state == "open" && !s.draft && NothingProtected(i.value.files) && AllPassed(runs, s.headSha)
  {
    var i := Inspect(f.pullRequestUrl, s).value;
    VerdictExactly(fold, i, runs, ExpectedOf(f));
    ResultExactly(fold, i, runs, ExpectedOf(f));
    hide CaseFold, Verify, ParsePullRequestUrl, ListFiles, NothingProtected, AllPassed, StructuralReasons,
      SaidOfStructure, SaidOfChecks, Rules.Lists;
  }

  /** Folding one letter to its lower case is such a folding, and one that drops the slash is not. */
  lemma LowerKeepsSlashes()
    ensures KeepsSlashes(c => [LowerChar(c)])
    ensures !KeepsSlashes(c => "")
    ensures !KeepsSlashes(c => "/")
  {
    assert '/' !in "";
    assert '/' in ((c: char) => "/")('a');
  }
}
