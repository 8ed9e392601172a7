/**
 Reading a pull request from GitHub: the URL grammar and the two paged lists.
 GitHub is one consistent snapshot; it serves at most a page per request.
 */
module GitHubClient {
  import opened Wrappers
  import opened Text
  import opened Verifier

  datatype GitHubError =
    | InvalidPullRequestUrl
    | PullRequestNotFound
    | PullRequestTooLarge
    | CheckRunsTooLarge
    /** 401, 403, other statuses and transport failures. */
    | Unreachable

  const MAX_FILES: nat := 100
  const MAX_CHECK_RUNS: nat := 100

  // ------------------------------------------------------------- the URL

  datatype PullRequestRef = PullRequestRef(owner: string, repo: string, pullNumber: nat)

  predicate IsNameChar(c: char) {
    'A' <= c <= 'Z' || 'a' <= c <= 'z' || '0' <= c <= '9' || c == '.' || c == '_' || c == '-'
  }

  predicate IsName(s: string) {
    s != "" && forall c :: c in s ==> IsNameChar(c)
  }

  /** `[1-9][0-9]*` */
  predicate IsPositiveNumber(s: string) {
    s != "" && AllDigits(s) && s[0] != '0'
  }

  /** The text before the first slash, and what follows that slash if there is one. */
  function SplitSlash(s: string): (string, Option<string>) {
    if s == "" then ("", None)
    else if s[0] == '/' then ("", Some(s[1..]))
    else
      var (head, rest) := SplitSlash(s[1..]);
      ([s[0]] + head, rest)
  }

  const URL_PREFIX := "https://github.com/"

  /** The pattern's tail `{number}/?`. */
  function ParseNumberSegment(s: string): Option<nat> {
    var (digits, rest) := SplitSlash(s);
    if IsPositiveNumber(digits) && (rest.None? || rest == Some("")) then Some(NatOf(digits)) else None
  }

  function ParseSegments(s: string): Option<PullRequestRef> {
    var (owner, afterOwner) := SplitSlash(s);
    if afterOwner.None? then None
    else
      var (repo, afterRepo) := SplitSlash(afterOwner.value);
      if afterRepo.None? then None
      else
        var (pull, afterPull) := SplitSlash(afterRepo.value);
        if afterPull.None? || pull != "pull" || !IsName(owner) || !IsName(repo) then None
        else
          match ParseNumberSegment(afterPull.value)
          case None => None
          case Some(n) => Some(PullRequestRef(owner, repo, n))
  }

  function ParsePullRequestUrl(url: string): Result<PullRequestRef, GitHubError> {
    var text := Strip(url);
    if !(URL_PREFIX <= text) then Err(InvalidPullRequestUrl)
    else
      match ParseSegments(text[|URL_PREFIX|..])
      case None => Err(InvalidPullRequestUrl)
      case Some(ref) => Ok(ref)
  }

  function CanonicalUrl(ref: PullRequestRef): string {
    URL_PREFIX + (ref.owner + "/" + (ref.repo + "/" + ("pull" + "/" + Decimal(ref.pullNumber))))
  }

  lemma {:induction false} SplitSlashOf(head: string, rest: string)
    requires '/' !in head
    ensures SplitSlash(head) == (head, None)
    ensures SplitSlash(head + "/" + rest) == (head, Some(rest))
  {
    if head == "" {
      assert head + "/" + rest == "/" + rest;
    } else {
      SplitSlashOf(head[1..], rest);
      assert (head + "/" + rest)[1..] == head[1..] + "/" + rest;
      assert [head[0]] + head[1..] == head;
    }
  }

  lemma NumberSegmentRoundTrip(n: nat)
    requires n > 0
    ensures ParseNumberSegment(Decimal(n)) == Some(n)
  {
    DecimalRoundTrip(n);
    SplitSlashOf(Decimal(n), "");
  }

  lemma SegmentsRoundTrip(ref: PullRequestRef)
    requires IsName(ref.owner) && IsName(ref.repo) && ref.pullNumber > 0
    ensures ParseSegments(ref.owner + "/" + (ref.repo + "/" + ("pull" + "/" + Decimal(ref.pullNumber)))) == Some(ref)
  {
    var number := Decimal(ref.pullNumber);
    NumberSegmentRoundTrip(ref.pullNumber);
    SplitSlashOf("pull", number);
    SplitSlashOf(ref.repo, "pull" + "/" + number);
    SplitSlashOf(ref.owner, ref.repo + "/" + ("pull" + "/" + number));
  }

  /** Every pull request has a URL this client reads back, and what it reads is always a plain name. */
  lemma UrlRoundTrip(ref: PullRequestRef)
    requires IsName(ref.owner) && IsName(ref.repo) && ref.pullNumber > 0
    ensures ParsePullRequestUrl(CanonicalUrl(ref)) == Ok(ref)
  {
    DecimalRoundTrip(ref.pullNumber);
    var tail := ref.owner + "/" + (ref.repo + "/" + ("pull" + "/" + Decimal(ref.pullNumber)));
    forall c | c in CanonicalUrl(ref) ensures !IsStripped(c) {
      assert c in URL_PREFIX || c in tail;
    }
    TrimNothing(CanonicalUrl(ref));
    assert CanonicalUrl(ref)[|URL_PREFIX|..] == tail;
    SegmentsRoundTrip(ref);
  }

  /** A run of digits that does not start with a zero is a positive number. */
  lemma {:induction false} PositiveNumbers(s: string)
    requires IsPositiveNumber(s)
    ensures NatOf(s) > 0
  {
    if |s| > 1 {
      var front := s[..|s| - 1];
      assert forall c :: c in front ==> c in s;
      PositiveNumbers(front);
    }
  }

  lemma ParsedNamesAreSlashFree(url: string)
    requires ParsePullRequestUrl(url).Ok?
    ensures var ref := ParsePullRequestUrl(url).value;
            '/' !in ref.owner && '/' !in ref.repo && ref.owner != "" && ref.repo != "" && ref.pullNumber > 0
  {
    var (_, afterOwner) := SplitSlash(Strip(url)[|URL_PREFIX|..]);
    var (_, afterRepo) := SplitSlash(afterOwner.value);
    var (_, afterPull) := SplitSlash(afterRepo.value);
    PositiveNumbers(SplitSlash(afterPull.value).0);
  }

  // ------------------------------------------------------------- the snapshot

  /** What GitHub knows of one pull request and its head commit at one moment. */
  datatype Snapshot = Snapshot(
    state: string,
    draft: bool,
    author: Option<string>,
    baseRef: string,
    baseSha: string,
    headRef: string,
    headSha: string,
    files: seq<PullRequestFile>,
    checkRuns: seq<CheckRun>,
    /** GitHub sends `total_count`; the client does not insist on it. */
    countsRuns: bool)

  function Min(a: nat, b: nat): nat { if a < b then a else b }

  /** Page `page`, counted from 1, of a list served `size` at a time. */
  function Page<T>(all: seq<T>, size: nat, page: nat): seq<T>
    requires page >= 1
  {
    all[Min((page - 1) * size, |all|)..Min(page * size, |all|)]
  }

  /** list_pull_request_files: a full first page needs a second request to be believed. */
  function ListFiles(s: Snapshot): Result<seq<PullRequestFile>, GitHubError> {
    var files := Page(s.files, MAX_FILES, 1);
    if |files| < MAX_FILES then Ok(files)
    else if Page(s.files, MAX_FILES, 2) != [] then Err(PullRequestTooLarge)
    else Ok(files)
  }

  function ListCheckRuns(s: Snapshot): Result<seq<CheckRun>, GitHubError> {
    var items := Page(s.checkRuns, MAX_CHECK_RUNS, 1);
    var totalCount := if s.countsRuns then |s.checkRuns| else |items|;
    if totalCount > MAX_CHECK_RUNS || |items| > MAX_CHECK_RUNS then Err(CheckRunsTooLarge) else Ok(items)
  }

  function Inspect(url: string, s: Snapshot): Result<Inspection, GitHubError> {
    match ParsePullRequestUrl(url)
    case Err(error) => Err(error)
    case Ok(ref) =>
      match ListFiles(s)
      case Err(error) => Err(error)
      case Ok(files) =>
        Ok(Inspection(ref.owner, ref.repo, ref.pullNumber, s.state, s.draft, s.author,
                      s.baseRef, s.baseSha, s.headRef, s.headSha, files))
  }

  /** The file list is never a truncated one: it is whole, or the call fails, exactly above the limit. */
  lemma FilesAreWholeOrRefused(s: Snapshot)
    ensures ListFiles(s) == if |s.files| <= MAX_FILES then Ok(s.files) else Err(PullRequestTooLarge)
  {
    assert |s.files| <= MAX_FILES ==> Page(s.files, MAX_FILES, 1) == s.files;
    assert |Page(s.files, MAX_FILES, 2)| == Min(2 * MAX_FILES, |s.files|) - Min(MAX_FILES, |s.files|);
  }

  /**
   The check runs are the whole list, or refused, whenever GitHub counts them. A
   reply without `total_count` is whole exactly up to the page size.
   */
  lemma CheckRunsAreWholeOrRefused(s: Snapshot)
    ensures s.countsRuns ==>
              ListCheckRuns(s) == if |s.checkRuns| <= MAX_CHECK_RUNS then Ok(s.checkRuns) else Err(CheckRunsTooLarge)
    ensures ListCheckRuns(s) == Ok(s.checkRuns) || ListCheckRuns(s) == Err(CheckRunsTooLarge)
            <==> s.countsRuns || |s.checkRuns| <= MAX_CHECK_RUNS
  {
    assert |s.checkRuns| <= MAX_CHECK_RUNS ==> Page(s.checkRuns, MAX_CHECK_RUNS, 1) == s.checkRuns;
    if !s.countsRuns && |s.checkRuns| > MAX_CHECK_RUNS {
      assert |ListCheckRuns(s).value| == MAX_CHECK_RUNS;
    }
  }

  /** The whole inspection GitHub could have given, with nothing cut off. */
  function WholeInspection(ref: PullRequestRef, s: Snapshot): Inspection {
    Inspection(ref.owner, ref.repo, ref.pullNumber, s.state, s.draft, s.author,
               s.baseRef, s.baseSha, s.headRef, s.headSha, s.files)
  }

  /** A verdict reached from pages is the verdict on everything GitHub has. */
  lemma VerdictOnPagesIsVerdictOnAll(fold: char -> string, url: string, s: Snapshot, e: Expected)
    requires Inspect(url, s).Ok? && ListCheckRuns(s).Ok? && s.countsRuns
    ensures Verify(fold, Inspect(url, s).value, ListCheckRuns(s).value, e)
         == Verify(fold, WholeInspection(ParsePullRequestUrl(url).value, s), s.checkRuns, e)
    ensures forall p :: p in Verify(fold, Inspect(url, s).value, ListCheckRuns(s).value, e).protectedFilesModified
              <==> p != "" && IsProtectedPath(p) && exists f :: f in s.files && p in PathsOf(f)
  {
    FilesAreWholeOrRefused(s);
    CheckRunsAreWholeOrRefused(s);
    ProtectedFilesExactly(s.files);
  }
}
