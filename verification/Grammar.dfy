/**
 The texts the system reads and writes, letter by letter: pull request URLs, signed messages,
 amounts, escapes in committed text and what the browser finds in its storage.
 */
module Grammar {
  import opened Wrappers
  import opened Text
  import opened GitHubClient
  import opened Messages
  import C = CanonicalJson
  import R = Recovery
  import X = Xlm

  // ------------------------------------------------------------- white space

  /** What `strip` keeps: nothing but white space is cut off, and none is left at either end. */
  ghost predicate Cuts(s: string, kept: string, blank: char -> bool) {
    && (exists a, b :: s == a + kept + b && (forall c :: c in a + b ==> blank(c)))
    && (kept != "" ==> !blank(kept[0]) && !blank(kept[|kept| - 1]))
  }

  lemma {:induction false} LeftCuts(blank: char -> bool, s: string) returns (a: string)
    ensures s == a + TrimLeft(blank, s) && forall c :: c in a ==> blank(c)
  {
    if s != "" && blank(s[0]) {
      var rest := LeftCuts(blank, s[1..]);
      a := [s[0]] + rest;
      assert TrimLeft(blank, s) == TrimLeft(blank, s[1..]);
      hide TrimLeft;
      assert s == [s[0]] + (rest + TrimLeft(blank, s));
      assert [s[0]] + (rest + TrimLeft(blank, s)) == a + TrimLeft(blank, s);
    } else {
      a := "";
    }
  }

  lemma {:induction false} RightCuts(blank: char -> bool, s: string) returns (b: string)
    ensures s == TrimRight(blank, s) + b && forall c :: c in b ==> blank(c)
  {
    if s != "" && blank(s[|s| - 1]) {
      var rest := RightCuts(blank, s[..|s| - 1]);
      b := rest + [s[|s| - 1]];
      assert s == s[..|s| - 1] + [s[|s| - 1]];
    } else {
      b := "";
    }
  }

  lemma TrimsExactly(blank: char -> bool, s: string)
    ensures Cuts(s, TrimRight(blank, TrimLeft(blank, s)), blank)
  {
    var a := LeftCuts(blank, s);
    var left := TrimLeft(blank, s);
    var b := RightCuts(blank, left);
    var kept := TrimRight(blank, left);
    TrimLeftStarts(blank, s);
    TrimRightEnds(blank, left);
    assert s == a + kept + b;
    if kept != "" { assert kept[0] == left[0]; }
  }

  /** White space to both languages, by code point. */
  const BLANKS: set<int> := {
    0x9, 0xA, 0xB, 0xC, 0xD, 0x20, 0xA0, 0x1680, 0x2000, 0x2001, 0x2002, 0x2003, 0x2004, 0x2005, 0x2006, 0x2007,
    0x2008, 0x2009, 0x200A, 0x2028, 0x2029, 0x202F, 0x205F, 0x3000
  }

  /** JavaScript trims the byte order mark too, Python the four separators and NEL. */
  lemma BlanksExactly(c: char)
    ensures IsTrimmed(c) <==> c as int in BLANKS || c as int == 0xFEFF
    ensures IsStripped(c) <==> c as int in BLANKS || c as int in {0x1C, 0x1D, 0x1E, 0x1F, 0x85}
  {
  }

  /** The lower case of a text: letter for letter, and nothing but the 26 capitals changes. */
  lemma LowersExactly(s: string, k: nat)
    requires k < |s|
    ensures |Lower(s)| == |s|
    ensures forall j :: 0 <= j < 26 ==>
              (s[k] == "ABCDEFGHIJKLMNOPQRSTUVWXYZ"[j] ==> Lower(s)[k] == "abcdefghijklmnopqrstuvwxyz"[j])
    ensures s[k] !in "ABCDEFGHIJKLMNOPQRSTUVWXYZ" ==> Lower(s)[k] == s[k]
  {
    var upper, lower := "ABCDEFGHIJKLMNOPQRSTUVWXYZ", "abcdefghijklmnopqrstuvwxyz";
    forall j | 0 <= j < 26 ensures upper[j] as int == 65 + j && lower[j] as int == 97 + j {
      Alphabet(j);
    }
    if 'A' <= s[k] <= 'Z' {
      assert upper[s[k] as int - 65] == s[k];
    }
  }

  lemma Alphabet(j: nat)
    requires j < 26
    ensures "ABCDEFGHIJKLMNOPQRSTUVWXYZ"[j] as int == 65 + j && "abcdefghijklmnopqrstuvwxyz"[j] as int == 97 + j
  {
  }

  // ------------------------------------------------------------- URLs

  predicate PlainName(s: string) {
    s != "" && forall c :: c in s ==>
                 'A' <= c <= 'Z' || 'a' <= c <= 'z' || '0' <= c <= '9' || c == '.' || c == '_' || c == '-'
  }

  function UrlOf(owner: string, repo: string, number: string): string {
    "https://github.com/" + (owner + "/" + (repo + "/" + ("pull" + "/" + number)))
  }

  lemma {:induction false} SplitsAt(s: string)
    ensures var (head, rest) := SplitSlash(s);
            '/' !in head && s == if rest.None? then head else head + "/" + rest.value
  {
    if s != "" && s[0] != '/' {
      SplitsAt(s[1..]);
      assert s == [s[0]] + s[1..];
    } else if s != "" {
      assert s == "" + "/" + s[1..];
    }
  }

  /** A number without leading zeros is the print of its value. */
  lemma {:induction false} DigitsAreDecimal(s: string)
    requires s != "" && AllDigits(s) && (s[0] != '0' || |s| == 1)
    ensures Decimal(NatOf(s)) == s
    ensures s[0] != '0' ==> NatOf(s) > 0
  {
    if |s| > 1 {
      var front := s[..|s| - 1];
      assert forall c :: c in front ==> c in s;
      DigitsAreDecimal(front);
      assert IsDigit(s[|s| - 1]);
      assert NatOf(s) == 10 * NatOf(front) + ValueOf(s[|s| - 1]);
      assert NatOf(s) / 10 == NatOf(front);
      assert s == front + [s[|s| - 1]];
    } else {
      assert s == [s[0]] && IsDigit(s[0]);
      assert s[..0] == "";
    }
  }

  lemma NumberSegmentExactly(s: string, n: nat)
    ensures ParseNumberSegment(s) == Some(n) <==> n > 0 && (s == Decimal(n) || s == Decimal(n) + "/")
  {
    SplitsAt(s);
    var (digits, rest) := SplitSlash(s);
    if IsPositiveNumber(digits) {
      DigitsAreDecimal(digits);
    }
    if n > 0 && (s == Decimal(n) || s == Decimal(n) + "/") {
      DecimalRoundTrip(n);
      SplitSlashOf(Decimal(n), "");
      assert Decimal(n) + "/" + "" == Decimal(n) + "/";
    }
  }

  /** After the host: owner, repository, `pull`, number. */
  lemma SegmentsExactly(s: string, ref: PullRequestRef)
    ensures ParseSegments(s) == Some(ref) <==>
            && PlainName(ref.owner) && PlainName(ref.repo)
            && exists tail :: s == ref.owner + "/" + (ref.repo + "/" + ("pull" + "/" + tail))
                 && ParseNumberSegment(tail) == Some(ref.pullNumber)
  {
    hide ParseNumberSegment;
    if ParseSegments(s) == Some(ref) {
      var (owner, afterOwner) := SplitSlash(s);
      var (repo, afterRepo) := SplitSlash(afterOwner.value);
      var (pull, afterPull) := SplitSlash(afterRepo.value);
      SplitsAt(s);
      SplitsAt(afterOwner.value);
      SplitsAt(afterRepo.value);
      assert s == ref.owner + "/" + (ref.repo + "/" + ("pull" + "/" + afterPull.value));
    }
    forall tail | PlainName(ref.owner) && PlainName(ref.repo)
                  && s == ref.owner + "/" + (ref.repo + "/" + ("pull" + "/" + tail))
                  && ParseNumberSegment(tail) == Some(ref.pullNumber)
      ensures ParseSegments(s) == Some(ref)
    {
      SplitSlashOf("pull", tail);
      SplitSlashOf(ref.repo, "pull" + "/" + tail);
      SplitSlashOf(ref.owner, ref.repo + "/" + ("pull" + "/" + tail));
    }
  }

  /**
   Exactly the URLs `https://github.com/owner/repo/pull/n`, with or without a last slash and with
   white space around them, are accepted, each as its own coordinates.
   */
  lemma UrlsExactly(url: string, ref: PullRequestRef)
    ensures ParsePullRequestUrl(url) == Ok(ref) <==>
            && PlainName(ref.owner) && PlainName(ref.repo) && ref.pullNumber > 0
            && var canonical := UrlOf(ref.owner, ref.repo, Decimal(ref.pullNumber));
               Strip(url) == canonical || Strip(url) == canonical + "/"
    ensures ParsePullRequestUrl(url).Err? ==> ParsePullRequestUrl(url).error == InvalidPullRequestUrl
  {
    hide Strip, ParseSegments, ParseNumberSegment, Decimal;
    var text := Strip(url);
    if URL_PREFIX <= text {
      var s := text[|URL_PREFIX|..];
      assert text == URL_PREFIX + s;
      SegmentsExactly(s, ref);
      forall tail
        ensures ParseNumberSegment(tail) == Some(ref.pullNumber) <==>
                ref.pullNumber > 0 && (tail == Decimal(ref.pullNumber) || tail == Decimal(ref.pullNumber) + "/")
      {
        NumberSegmentExactly(tail, ref.pullNumber);
      }
      TailsOf(text, s, ref);
    } else {
      StartsWithHost(ref, text);
    }
  }

  lemma StartsWithHost(ref: PullRequestRef, text: string)
    requires !(URL_PREFIX <= text)
    ensures var canonical := UrlOf(ref.owner, ref.repo, Decimal(ref.pullNumber));
            text != canonical && text != canonical + "/"
  {
    hide Decimal;
    var rest := ref.owner + "/" + (ref.repo + "/" + ("pull" + "/" + Decimal(ref.pullNumber)));
    assert URL_PREFIX <= URL_PREFIX + rest;
    assert URL_PREFIX + rest + "/" == URL_PREFIX + (rest + "/");
  }

  /** The two tails, as whole texts. */
  lemma TailsOf(text: string, s: string, ref: PullRequestRef)
    requires text == URL_PREFIX + s
    ensures var number := Decimal(ref.pullNumber); var canonical := UrlOf(ref.owner, ref.repo, number);
            && (text == canonical <==> s == ref.owner + "/" + (ref.repo + "/" + ("pull" + "/" + number)))
            && (text == canonical + "/" <==> s == ref.owner + "/" + (ref.repo + "/" + ("pull" + "/" + (number + "/"))))
  {
    hide Decimal;
    var number := Decimal(ref.pullNumber);
    var rest := ref.owner + "/" + (ref.repo + "/" + ("pull" + "/" + number));
    assert UrlOf(ref.owner, ref.repo, number)[|URL_PREFIX|..] == rest;
    assert rest + "/" == ref.owner + "/" + (ref.repo + "/" + ("pull" + "/" + (number + "/")));
    assert URL_PREFIX + rest + "/" == URL_PREFIX + (rest + "/");
    assert (URL_PREFIX + (rest + "/"))[|URL_PREFIX|..] == rest + "/";
    assert (URL_PREFIX + s)[|URL_PREFIX|..] == s;
  }

  // ------------------------------------------------------------- signed messages

  /** The text a developer signs, line by line. */
  lemma AssignmentReads(a: Assignment)
    ensures AssignmentMessage(a)
         == "MergePay assignment v1" + "\n" + ("bounty_id=" + Decimal(a.bountyId)
            + "\n" + ("transaction_hash=" + Lower(a.transactionHash)
            + "\n" + ("developer_wallet=" + a.developerWallet
            + "\n" + ("developer_github=" + Strip(a.developerGithub)
            + "\n" + ("contract_id=" + a.contractId)))))
  {
    hide Decimal, Lower, Strip;
    var lines := AssignmentLines(a);
    assert lines[1..][1..] == lines[2..] && lines[2..][1..] == lines[3..];
    assert lines[3..][1..] == lines[4..] && lines[4..][1..] == lines[5..];
    assert Join(lines[5..]) == lines[5] && Join(lines[4..]) == lines[4] + "\n" + Join(lines[5..]);
    assert Join(lines[3..]) == lines[3] + "\n" + Join(lines[4..]);
    assert Join(lines[2..]) == lines[2] + "\n" + Join(lines[3..]);
    assert Join(lines[1..]) == lines[1] + "\n" + Join(lines[2..]);
  }

  /** The text a wallet signs to log in. */
  lemma AuthenticationReads(a: Authentication)
    ensures AuthenticationMessage(a)
         == "MergePay authentication v1" + "\n" + ("wallet=" + a.wallet
            + "\n" + ("challenge=" + a.challengeId
            + "\n" + ("issued_at=" + Decimal(a.issuedAt)
            + "\n" + ("expires_at=" + Decimal(a.expiresAt)
            + "\n" + "network=TESTNET"))))
  {
    hide Decimal;
    var lines := AuthenticationLines(a);
    assert lines[1..][1..] == lines[2..] && lines[2..][1..] == lines[3..];
    assert lines[3..][1..] == lines[4..] && lines[4..][1..] == lines[5..];
    assert "network=" + NETWORK == "network=TESTNET";
    assert Join(lines[5..]) == lines[5] && Join(lines[4..]) == lines[4] + "\n" + Join(lines[5..]);
    assert Join(lines[3..]) == lines[3] + "\n" + Join(lines[4..]);
    assert Join(lines[2..]) == lines[2] + "\n" + Join(lines[3..]);
    assert Join(lines[1..]) == lines[1] + "\n" + Join(lines[2..]);
  }

  // ------------------------------------------------------------- committed text

  /** The escapes of `json.dumps`: seven of two characters, lower-case `\u00XX` for other controls, and nothing else. */
  lemma EscapesExactly(c: char)
    ensures C.Escape(c)
         == if c as int == 34 then ['\\', '"']
            else if c as int == 92 then ['\\', '\\']
            else if c as int == 10 then ['\\', 'n']
            else if c as int == 13 then ['\\', 'r']
            else if c as int == 9 then ['\\', 't']
            else if c as int == 8 then ['\\', 'b']
            else if c as int == 12 then ['\\', 'f']
            else if c as int < 16 then ['\\', 'u', '0', '0', '0', "0123456789abcdef"[c as int]]
            else if c as int < 32 then ['\\', 'u', '0', '0', '1', "0123456789abcdef"[c as int - 16]]
            else [c]
  {
    LowerHexDigits();
  }

  lemma LowerHexDigits()
    ensures forall n :: 0 <= n < 16 ==> HexChar(n) == "0123456789abcdef"[n]
  {
    var digits := "0123456789abcdef";
    assert digits[0] == '0' && digits[1] == '1' && digits[2] == '2' && digits[3] == '3' && digits[4] == '4';
    assert digits[5] == '5' && digits[6] == '6' && digits[7] == '7' && digits[8] == '8' && digits[9] == '9';
    assert digits[10] == 'a' && digits[11] == 'b' && digits[12] == 'c' && digits[13] == 'd' && digits[14] == 'e';
    assert digits[15] == 'f';
  }

  // ------------------------------------------------------------- amounts

  predicate Digits(s: string) {
    s != "" && forall c :: c in s ==> '0' <= c <= '9'
  }

  lemma {:induction false} DotSplits(s: string)
    ensures '.' !in X.BeforeDot(s)
    ensures '.' in s ==> s == X.BeforeDot(s) + "." + X.AfterDot(s)
    ensures '.' !in s ==> s == X.BeforeDot(s) && X.AfterDot(s) == ""
  {
    if s != "" && s[0] != '.' {
      DotSplits(s[1..]);
      assert s == [s[0]] + s[1..];
    } else if s != "" {
      assert s == "" + "." + s[1..];
    }
  }

  /** An amount is digits, or digits, one dot and digits. */
  lemma AmountsExactly(s: string)
    ensures X.IsAmount(s) <==> Digits(s) || exists whole, fraction :: Digits(whole) && Digits(fraction)
                                                && s == whole + "." + fraction
  {
    DotSplits(s);
    if X.IsAmount(s) && '.' in s {
      assert Digits(X.BeforeDot(s)) && Digits(X.AfterDot(s));
    }
    if Digits(s) {
      assert '.' !in s;
    }
    forall whole, fraction | Digits(whole) && Digits(fraction) && s == whole + "." + fraction ensures X.IsAmount(s) {
      X.SplitAtDot(whole, fraction);
    }
  }

  /** Which amounts are refused, and as what. */
  lemma RefusalsExactly(rn: real -> real, input: string)
    requires X.RoundsToNearest(rn)
    ensures var s := Trim(input); var parsed := X.XlmToStroops(rn, input);
            if s == "" then parsed == Err(X.Empty)
            else if !X.IsAmount(s) then parsed == Err(X.NotAnAmount)
            else if |X.AfterDot(s)| > 7 then parsed == Err(X.TooManyDecimals)
            else if X.AmountOf(s) * 10_000_000.0 >= 9_007_199_254_740_992.0 then parsed == Err(X.TooLarge)
            else if X.AmountOf(s) == 0.0 then parsed == Err(X.NotPositive)
            else parsed.Ok?
  {
    var s := Trim(input);
    if X.IsAmount(s) && |X.AfterDot(s)| <= 7 {
      X.DigitsCountStroops(s);
      var n := NatOf(X.BeforeDot(s) + X.PadEnd(X.AfterDot(s), 7));
      X.RoundingOfIntegers(rn, n);
      hide X.RoundsToNearest, X.IsAmount, X.AmountOf, X.PadEnd, Trim;
    }
  }

  // ------------------------------------------------------------- browser storage

  predicate AccountText(s: string) {
    |s| == 56 && s[0] == 'G' && forall k :: 0 <= k < 56 ==> 'A' <= s[k] <= 'Z' || '2' <= s[k] <= '7'
  }

  predicate UsernameText(s: string) {
    1 <= |s| <= 39 && forall c :: c in s ==> 'A' <= c <= 'Z' || 'a' <= c <= 'z' || '0' <= c <= '9' || c == '-'
  }

  predicate HashText(s: string) {
    |s| == 64 && forall c :: c in s ==> '0' <= c <= '9' || 'a' <= c <= 'f' || 'A' <= c <= 'F'
  }

  /** What the funding panel takes from storage: a hash, in lower case, and nothing else. */
  lemma FundingLoadsExactly(normalize: string -> Option<string>, saved: R.Saved)
    ensures R.Load(normalize, R.Funding, saved)
         == if saved.SavedHash? && HashText(saved.text) then Some(R.Pending(Lower(saved.text), "", "", None)) else None
  {
  }

  /** What the assignment panel takes: hash, name and address in form; a signature that is none is dropped alone. */
  lemma AssignmentLoadsExactly(normalize: string -> Option<string>, saved: R.Saved)
    ensures R.Load(normalize, R.Assigning, saved)
         == if saved.SavedAssignment? && HashText(saved.hash) && UsernameText(Trim(saved.github))
               && AccountText(saved.address)
            then Some(R.Pending(Lower(saved.hash), Trim(saved.github), saved.address,
                                if saved.signature.Some? then normalize(saved.signature.value) else None))
            else None
  {
    hide Trim, Lower;
    if saved.SavedAssignment? {
      AccountsAlike(saved.address);
    }
  }

  lemma AccountsAlike(s: string)
    ensures R.IsAccount(s) <==> AccountText(s)
  {
    if AccountText(s) {
      forall c | c in s ensures 'A' <= c <= 'Z' || '2' <= c <= '7' {
        var k :| 0 <= k < |s| && s[k] == c;
      }
    }
    if R.IsAccount(s) {
      forall k | 0 <= k < 56 ensures 'A' <= s[k] <= 'Z' || '2' <= s[k] <= '7' {
        assert s[k] in s;
      }
    }
  }


  // ------------------------------------------------------------- request schemas

  /** What the acceptance message is written from: a hash, a GitHub name, and printed addresses on one line. */
  lemma SchemaExactly(a: Assignment)
    ensures SchemaValid(a) <==>
            && HashText(a.transactionHash) && UsernameText(a.developerGithub)
            && '\n' !in a.developerWallet && '\n' !in a.contractId
  {
  }
}
