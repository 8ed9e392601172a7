/** The two texts a wallet signs, one field a line, and how to read them back. */
module Messages {
  import opened Wrappers
  import opened Text

  /** The fields of an assignment message; addresses are their printed form. */
  datatype Assignment = Assignment(
    bountyId: nat,
    transactionHash: string,
    developerWallet: string,
    developerGithub: string,
    contractId: string)

  const ASSIGNMENT_HEADER := "MergePay assignment v1"
  const AUTHENTICATION_HEADER := "MergePay authentication v1"
  const NETWORK := "TESTNET"

  function AssignmentLines(a: Assignment): seq<string> {
    [ASSIGNMENT_HEADER,
     "bounty_id=" + Decimal(a.bountyId),
     "transaction_hash=" + Lower(a.transactionHash),
     "developer_wallet=" + a.developerWallet,
     "developer_github=" + Strip(a.developerGithub),
     "contract_id=" + a.contractId]
  }

  function AssignmentMessage(a: Assignment): string {
    Join(AssignmentLines(a))
  }

  /** The fields of an authentication message. */
  datatype Authentication = Authentication(wallet: string, challengeId: string, issuedAt: nat, expiresAt: nat)

  function AuthenticationLines(a: Authentication): seq<string> {
    [AUTHENTICATION_HEADER,
     "wallet=" + a.wallet,
     "challenge=" + a.challengeId,
     "issued_at=" + Decimal(a.issuedAt),
     "expires_at=" + Decimal(a.expiresAt),
     "network=" + NETWORK]
  }

  function AuthenticationMessage(a: Authentication): string {
    Join(AuthenticationLines(a))
  }

  /** `[A-Za-z0-9-]` */
  predicate IsGithubChar(c: char) {
    'A' <= c <= 'Z' || 'a' <= c <= 'z' || '0' <= c <= '9' || c == '-'
  }

  /** What the request schema lets through, for printed addresses that fit on a line. */
  predicate SchemaValid(a: Assignment) {
    && IsHash(a.transactionHash)
    && 1 <= |a.developerGithub| <= 39
    && (forall c :: c in a.developerGithub ==> IsGithubChar(c))
    && '\n' !in a.developerWallet
    && '\n' !in a.contractId
  }

  /** The text after `key` on its line. */
  function ValueAfter(line: string, key: string): Option<string> {
    if key <= line then Some(line[|key|..]) else None
  }

  function ParseAssignment(message: string): Option<Assignment> {
    var lines := SplitLines(message);
    if |lines| != 6 || lines[0] != ASSIGNMENT_HEADER then None
    else
      var id := ValueAfter(lines[1], "bounty_id=");
      var hash := ValueAfter(lines[2], "transaction_hash=");
      var wallet := ValueAfter(lines[3], "developer_wallet=");
      var github := ValueAfter(lines[4], "developer_github=");
      var contractId := ValueAfter(lines[5], "contract_id=");
      if id.None? || !AllDigits(id.value) || hash.None? || wallet.None? || github.None? || contractId.None? then None
      else Some(Assignment(NatOf(id.value), hash.value, wallet.value, github.value, contractId.value))
  }

  lemma ValueAfterKey(key: string, value: string)
    ensures ValueAfter(key + value, key) == Some(value)
  {
    assert (key + value)[|key|..] == value;
  }

  lemma NoBreakInField(key: string, value: string)
    requires '\n' !in key && '\n' !in value
    ensures '\n' !in key + value
  {
  }

  lemma LowerHasNoBreak(hash: string)
    requires AllHex(hash)
    ensures '\n' !in Lower(hash)
  {
    forall c | c in Lower(hash) ensures c != '\n' {
      var k :| 0 <= k < |hash| && Lower(hash)[k] == c;
      assert IsHexDigit(hash[k]);
    }
  }

  lemma LinesOfMessage(a: Assignment)
    requires SchemaValid(a)
    ensures SplitLines(AssignmentMessage(a)) == AssignmentLines(a)
  {
    LowerHasNoBreak(a.transactionHash);
    DecimalRoundTrip(a.bountyId);
    TrimNothing(a.developerGithub);
    NoBreakInField("bounty_id=", Decimal(a.bountyId));
    NoBreakInField("transaction_hash=", Lower(a.transactionHash));
    NoBreakInField("developer_wallet=", a.developerWallet);
    NoBreakInField("developer_github=", a.developerGithub);
    NoBreakInField("contract_id=", a.contractId);
    SplitJoin(AssignmentLines(a));
  }

  /** Every signed assignment says exactly one thing: it parses back to its five fields. */
  lemma AssignmentRoundTrip(a: Assignment)
    requires SchemaValid(a)
    ensures ParseAssignment(AssignmentMessage(a)) == Some(a.(transactionHash := Lower(a.transactionHash)))
  {
    LinesOfMessage(a);
    DecimalRoundTrip(a.bountyId);
    TrimNothing(a.developerGithub);
    ValueAfterKey("bounty_id=", Decimal(a.bountyId));
    ValueAfterKey("transaction_hash=", Lower(a.transactionHash));
    ValueAfterKey("developer_wallet=", a.developerWallet);
    ValueAfterKey("developer_github=", a.developerGithub);
    ValueAfterKey("contract_id=", a.contractId);
  }

  lemma AssignmentInjective(a: Assignment, b: Assignment)
    requires SchemaValid(a) && SchemaValid(b)
    requires AssignmentMessage(a) == AssignmentMessage(b)
    ensures a.(transactionHash := Lower(a.transactionHash)) == b.(transactionHash := Lower(b.transactionHash))
  {
    AssignmentRoundTrip(a);
    AssignmentRoundTrip(b);
  }

  lemma FirstLine(first: string, rest: seq<string>)
    requires '\n' !in first && rest != []
    ensures SplitLines(Join([first] + rest))[0] == first
  {
    assert ([first] + rest)[1..] == rest;
    SplitLine(first, Join(rest));
  }

  function ParseAuthentication(message: string): Option<Authentication> {
    var lines := SplitLines(message);
    if |lines| != 6 || lines[0] != AUTHENTICATION_HEADER || lines[5] != "network=" + NETWORK then None
    else
      var wallet := ValueAfter(lines[1], "wallet=");
      var id := ValueAfter(lines[2], "challenge=");
      var issued := ValueAfter(lines[3], "issued_at=");
      var expires := ValueAfter(lines[4], "expires_at=");
      if wallet.None? || id.None? || issued.None? || !AllDigits(issued.value)
         || expires.None? || !AllDigits(expires.value)
      then None
      else Some(Authentication(wallet.value, id.value, NatOf(issued.value), NatOf(expires.value)))
  }

  /** The message a wallet signs to log in names one challenge of one wallet and its two times. */
  lemma AuthenticationRoundTrip(a: Authentication)
    requires '\n' !in a.wallet && '\n' !in a.challengeId
    ensures ParseAuthentication(AuthenticationMessage(a)) == Some(a)
  {
    DecimalRoundTrip(a.issuedAt);
    DecimalRoundTrip(a.expiresAt);
    NoBreakInField("wallet=", a.wallet);
    NoBreakInField("challenge=", a.challengeId);
    NoBreakInField("issued_at=", Decimal(a.issuedAt));
    NoBreakInField("expires_at=", Decimal(a.expiresAt));
    SplitJoin(AuthenticationLines(a));
    ValueAfterKey("wallet=", a.wallet);
    ValueAfterKey("challenge=", a.challengeId);
    ValueAfterKey("issued_at=", Decimal(a.issuedAt));
    ValueAfterKey("expires_at=", Decimal(a.expiresAt));
  }

  /** No assignment can be passed off as a login or the reverse, whatever the fields are. */
  lemma MessagesNeverCoincide(a: Assignment, b: Authentication)
    ensures AssignmentMessage(a) != AuthenticationMessage(b)
  {
    assert AssignmentLines(a) == [ASSIGNMENT_HEADER] + AssignmentLines(a)[1..];
    FirstLine(ASSIGNMENT_HEADER, AssignmentLines(a)[1..]);
    assert AuthenticationLines(b) == [AUTHENTICATION_HEADER] + AuthenticationLines(b)[1..];
    FirstLine(AUTHENTICATION_HEADER, AuthenticationLines(b)[1..]);
    assert |ASSIGNMENT_HEADER| != |AUTHENTICATION_HEADER|;
  }
}
