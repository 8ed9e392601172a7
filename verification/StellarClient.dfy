/**
 The backend's client for the contract: what it makes of the values the RPC returns,
 and what it reports of a release.
 */
module StellarClient {
  import opened Wrappers
  import opened Text
  import opened HexCodec

  /** The field names of the contract's struct, and any other. */
  datatype Key = Client | Developer | Amount | CriteriaHash | EvidenceHash | Deadline | Status | Other(name: string)

  /** A contract value as the SDK turns it into a native one. */
  datatype Native =
    | Nothing
    | AnAddress(address: string)
    | Blob(bytes: seq<byte>)
    | Number(n: int)
    | Flag(flag: bool)
    | Symbol(text: string)
    | Vector(items: seq<Native>)
    | Struct(fields: map<Key, Native>)

  datatype OnChainBounty = OnChainBounty(
    client: string,
    developer: Option<string>,
    amount: int,
    criteriaHash: string,
    evidenceHash: Option<string>,
    deadline: int,
    status: string)

  datatype DecodeError = UnexpectedPayload

  function AsAddress(v: Native): Result<string, DecodeError> {
    if v.AnAddress? then Ok(v.address) else Err(UnexpectedPayload)
  }

  function AsHashHex(v: Native): Result<string, DecodeError> {
    if v.Blob? && |v.bytes| == 32 then Ok(HexOf(v.bytes)) else Err(UnexpectedPayload)
  }

  /** A flag is an integer to Python, but not to this client. */
  function AsInteger(v: Native): Result<int, DecodeError> {
    if v.Number? then Ok(v.n) else Err(UnexpectedPayload)
  }

  /** A unit variant arrives as a vector of its one symbol. */
  function AsEnumVariant(v: Native): Result<string, DecodeError> {
    if v.Vector? && |v.items| == 1 && v.items[0].Symbol? then Ok(v.items[0].text) else Err(UnexpectedPayload)
  }

  function AsOptional<T>(v: Native, decoded: Result<T, DecodeError>): Result<Option<T>, DecodeError> {
    if v.Nothing? then Ok(None)
    else match decoded case Ok(x) => Ok(Some(x)) case Err(e) => Err(e)
  }

  const FIELDS: set<Key> := {Client, Developer, Amount, Key.CriteriaHash, EvidenceHash, Deadline, Status}

  function ToOnChainBounty(v: Native): Result<OnChainBounty, DecodeError> {
    if !v.Struct? || v.fields.Keys != FIELDS then Err(UnexpectedPayload)
    else
      var client := AsAddress(v.fields[Client]);
      var developer := AsOptional(v.fields[Developer], AsAddress(v.fields[Developer]));
      var amount := AsInteger(v.fields[Amount]);
      var criteria := AsHashHex(v.fields[Key.CriteriaHash]);
      var evidence := AsOptional(v.fields[EvidenceHash], AsHashHex(v.fields[EvidenceHash]));
      var deadline := AsInteger(v.fields[Deadline]);
      var status := AsEnumVariant(v.fields[Status]);
      if client.Err? || developer.Err? || amount.Err? || criteria.Err? || evidence.Err? || deadline.Err? || status.Err?
      then Err(UnexpectedPayload)
      else Ok(OnChainBounty(client.value, developer.value, amount.value, criteria.value, evidence.value,
                            deadline.value, status.value))
  }

  /** The contract's struct, with its digests as bytes. */
  datatype Stored = Stored(
    client: string,
    developer: Option<string>,
    amount: int,
    criteriaHash: Bytes32,
    evidenceHash: Option<Bytes32>,
    deadline: int,
    status: string)

  function Encode(b: Stored): Native {
    Struct(map[
      Client := AnAddress(b.client),
      Developer := if b.developer.None? then Nothing else AnAddress(b.developer.value),
      Amount := Number(b.amount),
      Key.CriteriaHash := Blob(b.criteriaHash),
      EvidenceHash := if b.evidenceHash.None? then Nothing else Blob(b.evidenceHash.value),
      Deadline := Number(b.deadline),
      Status := Vector([Symbol(b.status)])])
  }

  function Printed(b: Stored): OnChainBounty {
    OnChainBounty(b.client, b.developer, b.amount, HexOf(b.criteriaHash),
                  if b.evidenceHash.None? then None else Some(HexOf(b.evidenceHash.value)), b.deadline, b.status)
  }

  /** What the contract stores is read back whole. */
  lemma EncodedIsDecoded(b: Stored)
    ensures ToOnChainBounty(Encode(b)) == Ok(Printed(b))
  {
    assert Encode(b).fields.Keys == FIELDS;
  }

  /** Digests in hexadecimal still tell stored bounties apart. */
  lemma PrintedInjective(a: Stored, b: Stored)
    requires Printed(a) == Printed(b)
    ensures a == b
  {
    HexOfInjective(a.criteriaHash, b.criteriaHash);
    if a.evidenceHash.Some? {
      HexOfInjective(a.evidenceHash.value, b.evidenceHash.value);
    }
  }

  /** The stored bounty a decoded value came from. */
  function Restored(v: Native): Stored
    requires ToOnChainBounty(v).Ok?
  {
    var o := ToOnChainBounty(v).value;
    Stored(o.client, o.developer, o.amount, v.fields[Key.CriteriaHash].bytes,
           if v.fields[EvidenceHash].Nothing? then None else Some(v.fields[EvidenceHash].bytes), o.deadline, o.status)
  }

  lemma DecodedWasEncoded(v: Native)
    requires ToOnChainBounty(v).Ok?
    ensures v == Encode(Restored(v))
  {
    var b := Restored(v);
    var status := v.fields[Status];
    assert status.items == [status.items[0]];
    assert v.fields == Encode(b).fields;
  }

  /** A payload is accepted as `o` exactly when it encodes a bounty that prints as `o`: nothing is guessed. */
  lemma AcceptsExactlyEncodings(v: Native, o: OnChainBounty)
    ensures ToOnChainBounty(v) == Ok(o) <==> exists b :: v == Encode(b) && o == Printed(b)
  {
    if ToOnChainBounty(v) == Ok(o) {
      DecodedWasEncoded(v);
      EncodedIsDecoded(Restored(v));
    }
    forall b | v == Encode(b) && o == Printed(b) ensures ToOnChainBounty(v) == Ok(o) {
      EncodedIsDecoded(b);
    }
  }

  // ------------------------------------------------------------- transactions

  /** A call to the RPC. A well-formed RPC error, or a simulation that fails, is not translated and escapes. */
  datatype Rpc<T> = Replied(value: T) | TransportError | RpcError

  datatype SendStatus = PENDING | DUPLICATE | TRY_AGAIN_LATER | ERROR

  datatype FinalStatus = SUCCESS | FAILED | NOT_FOUND

  /** What a release reports; nothing but success says what became of the payment. */
  datatype ReleaseReply = ReleaseNotConfigured | ReleaseErrored | ReleaseCrashed | ReleaseSucceeded(txHash: string)

  /** A bounty id the contract has, and a hash of 64 hexadecimal digits. */
  predicate Callable(id: int, evidenceHash: string) {
    0 < id <= 18_446_744_073_709_551_615 && IsHash(evidenceHash)
  }

  /** `handed` is the call in the signed transaction that left for the network, which an error reply does not tell. */
  method ReleaseBounty(id: int, evidenceHash: string, account: Rpc<nat>, prepared: Rpc<string>, sent: Rpc<SendStatus>,
                       polled: Rpc<FinalStatus>)
    returns (reply: ReleaseReply, handed: Option<(int, Bytes32)>)
    ensures handed == if Callable(id, evidenceHash) && account.Replied? && prepared.Replied?
                      then Some((id, BytesOf(evidenceHash))) else None
    ensures reply.ReleaseSucceeded? <==>
            && Callable(id, evidenceHash) && account.Replied? && prepared.Replied?
            && (sent == Replied(PENDING) || sent == Replied(DUPLICATE)) && polled == Replied(SUCCESS)
    ensures reply.ReleaseSucceeded? ==> prepared == Replied(reply.txHash)
    ensures reply.ReleaseCrashed? <==>
            || id <= 0 || !IsHash(evidenceHash) || account == RpcError
            || (account.Replied? && !Callable(id, evidenceHash))
            || (account.Replied? && prepared == RpcError)
            || (account.Replied? && prepared.Replied? && sent == RpcError)
            || (account.Replied? && prepared.Replied? && (sent == Replied(PENDING) || sent == Replied(DUPLICATE))
                && polled == RpcError)
    ensures !reply.ReleaseNotConfigured?
  {
    if id <= 0 { return ReleaseCrashed, None; }
    DecodesExactlyHashes(evidenceHash);
    var decoded := DecodeEvidenceHash(evidenceHash);
    if decoded.None? { return ReleaseCrashed, None; }

    if !account.Replied? { return if account.RpcError? then ReleaseCrashed else ReleaseErrored, None; }
    if id > U64_MAX { return ReleaseCrashed, None; }
    var call := Some((id, decoded.value));
    if !prepared.Replied? { return if prepared.RpcError? then ReleaseCrashed else ReleaseErrored, None; }
    var transactionHash := prepared.value;

    if !sent.Replied? { return if sent.RpcError? then ReleaseCrashed else ReleaseErrored, call; }
    if sent.value != PENDING && sent.value != DUPLICATE { return ReleaseErrored, call; }

    if !polled.Replied? { return if polled.RpcError? then ReleaseCrashed else ReleaseErrored, call; }
    if polled.value != SUCCESS { return ReleaseErrored, call; }
    return ReleaseSucceeded(transactionHash), call;
  }

  /** A transaction counts only if its hash is one and the network says it succeeded. */
  method AssertTransactionSuccess(transactionHash: string, status: Rpc<FinalStatus>) returns (ok: bool)
    ensures ok <==> IsHash(transactionHash) && status == Replied(SUCCESS)
  {
    if !IsHash(transactionHash) { return false; }
    ok := status.Replied? && status.value == SUCCESS;
  }
}
