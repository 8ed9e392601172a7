/**
 Hexadecimal on both sides of the chain: the browser's `hexToBytes`, the
 backend's `bytes.hex()` and `bytes.fromhex`.
 */
module HexCodec {
  import opened Wrappers
  import opened Text

  /** `bytes.hex()`: two lower-case digits a byte. */
  function HexOf(bytes: seq<byte>): string {
    if bytes == [] then ""
    else [HexChar(bytes[0] / 16), HexChar(bytes[0] % 16)] + HexOf(bytes[1..])
  }

  /** The bytes a string of hex digit pairs stands for. */
  function BytesOf(hex: string): (r: seq<byte>)
    requires AllHex(hex) && |hex| % 2 == 0
    ensures |r| == |hex| / 2
  {
    if hex == "" then []
    else [16 * HexValue(hex[0]) + HexValue(hex[1])] + BytesOf(hex[2..])
  }

  lemma {:induction false} BytesOfAt(hex: string, k: nat)
    requires AllHex(hex) && |hex| % 2 == 0 && k < |hex| / 2
    ensures BytesOf(hex)[k] == 16 * HexValue(hex[2 * k]) + HexValue(hex[2 * k + 1])
  {
    if k > 0 {
      BytesOfAt(hex[2..], k - 1);
    }
  }

  /** escrow.ts hexToBytes: fills the array two digits at a time. */
  method HexToBytes(hex: string) returns (bytes: array<byte>)
    requires AllHex(hex) && |hex| % 2 == 0
    ensures fresh(bytes) && bytes[..] == BytesOf(hex)
  {
    bytes := new byte[|hex| / 2](_ => 0);
    var index := 0;
    while index < bytes.Length
      invariant 0 <= index <= bytes.Length
      invariant forall k :: 0 <= k < index ==> bytes[k] == BytesOf(hex)[k]
    {
      BytesOfAt(hex, index);
      bytes[index] := 16 * HexValue(hex[2 * index]) + HexValue(hex[2 * index + 1]);
      index := index + 1;
    }
  }

  lemma HexDigitRoundTrip(c: char)
    requires IsHexDigit(c)
    ensures HexChar(HexValue(c)) == LowerChar(c)
  {
  }

  lemma PairRoundTrip(c: char, d: char)
    requires IsHexDigit(c) && IsHexDigit(d)
    ensures var b := 16 * HexValue(c) + HexValue(d);
            0 <= b < 256 && HexChar(b / 16) == LowerChar(c) && HexChar(b % 16) == LowerChar(d)
  {
    HexDigitRoundTrip(c);
    HexDigitRoundTrip(d);
  }

  /** What the browser sends and the backend prints back is the same hash in lower case. */
  lemma {:induction false} HexOfBytesOf(hex: string)
    requires AllHex(hex) && |hex| % 2 == 0
    ensures HexOf(BytesOf(hex)) == Lower(hex)
  {
    if hex != "" {
      HexOfBytesOf(hex[2..]);
      PairRoundTrip(hex[0], hex[1]);
      hide HexChar, HexValue, LowerChar;
      assert Lower(hex) == [LowerChar(hex[0]), LowerChar(hex[1])] + Lower(hex[2..]);
      assert BytesOf(hex)[1..] == BytesOf(hex[2..]);
    }
  }

  lemma {:induction false} BytesOfHexOf(bytes: seq<byte>)
    ensures AllHex(HexOf(bytes)) && |HexOf(bytes)| == 2 * |bytes|
    ensures BytesOf(HexOf(bytes)) == bytes
    ensures Lower(HexOf(bytes)) == HexOf(bytes)
  {
    if bytes != [] {
      BytesOfHexOf(bytes[1..]);
      var hex := HexOf(bytes);
      assert hex[2..] == HexOf(bytes[1..]);
      assert HexValue(hex[0]) == bytes[0] / 16 && HexValue(hex[1]) == bytes[0] % 16;
      assert Lower(hex) == hex;
    }
  }

  /** Equal hex up to case means equal bytes. */
  lemma HexOfInjective(a: seq<byte>, b: seq<byte>)
    requires HexOf(a) == HexOf(b)
    ensures a == b
  {
    BytesOfHexOf(a);
    BytesOfHexOf(b);
  }

  /** `bytes.fromhex`: digit pairs, with white space allowed between them. */
  function FromHex(s: string): Option<seq<byte>> {
    if s == "" then Some([])
    else if IsSpace(s[0]) then FromHex(s[1..])
    else if |s| < 2 || !IsHexDigit(s[0]) || !IsHexDigit(s[1]) then None
    else
      match FromHex(s[2..])
      case None => None
      case Some(rest) => Some([16 * HexValue(s[0]) + HexValue(s[1])] + rest)
  }

  /** stellar_client._decode_evidence_hash. */
  function DecodeEvidenceHash(evidenceHash: string): Option<Bytes32> {
    if |evidenceHash| != 64 then None
    else
      match FromHex(evidenceHash)
      case None => None
      case Some(bytes) => if |bytes| != 32 then None else Some(bytes)
  }

  lemma {:induction false} FromHexLength(s: string)
    requires FromHex(s).Some?
    ensures 2 * |FromHex(s).value| <= |s|
    ensures 2 * |FromHex(s).value| == |s| ==> AllHex(s) && FromHex(s).value == BytesOf(s)
  {
    if s != "" {
      if IsSpace(s[0]) {
        FromHexLength(s[1..]);
      } else {
        FromHexLength(s[2..]);
        assert s == [s[0], s[1]] + s[2..];
      }
    }
  }

  lemma {:induction false} FromHexOfDigits(s: string)
    requires AllHex(s) && |s| % 2 == 0
    ensures FromHex(s) == Some(BytesOf(s))
  {
    if s != "" {
      FromHexOfDigits(s[2..]);
    }
  }

  /** The second length check closes the white-space hole: exactly the 64-digit strings decode. */
  lemma DecodesExactlyHashes(s: string)
    ensures DecodeEvidenceHash(s) == if IsHash(s) then Some(BytesOf(s)) else None
  {
    if |s| == 64 && FromHex(s).Some? {
      FromHexLength(s);
    }
    if IsHash(s) {
      FromHexOfDigits(s);
    }
  }
}
