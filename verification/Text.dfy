/** Digits, hexadecimal and the few string operations the services share. */
module Text {
  import opened Wrappers

  // ------------------------------------------------------------- decimal

  predicate IsDigit(c: char) { '0' <= c <= '9' }

  predicate AllDigits(s: string) { forall c :: c in s ==> IsDigit(c) }

  function DigitOf(n: nat): char
    requires n < 10
  {
    '0' + n as char
  }

  function ValueOf(c: char): nat
    requires IsDigit(c)
  {
    c as int - '0' as int
  }

  /** `str(n)` for a non-negative integer. */
  function Decimal(n: nat): string {
    if n < 10 then [DigitOf(n)] else Decimal(n / 10) + [DigitOf(n % 10)]
  }

  /** The number a run of digits denotes; leading zeros count for nothing. */
  function NatOf(s: string): nat
    requires AllDigits(s)
  {
    if s == "" then 0
    else
      assert forall c :: c in s[..|s| - 1] ==> c in s;
      10 * NatOf(s[..|s| - 1]) + ValueOf(s[|s| - 1])
  }

  lemma {:induction false} DecimalRoundTrip(n: nat)
    ensures Decimal(n) != "" && AllDigits(Decimal(n))
    ensures NatOf(Decimal(n)) == n
    ensures n > 0 ==> Decimal(n)[0] != '0'
    ensures |Decimal(n)| == 1 || Decimal(n)[0] != '0'
  {
    if n >= 10 {
      DecimalRoundTrip(n / 10);
      var s := Decimal(n);
      assert s[..|s| - 1] == Decimal(n / 10);
    }
  }

  function Power10(n: nat): (p: nat)
    ensures p >= 1
  {
    if n == 0 then 1 else 10 * Power10(n - 1)
  }

  lemma MoveTen(x: int, y: int)
    ensures 10 * (x * y) == x * (10 * y)
  {
  }

  lemma {:induction false} NatOfConcat(a: string, b: string)
    requires AllDigits(a) && AllDigits(b)
    ensures AllDigits(a + b)
    ensures NatOf(a + b) == NatOf(a) * Power10(|b|) + NatOf(b)
    decreases |b|
  {
    if b == "" {
      assert a + b == a;
    } else {
      var b' := b[..|b| - 1];
      assert forall c :: c in b' ==> c in b;
      NatOfConcat(a, b');
      assert (a + b)[..|a + b| - 1] == a + b';
      MoveTen(NatOf(a), Power10(|b'|));
      assert Power10(|b|) == 10 * Power10(|b'|);
    }
  }

  lemma {:induction false} NatOfBound(s: string)
    requires AllDigits(s)
    ensures NatOf(s) < Power10(|s|)
  {
    if s != "" {
      var front := s[..|s| - 1];
      assert forall c :: c in front ==> c in s;
      NatOfBound(front);
      assert IsDigit(s[|s| - 1]);
      assert ValueOf(s[|s| - 1]) <= 9;
      assert |s| == |front| + 1;
    }
  }

  // ------------------------------------------------------------- hexadecimal

  predicate IsHexDigit(c: char) {
    '0' <= c <= '9' || 'a' <= c <= 'f' || 'A' <= c <= 'F'
  }

  predicate AllHex(s: string) { forall c :: c in s ==> IsHexDigit(c) }

  /** The pattern `[0-9a-fA-F]{64}`, matched in full. */
  predicate IsHash(s: string) { |s| == 64 && AllHex(s) }

  function HexValue(c: char): nat
    requires IsHexDigit(c)
    ensures HexValue(c) < 16
  {
    if c <= '9' then c as int - '0' as int
    else if c <= 'F' then c as int - 'A' as int + 10
    else c as int - 'a' as int + 10
  }

  function HexChar(n: nat): char
    requires n < 16
  {
    if n < 10 then '0' + n as char else 'a' + (n - 10) as char
  }

  /** ASCII lower-casing: all that `lower` does to a hash, a name or an address. */
  function LowerChar(c: char): char {
    if 'A' <= c <= 'Z' then (c as int - 'A' as int + 'a' as int) as char else c
  }

  function Lower(s: string): (r: string)
    ensures |r| == |s|
    ensures forall i :: 0 <= i < |s| ==> r[i] == LowerChar(s[i])
  {
    seq(|s|, i requires 0 <= i < |s| => LowerChar(s[i]))
  }

  lemma LowerIdempotent(s: string)
    ensures Lower(Lower(s)) == Lower(s)
  {
  }

  // ------------------------------------------------------------- trimming

  /** The white space of ASCII. */
  predicate IsSpace(c: char) {
    c == ' ' || '\t' <= c <= '\r'
  }

  /** The spaces and line ends beyond ASCII that Python and JavaScript both take for white space. */
  predicate IsWideSpace(c: char) {
    || c == '\U{A0}' || c == '\U{1680}' || '\U{2000}' <= c <= '\U{200A}'
    || c == '\U{2028}' || c == '\U{2029}' || c == '\U{202F}' || c == '\U{205F}' || c == '\U{3000}'
  }

  /** What Python's `strip` removes; the four separators and NEL are white space to it alone. */
  predicate IsStripped(c: char) {
    IsSpace(c) || IsWideSpace(c) || '\U{1C}' <= c <= '\U{1F}' || c == '\U{85}'
  }

  /** What JavaScript's `trim` removes; the byte order mark is white space to it alone. */
  predicate IsTrimmed(c: char) {
    IsSpace(c) || IsWideSpace(c) || c == '\U{FEFF}'
  }

  function TrimLeft(blank: char -> bool, s: string): string {
    if s != "" && blank(s[0]) then TrimLeft(blank, s[1..]) else s
  }

  function TrimRight(blank: char -> bool, s: string): string {
    if s != "" && blank(s[|s| - 1]) then TrimRight(blank, s[..|s| - 1]) else s
  }

  /** `s.strip()` in Python. */
  function Strip(s: string): string {
    TrimRight(IsStripped, TrimLeft(IsStripped, s))
  }

  /** `s.trim()` in JavaScript. */
  function Trim(s: string): string {
    TrimRight(IsTrimmed, TrimLeft(IsTrimmed, s))
  }

  lemma TrimNothing(s: string)
    ensures (forall c :: c in s ==> !IsTrimmed(c)) ==> Trim(s) == s
    ensures (forall c :: c in s ==> !IsStripped(c)) ==> Strip(s) == s
  {
  }

  lemma {:induction false} TrimRightEnds(blank: char -> bool, s: string)
    ensures TrimRight(blank, s) <= s
    ensures var r := TrimRight(blank, s); r == "" || !blank(r[|r| - 1])
  {
    if s != "" && blank(s[|s| - 1]) {
      TrimRightEnds(blank, s[..|s| - 1]);
    }
  }

  lemma {:induction false} TrimLeftStarts(blank: char -> bool, s: string)
    ensures TrimLeft(blank, s) == "" || !blank(TrimLeft(blank, s)[0])
  {
    if s != "" && blank(s[0]) {
      TrimLeftStarts(blank, s[1..]);
    }
  }

  lemma TrimIdempotent(s: string)
    ensures Trim(Trim(s)) == Trim(s)
  {
    TrimLeftStarts(IsTrimmed, s);
    TrimRightEnds(IsTrimmed, TrimLeft(IsTrimmed, s));
  }

  // ------------------------------------------------------------- lines

  function Join(lines: seq<string>): string
    requires lines != []
  {
    if |lines| == 1 then lines[0] else lines[0] + "\n" + Join(lines[1..])
  }

  function SplitLines(s: string): seq<string>
    ensures SplitLines(s) != []
  {
    if s == "" then [""]
    else if s[0] == '\n' then [""] + SplitLines(s[1..])
    else
      var rest := SplitLines(s[1..]);
      [[s[0]] + rest[0]] + rest[1..]
  }

  lemma {:induction false} SplitLine(line: string, rest: string)
    requires '\n' !in line
    ensures SplitLines(line) == [line]
    ensures SplitLines(line + "\n" + rest) == [line] + SplitLines(rest)
  {
    if line == "" {
      assert line + "\n" + rest == "\n" + rest;
    } else {
      SplitLine(line[1..], rest);
      assert (line + "\n" + rest)[1..] == line[1..] + "\n" + rest;
      assert [line[0]] + line[1..] == line;
    }
  }

  /** Splitting undoes joining when no line contains a line break. */
  lemma {:induction false} SplitJoin(lines: seq<string>)
    requires lines != [] && forall line :: line in lines ==> '\n' !in line
    ensures SplitLines(Join(lines)) == lines
  {
    if |lines| == 1 {
      SplitLine(lines[0], "");
    } else {
      SplitJoin(lines[1..]);
      SplitLine(lines[0], Join(lines[1..]));
    }
  }
}
