/**
 The canonical JSON text behind both commitments: keys in code point order, no
 spaces, non-ASCII left as it is. A parser written independently of the printer
 recovers every value from its text.
 */
module CanonicalJson {
  import opened Wrappers
  import opened Text

  datatype Json =
    | Null
    | Bool(b: bool)
    | Number(n: int)
    | String(s: string)
    | Array(items: seq<Json>)
    | Object(fields: map<string, Json>)

  // ------------------------------------------------------------- key order

  /** Code point order, as `sort_keys` compares. */
  predicate Before(a: string, b: string) {
    b != "" && (a == "" || a[0] < b[0] || (a[0] == b[0] && Before(a[1..], b[1..])))
  }

  ghost predicate IsFirst(keys: set<string>, k: string) {
    k in keys && forall x :: x in keys ==> x == k || Before(k, x)
  }

  lemma {:induction false} BeforeTotal(a: string, b: string)
    ensures a == b || Before(a, b) || Before(b, a)
  {
    if a != "" && b != "" && a[0] == b[0] {
      BeforeTotal(a[1..], b[1..]);
      assert a == [a[0]] + a[1..] && b == [b[0]] + b[1..];
    }
  }

  lemma {:induction false} BeforeTransitive(a: string, b: string, c: string)
    requires Before(a, b) && Before(b, c)
    ensures Before(a, c)
  {
    if a != "" && a[0] == b[0] == c[0] {
      BeforeTransitive(a[1..], b[1..], c[1..]);
    }
  }

  lemma {:induction false} FirstExists(keys: set<string>)
    requires keys != {}
    ensures exists k :: IsFirst(keys, k)
    decreases |keys|
  {
    var j :| j in keys;
    if keys == {j} {
      assert IsFirst(keys, j);
    } else {
      FirstExists(keys - {j});
      var k :| IsFirst(keys - {j}, k);
      BeforeTotal(j, k);
      if Before(j, k) {
        forall x | x in keys ensures x == j || Before(j, x) {
          if x != j && x != k { BeforeTransitive(j, k, x); }
        }
        assert IsFirst(keys, j);
      } else {
        assert IsFirst(keys, k);
      }
    }
  }

  ghost function FirstKey(keys: set<string>): (k: string)
    requires keys != {}
    ensures k in keys
  {
    FirstExists(keys);
    var k :| IsFirst(keys, k);
    k
  }

  lemma FirstKeyIsFirst(keys: set<string>)
    requires keys != {}
    ensures IsFirst(keys, FirstKey(keys))
  {
    FirstExists(keys);
  }

  // ------------------------------------------------------------- the printer

  /** One character inside a string, with the escapes of section 7 of RFC 8259. */
  function Escape(c: char): string {
    if c == '"' then "\\\""
    else if c == '\\' then "\\\\"
    else if c == '\n' then "\\n"
    else if c == '\r' then "\\r"
    else if c == '\t' then "\\t"
    else if c == '\U{8}' then "\\b"
    else if c == '\U{C}' then "\\f"
    else if c < ' ' then "\\u00" + [HexChar(c as int / 16), HexChar(c as int % 16)]
    else [c]
  }

  function Escaped(s: string): string {
    if s == "" then "" else Escape(s[0]) + Escaped(s[1..])
  }

  function Quoted(s: string): string {
    "\"" + Escaped(s) + "\""
  }

  function PrintInt(n: int): string {
    if n < 0 then "-" + Decimal(-n) else Decimal(n)
  }

  ghost function Print(v: Json): string
    decreases v, 1, 0
  {
    match v
    case Null => "null"
    case Bool(b) => if b then "true" else "false"
    case Number(n) => PrintInt(n)
    case String(s) => Quoted(s)
    case Array(items) => "[" + PrintItems(v, 0) + "]"
    case Object(fields) => "{" + PrintFields(v, fields.Keys) + "}"
  }

  /** The items of an array from index `k` on, with commas between them. */
  ghost function PrintItems(v: Json, k: nat): string
    requires v.Array? && k <= |v.items|
    decreases v, 0, |v.items| - k
  {
    if k == |v.items| then ""
    else (if k == 0 then "" else ",") + Print(v.items[k]) + PrintItems(v, k + 1)
  }

  /** The fields of an object under the keys still to print, smallest key first. */
  ghost function PrintFields(v: Json, keys: set<string>): string
    requires v.Object? && keys <= v.fields.Keys
    decreases v, 0, |keys|
  {
    if keys == {} then ""
    else
      var k := FirstKey(keys);
      (if keys == v.fields.Keys then "" else ",")
      + Quoted(k) + ":" + Print(v.fields[k]) + PrintFields(v, keys - {k})
  }

  // ------------------------------------------------------------- keys in order

  predicate Ascending(order: seq<string>) {
    forall i, j :: 0 <= i < j < |order| ==> Before(order[i], order[j])
  }

  /** `order` lists these keys and no other. */
  ghost predicate Lists(order: seq<string>, keys: set<string>) {
    forall k :: k in order <==> k in keys
  }

  ghost function Field(v: Json, k: string): string
    requires v.Object? && k in v.fields
  {
    Quoted(k) + ":" + Print(v.fields[k])
  }

  /** The fields in a given order, with commas between them. */
  ghost function Joined(v: Json, order: seq<string>): string
    requires v.Object? && forall k :: k in order ==> k in v.fields
  {
    if order == [] then ""
    else Field(v, order[0]) + (if |order| == 1 then "" else ",") + Joined(v, order[1..])
  }

  lemma {:induction false} BeforeIsStrict(a: string, b: string)
    requires Before(a, b)
    ensures a != b && !Before(b, a)
  {
    if a != "" && a[0] == b[0] {
      BeforeIsStrict(a[1..], b[1..]);
    }
  }

  /** In an ascending list the first key comes first, and not again. */
  lemma HeadIsFirst(order: seq<string>, keys: set<string>)
    requires order != [] && Ascending(order) && Lists(order, keys)
    ensures keys != {} && FirstKey(keys) == order[0]
    ensures Ascending(order[1..]) && Lists(order[1..], keys - {order[0]})
  {
    assert order[0] in keys;
    FirstKeyIsFirst(keys);
    var k := FirstKey(keys);
    if k != order[0] {
      var i :| 0 <= i < |order| && order[i] == k;
      BeforeIsStrict(order[0], k);
    }
    forall x | x in order[1..] ensures x != order[0] {
      var i :| 1 <= i < |order| && order[i] == x;
      BeforeIsStrict(order[0], x);
    }
    assert order == [order[0]] + order[1..];
  }

  lemma {:induction false} FieldsInOrder(v: Json, keys: set<string>, order: seq<string>)
    requires v.Object? && keys <= v.fields.Keys && Ascending(order) && Lists(order, keys)
    ensures PrintFields(v, keys) == (if keys == {} || keys == v.fields.Keys then "" else ",") + Joined(v, order)
    decreases |order|
  {
    hide Before, Field, Ascending;
    if order == [] {
      assert keys == {};
    } else {
      HeadIsFirst(order, keys);
      var k, rest := order[0], keys - {order[0]};
      FieldsInOrder(v, rest, order[1..]);
      EmptyTogether(order[1..], rest);
      PrintFieldsOnce(v, keys);
      hide PrintFields, FirstKey;
      Reassociate(if keys == v.fields.Keys then "" else ",", Field(v, k), if rest == {} then "" else ",",
                  Joined(v, order[1..]));
    }
  }

  lemma PrintFieldsOnce(v: Json, keys: set<string>)
    requires v.Object? && keys != {} && keys <= v.fields.Keys
    ensures var k := FirstKey(keys);
            PrintFields(v, keys)
            == (if keys == v.fields.Keys then "" else ",") + Field(v, k) + PrintFields(v, keys - {k})
  {
    hide FirstKey, Quoted, Print;
    var sep := if keys == v.fields.Keys then "" else ",";
    var key, value := Quoted(FirstKey(keys)), Print(v.fields[FirstKey(keys)]);
    assert sep + key + ":" + value == sep + (key + ":" + value);
  }

  lemma EmptyTogether(order: seq<string>, keys: set<string>)
    requires Lists(order, keys)
    ensures order == [] <==> keys == {}
  {
    if order != [] { assert order[0] in keys; }
  }

  lemma Reassociate(sep: string, field: string, comma: string, more: string)
    ensures sep + field + (comma + more) == sep + (field + comma + more)
  {
  }

  /**
   An object is printed field by field in ascending code point order of its keys: whatever
   ascending list of exactly its keys is given, that list is the order of the text.
   */
  lemma PrintsInKeyOrder(v: Json, order: seq<string>)
    requires v.Object? && Ascending(order) && Lists(order, v.fields.Keys)
    ensures Print(v) == "{" + Joined(v, order) + "}"
  {
    FieldsInOrder(v, v.fields.Keys, order);
  }

  /** There always is one. */
  lemma {:induction false} KeysHaveOrder(keys: set<string>) returns (order: seq<string>)
    ensures Ascending(order) && Lists(order, keys)
    decreases |keys|
  {
    if keys == {} {
      order := [];
    } else {
      var k := FirstKey(keys);
      FirstKeyIsFirst(keys);
      var rest := KeysHaveOrder(keys - {k});
      order := [k] + rest;
      forall i, j | 0 <= i < j < |order| ensures Before(order[i], order[j]) {
        assert order[j] == rest[j - 1] && rest[j - 1] in rest;
      }
    }
  }

  // ------------------------------------------------------------- the parser

  datatype Parsed<T> = Fail | Got(value: T, rest: string)

  function ParseEscape(s: string): Parsed<char>
    ensures ParseEscape(s).Got? ==> |ParseEscape(s).rest| < |s|
  {
    if s == "" then Fail
    else if s[0] == '"' then Got('"', s[1..])
    else if s[0] == '\\' then Got('\\', s[1..])
    else if s[0] == 'n' then Got('\n', s[1..])
    else if s[0] == 'r' then Got('\r', s[1..])
    else if s[0] == 't' then Got('\t', s[1..])
    else if s[0] == 'b' then Got('\U{8}', s[1..])
    else if s[0] == 'f' then Got('\U{C}', s[1..])
    else if |s| >= 5 && s[0] == 'u' && s[1] == '0' && s[2] == '0' && IsHexDigit(s[3]) && IsHexDigit(s[4]) then
      Got((16 * HexValue(s[3]) + HexValue(s[4])) as char, s[5..])
    else Fail
  }

  /** The characters of a string up to its closing quote. */
  function ParseChars(s: string): Parsed<string>
    ensures ParseChars(s).Got? ==> |ParseChars(s).rest| < |s|
    decreases |s|
  {
    if s == "" then Fail
    else if s[0] == '"' then Got("", s[1..])
    else
      var one := if s[0] == '\\' then ParseEscape(s[1..]) else Got(s[0], s[1..]);
      if one.Fail? then Fail
      else
        var more := ParseChars(one.rest);
        if more.Fail? then Fail else Got([one.value] + more.value, more.rest)
  }

  function TakeDigits(s: string): (r: string)
    ensures AllDigits(r) && |r| <= |s|
  {
    if s == "" || !IsDigit(s[0]) then "" else [s[0]] + TakeDigits(s[1..])
  }

  function ParseNumber(s: string): Parsed<Json>
    ensures ParseNumber(s).Got? ==> |ParseNumber(s).rest| < |s|
  {
    var digits := TakeDigits(s);
    if digits == "" then Fail else Got(Number(NatOf(digits)), s[|digits|..])
  }

  function Literal(s: string, word: string, v: Json): Parsed<Json>
    requires word != ""
    ensures Literal(s, word, v).Got? ==> |Literal(s, word, v).rest| < |s|
  {
    if word <= s then Got(v, s[|word|..]) else Fail
  }

  function ParseValue(s: string): Parsed<Json>
    ensures ParseValue(s).Got? ==> |ParseValue(s).rest| < |s|
    decreases |s|, 0
  {
    if s == "" then Fail
    else if s[0] == '"' then
      var chars := ParseChars(s[1..]);
      if chars.Fail? then Fail else Got(String(chars.value), chars.rest)
    else if s[0] == '[' then
      var items := ParseItems(s[1..], true);
      if items.Fail? then Fail else Got(Array(items.value), items.rest)
    else if s[0] == '{' then
      var fields := ParseFields(s[1..], true);
      if fields.Fail? then Fail else Got(Object(fields.value), fields.rest)
    else if s[0] == '-' then
      var n := ParseNumber(s[1..]);
      if n.Fail? || !n.value.Number? then Fail else Got(Number(-n.value.n), n.rest)
    else if IsDigit(s[0]) then ParseNumber(s)
    else if s[0] == 'n' then Literal(s, "null", Null)
    else if s[0] == 't' then Literal(s, "true", Bool(true))
    else Literal(s, "false", Bool(false))
  }

  /** The rest of an array up to its bracket; `first` until an item was read. */
  function ParseItems(s: string, first: bool): Parsed<seq<Json>>
    ensures ParseItems(s, first).Got? ==> |ParseItems(s, first).rest| < |s|
    decreases |s|, 1
  {
    if s == "" then Fail
    else if s[0] == ']' then Got([], s[1..])
    else if !first && s[0] != ',' then Fail
    else
      var item := ParseValue(if first then s else s[1..]);
      if item.Fail? then Fail
      else
        var more := ParseItems(item.rest, false);
        if more.Fail? then Fail else Got([item.value] + more.value, more.rest)
  }

  /** The rest of an object up to its brace. */
  function ParseFields(s: string, first: bool): Parsed<map<string, Json>>
    ensures ParseFields(s, first).Got? ==> |ParseFields(s, first).rest| < |s|
    decreases |s|, 1
  {
    if s == "" then Fail
    else if s[0] == '}' then Got(map[], s[1..])
    else if !first && s[0] != ',' then Fail
    else
      var text := if first then s else s[1..];
      if text == "" || text[0] != '"' then Fail
      else
        var key := ParseChars(text[1..]);
        if key.Fail? || key.rest == "" || key.rest[0] != ':' then Fail
        else
          var value := ParseValue(key.rest[1..]);
          if value.Fail? then Fail
          else
            var more := ParseFields(value.rest, false);
            if more.Fail? then Fail else Got(map[key.value := value.value] + more.value, more.rest)
  }

  // ------------------------------------------------------------- round trip

  lemma EscapeRoundTrip(c: char, rest: string)
    ensures var one := if Escape(c)[0] == '\\' then ParseEscape(Escape(c)[1..] + rest) else Got(Escape(c)[0], rest);
            one == Got(c, rest)
    ensures Escape(c)[0] != '"'
  {
    if c < ' ' && |Escape(c)| == 6 {
      var n := c as int;
      assert Escape(c)[1..] + rest == ['u', '0', '0', HexChar(n / 16), HexChar(n % 16)] + rest;
      assert HexValue(HexChar(n / 16)) == n / 16 && HexValue(HexChar(n % 16)) == n % 16;
    } else if |Escape(c)| == 2 {
      assert Escape(c)[1..] + rest == [Escape(c)[1]] + rest;
    }
  }

  /** One more character in front. */
  lemma CharStep(c: char, tail: string, chars: string, rest: string)
    requires ParseChars(tail) == Got(chars, rest)
    ensures ParseChars(Escape(c) + tail) == Got([c] + chars, rest)
  {
    EscapeRoundTrip(c, tail);
    assert Escape(c) != "" && (Escape(c)[0] != '\\' ==> |Escape(c)| == 1);
    hide ParseEscape, Escape;
    var text := Escape(c) + tail;
    assert text[0] == Escape(c)[0] && text[1..] == Escape(c)[1..] + tail;
    if Escape(c)[0] != '\\' {
      assert text[1..] == tail;
    }
  }

  lemma ClosingQuote(rest: string)
    ensures ParseChars("" + "\"" + rest) == Got("", rest)
  {
    assert "" + "\"" + rest == "\"" + rest;
  }

  lemma GroupLast(a: string, b: string, c: string, d: string)
    ensures a + b + c + d == a + (b + c + d)
  {
  }

  lemma {:induction false} CharsRoundTrip(s: string, rest: string)
    ensures ParseChars(Escaped(s) + "\"" + rest) == Got(s, rest)
  {
    hide ParseChars, Escape;
    if s == "" {
      ClosingQuote(rest);
    } else {
      CharsRoundTrip(s[1..], rest);
      CharStep(s[0], Escaped(s[1..]) + "\"" + rest, s[1..], rest);
      GroupLast(Escape(s[0]), Escaped(s[1..]), "\"", rest);
      assert [s[0]] + s[1..] == s;
    }
  }

  /** Text after which a number has ended. */
  predicate Ends(rest: string) {
    rest == "" || !IsDigit(rest[0])
  }

  lemma {:induction false} TakeDigitsOf(digits: string, rest: string)
    requires AllDigits(digits) && Ends(rest)
    ensures TakeDigits(digits + rest) == digits
  {
    if digits == "" {
      assert digits + rest == rest;
    } else {
      assert (digits + rest)[1..] == digits[1..] + rest;
      TakeDigitsOf(digits[1..], rest);
    }
  }

  lemma NumberRoundTrip(n: nat, rest: string)
    requires Ends(rest)
    ensures ParseNumber(Decimal(n) + rest) == Got(Number(n), rest)
    ensures Decimal(n) != "" && IsDigit(Decimal(n)[0])
  {
    DecimalRoundTrip(n);
    TakeDigitsOf(Decimal(n), rest);
  }

  lemma NegativeStep(digits: string, n: int, rest: string)
    requires ParseNumber(digits) == Got(Number(n), rest)
    ensures ParseValue("-" + digits) == Got(Number(-n), rest)
  {
    assert ("-" + digits)[1..] == digits;
  }

  lemma NegativeRoundTrip(n: nat, rest: string)
    requires Ends(rest)
    ensures ParseValue("-" + Decimal(n) + rest) == Got(Number(-(n as int)), rest)
  {
    hide ParseValue, Decimal, ParseNumber;
    NumberRoundTrip(n, rest);
    NegativeStep(Decimal(n) + rest, n, rest);
    assert "-" + Decimal(n) + rest == "-" + (Decimal(n) + rest);
  }

  lemma NatStep(digits: string, n: int, rest: string)
    requires digits != "" && IsDigit(digits[0]) && ParseNumber(digits) == Got(Number(n), rest)
    ensures ParseValue(digits) == Got(Number(n), rest)
  {
    hide ParseNumber;
  }

  lemma NatRoundTrip(n: nat, rest: string)
    requires Ends(rest)
    ensures ParseValue(Decimal(n) + rest) == Got(Number(n), rest)
  {
    hide ParseValue, Decimal, ParseNumber;
    NumberRoundTrip(n, rest);
    assert (Decimal(n) + rest)[0] == Decimal(n)[0];
    NatStep(Decimal(n) + rest, n, rest);
  }

  lemma IntRoundTrip(n: int, rest: string)
    requires Ends(rest)
    ensures ParseValue(PrintInt(n) + rest) == Got(Number(n), rest)
    ensures PrintInt(n) != "" && PrintInt(n)[0] != ']'
  {
    hide ParseValue, Decimal;
    if n < 0 {
      NegativeRoundTrip(-n, rest);
    } else {
      NumberRoundTrip(n, rest);
      NatRoundTrip(n, rest);
    }
  }

  lemma WordStep(rest: string)
    ensures ParseValue("null" + rest) == Got(Null, rest)
    ensures ParseValue("true" + rest) == Got(Bool(true), rest)
    ensures ParseValue("false" + rest) == Got(Bool(false), rest)
  {
    assert ("null" + rest)[4..] == rest;
    assert ("true" + rest)[4..] == rest;
    assert ("false" + rest)[5..] == rest;
  }

  lemma StringStep(s: string, rest: string)
    ensures ParseValue(Quoted(s) + rest) == Got(String(s), rest)
  {
    CharsRoundTrip(s, rest);
    assert Quoted(s) + rest == "\"" + (Escaped(s) + "\"" + rest);
    assert (Quoted(s) + rest)[1..] == Escaped(s) + "\"" + rest;
  }

  lemma ArrayStep(body: string, items: seq<Json>, rest: string)
    requires ParseItems(body, true) == Got(items, rest)
    ensures ParseValue("[" + body) == Got(Array(items), rest)
  {
    assert ("[" + body)[1..] == body;
  }

  lemma ObjectStep(body: string, fields: map<string, Json>, rest: string)
    requires ParseFields(body, true) == Got(fields, rest)
    ensures ParseValue("{" + body) == Got(Object(fields), rest)
  {
    assert ("{" + body)[1..] == body;
  }

  lemma ItemStep(body: string, first: bool, item: Json, tail: string, items: seq<Json>, rest: string)
    requires body != "" && body[0] != ']'
    requires ParseValue(body) == Got(item, tail)
    requires ParseItems(tail, false) == Got(items, rest)
    ensures ParseItems((if first then "" else ",") + body, first) == Got([item] + items, rest)
  {
    if first {
      assert "" + body == body;
    } else {
      assert ("," + body)[1..] == body;
    }
  }

  lemma FieldStep(first: bool, k: string, text: string, value: Json, tail: string,
                  fields: map<string, Json>, rest: string)
    requires ParseValue(text) == Got(value, tail)
    requires ParseFields(tail, false) == Got(fields, rest)
    ensures ParseFields((if first then "" else ",") + (Quoted(k) + ":" + text), first)
         == Got(map[k := value] + fields, rest)
  {
    var body := Quoted(k) + ":" + text;
    assert body[1..] == Escaped(k) + "\"" + (":" + text);
    CharsRoundTrip(k, ":" + text);
    assert (":" + text)[1..] == text;
    if first {
      assert "" + body == body;
    } else {
      assert ("," + body)[1..] == body;
    }
  }

  lemma {:induction false} PrintStarts(v: Json)
    ensures Print(v) != "" && Print(v)[0] != ']'
  {
    if v.Number? {
      IntRoundTrip(v.n, "");
    }
  }

  lemma ArrayText(v: Json, rest: string)
    requires v.Array?
    ensures Print(v) + rest == "[" + (PrintItems(v, 0) + "]" + rest)
  {
  }

  lemma ObjectText(v: Json, rest: string)
    requires v.Object?
    ensures Print(v) + rest == "{" + (PrintFields(v, v.fields.Keys) + "}" + rest)
  {
  }

  /** What follows item `k` inside its array. */
  ghost function AfterItem(v: Json, k: nat, rest: string): string
    requires v.Array? && k < |v.items|
  {
    PrintItems(v, k + 1) + "]" + rest
  }

  lemma RegroupItem(sep: string, item: string, more: string, rest: string)
    ensures sep + item + more + "]" + rest == sep + (item + (more + "]" + rest))
  {
  }

  lemma ItemsText(v: Json, k: nat, rest: string)
    requires v.Array? && k < |v.items|
    ensures PrintItems(v, k) + "]" + rest
         == (if k == 0 then "" else ",") + (Print(v.items[k]) + AfterItem(v, k, rest))
    ensures Ends(AfterItem(v, k, rest))
  {
    var sep := if k == 0 then "" else ",";
    assert PrintItems(v, k) == sep + Print(v.items[k]) + PrintItems(v, k + 1);
    RegroupItem(sep, Print(v.items[k]), PrintItems(v, k + 1), rest);
    assert AfterItem(v, k, rest)[0] == if k + 1 == |v.items| then ']' else ',';
  }

  ghost function AfterField(v: Json, keys: set<string>, rest: string): string
    requires v.Object? && keys != {} && keys <= v.fields.Keys
  {
    PrintFields(v, keys - {FirstKey(keys)}) + "}" + rest
  }

  lemma Regroup(sep: string, key: string, value: string, more: string, rest: string)
    ensures sep + key + ":" + value + more + "}" + rest == sep + (key + ":" + (value + (more + "}" + rest)))
  {
  }

  lemma FieldsText(v: Json, keys: set<string>, rest: string)
    requires v.Object? && keys != {} && keys <= v.fields.Keys
    ensures var k := FirstKey(keys);
            PrintFields(v, keys) + "}" + rest
            == (if keys == v.fields.Keys then "" else ",")
               + (Quoted(k) + ":" + (Print(v.fields[k]) + AfterField(v, keys, rest)))
  {
    var k := FirstKey(keys);
    Regroup(if keys == v.fields.Keys then "" else ",", Quoted(k), Print(v.fields[k]),
            PrintFields(v, keys - {k}), rest);
  }

  lemma AfterFieldEnds(v: Json, keys: set<string>, rest: string)
    requires v.Object? && keys != {} && keys <= v.fields.Keys
    ensures Ends(AfterField(v, keys, rest))
  {
    var left := keys - {FirstKey(keys)};
    if left != {} {
      FieldsText(v, left, rest);
      assert left != v.fields.Keys;
    }
  }

  function Restrict(fields: map<string, Json>, keys: set<string>): map<string, Json>
    requires keys <= fields.Keys
  {
    map k | k in keys :: fields[k]
  }

  lemma EmptyStep(rest: string, first: bool)
    ensures ParseItems("" + "]" + rest, first) == Got([], rest)
    ensures ParseFields("" + "}" + rest, first) == Got(map[], rest)
  {
    assert ("]" + rest)[1..] == rest && "" + "]" + rest == "]" + rest;
    assert ("}" + rest)[1..] == rest && "" + "}" + rest == "}" + rest;
  }

  /** Parsing a printed value gives the value back and stops where it ends. */
  lemma {:induction false} ValueRoundTrip(v: Json, rest: string)
    requires Ends(rest)
    ensures ParseValue(Print(v) + rest) == Got(v, rest)
    decreases v, 1, 0
  {
    match v
    case Null => WordStep(rest);
    case Bool(b) => WordStep(rest);
    case Number(n) => IntRoundTrip(n, rest);
    case String(s) => StringStep(s, rest);
    case Array(items) =>
      ItemsRoundTrip(v, 0, rest);
      ArrayStep(PrintItems(v, 0) + "]" + rest, items[0..], rest);
      ArrayText(v, rest);
      assert items[0..] == items;
    case Object(fields) =>
      FieldsRoundTrip(v, fields.Keys, rest);
      ObjectStep(PrintFields(v, fields.Keys) + "}" + rest, Restrict(fields, fields.Keys), rest);
      ObjectText(v, rest);
      assert Restrict(fields, fields.Keys) == fields;
  }

  lemma {:induction false} ItemsRoundTrip(v: Json, k: nat, rest: string)
    requires v.Array? && k <= |v.items|
    ensures ParseItems(PrintItems(v, k) + "]" + rest, k == 0) == Got(v.items[k..], rest)
    decreases v, 0, |v.items| - k
  {
    if k == |v.items| {
      EmptyStep(rest, k == 0);
      assert PrintItems(v, k) == "" && v.items[k..] == [];
    } else {
      ItemsText(v, k, rest);
      PrintStarts(v.items[k]);
      ValueRoundTrip(v.items[k], AfterItem(v, k, rest));
      ItemsRoundTrip(v, k + 1, rest);
      ItemStep(Print(v.items[k]) + AfterItem(v, k, rest), k == 0, v.items[k], AfterItem(v, k, rest),
               v.items[k + 1..], rest);
      assert v.items[k..] == [v.items[k]] + v.items[k + 1..];
    }
  }

  lemma RestrictSplit(fields: map<string, Json>, keys: set<string>, k: string)
    requires keys <= fields.Keys && k in keys
    ensures keys - {k} != fields.Keys
    ensures Restrict(fields, keys) == map[k := fields[k]] + Restrict(fields, keys - {k})
  {
  }

  lemma {:induction false} FieldsRoundTrip(v: Json, keys: set<string>, rest: string)
    requires v.Object? && keys <= v.fields.Keys
    ensures ParseFields(PrintFields(v, keys) + "}" + rest, keys == v.fields.Keys)
         == Got(Restrict(v.fields, keys), rest)
    decreases v, 0, |keys|
  {
    if keys == {} {
      EmptyStep(rest, keys == v.fields.Keys);
      assert PrintFields(v, keys) == "" && Restrict(v.fields, keys) == map[];
    } else {
      var k := FirstKey(keys);
      var tail := AfterField(v, keys, rest);
      FieldsText(v, keys, rest);
      AfterFieldEnds(v, keys, rest);
      ValueRoundTrip(v.fields[k], tail);
      RestrictSplit(v.fields, keys, k);
      FieldsRoundTrip(v, keys - {k}, rest);
      FieldStep(keys == v.fields.Keys, k, Print(v.fields[k]) + tail, v.fields[k], tail,
                Restrict(v.fields, keys - {k}), rest);
    }
  }

  /** The text determines the value. */
  lemma PrintInjective(a: Json, b: Json)
    requires Print(a) == Print(b)
    ensures a == b
  {
    ValueRoundTrip(a, "");
    ValueRoundTrip(b, "");
    assert Print(a) + "" == Print(a) && Print(b) + "" == Print(b);
  }
}
