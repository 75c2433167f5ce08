/** The part of JSON (RFC 8259) that the proxy's messages use: a reader for whole texts, a printer
    for documents with a fixed layout, and the theorem that the reader undoes the printer. A text
    is a sequence of Unicode scalar values; numbers are 64-bit integers. */
module Json {
  import opened Wrappers

  datatype Value =
    | Null
    | Bool(b: bool)
    | Num(n: int)
    | Str(s: string)
    | Arr(items: seq<Value>)
    | Obj(fields: map<string, Value>)
  {
    /** `contains` of the JSON library: false on everything that is not an object. */
    predicate Has(key: string) {
      Obj? && key in fields
    }
  }

  datatype Parsed<+T> = Fail | Got(value: T, rest: string)

  // ----- Reader ---------------------------------------------------------------------------------

  predicate IsWs(c: char) {
    c == ' ' || c == '\t' || c == '\n' || c == '\r'
  }

  function SkipWs(s: string): (r: string)
    ensures |r| <= |s|
    ensures r == "" || !IsWs(r[0])
  {
    if s == "" || !IsWs(s[0]) then s else SkipWs(s[1..])
  }

  predicate IsDigit(c: char) {
    '0' <= c <= '9'
  }

  function DigitValue(c: char): (d: nat)
    requires IsDigit(c)
    ensures d < 10
  {
    c as int - '0' as int
  }

  function DigitRun(s: string): (k: nat)
    ensures k <= |s|
    ensures forall i :: 0 <= i < k ==> IsDigit(s[i])
    ensures k < |s| ==> !IsDigit(s[k])
  {
    if s == "" || !IsDigit(s[0]) then 0 else 1 + DigitRun(s[1..])
  }

  function DecimalValue(s: string): nat
    requires forall i :: 0 <= i < |s| ==> IsDigit(s[i])
  {
    if s == "" then 0
    else DecimalValue(s[..|s| - 1]) * 10 + DigitValue(s[|s| - 1])
  }

  /** The integers that the JSON library stores as integers. */
  predicate Fits64(n: int) {
    -0x8000_0000_0000_0000 <= n < 0x1_0000_0000_0000_0000
  }

  /** Section 6 without fraction and exponent. */
  function ParseNumber(s: string): (r: Parsed<Value>)
    ensures r.Got? ==> |r.rest| < |s|
  {
    if s != "" && s[0] == '-' then ParseDigits(s[1..], true) else ParseDigits(s, false)
  }

  function Signed(minus: bool, n: int): int {
    if minus then -n else n
  }

  function ParseDigits(s: string, minus: bool): (r: Parsed<Value>)
    ensures r.Got? ==> |r.rest| < |s|
  {
    var k := DigitRun(s);
    if k == 0 || (s[0] == '0' && k > 1) || (k < |s| && s[k] in {'.', 'e', 'E'}) then Fail
    else
      var v := Signed(minus, DecimalValue(s[..k]));
      if Fits64(v) then Got(Num(v), s[k..]) else Fail
  }

  function HexDigit(c: char): Option<nat> {
    if '0' <= c <= '9' then Some(c as int - '0' as int)
    else if 'a' <= c <= 'f' then Some(c as int - 'a' as int + 10)
    else if 'A' <= c <= 'F' then Some(c as int - 'A' as int + 10)
    else None
  }

  /** The four hexadecimal digits of a `\u` escape. */
  function Hex4(s: string): (r: Option<nat>)
    ensures r.Some? ==> |s| >= 4
  {
    if |s| < 4 then None
    else
      match (HexDigit(s[0]), HexDigit(s[1]), HexDigit(s[2]), HexDigit(s[3]))
      case (Some(a), Some(b), Some(c), Some(d)) => Some(((a * 16 + b) * 16 + c) * 16 + d)
      case _ => None
  }

  /** One escape sequence, read after its backslash. */
  function ParseEscape(s: string): (r: Parsed<char>)
    ensures r.Got? ==> |r.rest| < |s|
  {
    if s == "" then Fail
    else
      match s[0]
      case '"' => Got('"', s[1..])
      case '\\' => Got('\\', s[1..])
      case '/' => Got('/', s[1..])
      case 'b' => Got(8 as char, s[1..])
      case 'f' => Got(12 as char, s[1..])
      case 'n' => Got('\n', s[1..])
      case 'r' => Got('\r', s[1..])
      case 't' => Got('\t', s[1..])
      case 'u' => ParseUnicode(s[1..])
      case _ => Fail
  }

  function ParseUnicode(s: string): (r: Parsed<char>)
    ensures r.Got? ==> |r.rest| < |s|
  {
    match Hex4(s)
    case None => Fail
    case Some(hi) =>
      if hi < 0xD800 || 0xE000 <= hi < 0x10000 then Got(hi as char, s[4..])
      else if hi < 0xDC00 && |s| >= 6 && s[4] == '\\' && s[5] == 'u' then
        match Hex4(s[6..])
        case Some(lo) =>
          if 0xDC00 <= lo < 0xE000
          then Got((0x10000 + (hi - 0xD800) * 0x400 + (lo - 0xDC00)) as char, s[10..])
          else Fail
        case None => Fail
      else Fail
  }

  /** A string token (section 7), read after its opening quotation mark. */
  function ParseString(s: string): (r: Parsed<string>)
    ensures r.Got? ==> |r.rest| < |s|
  {
    if s == "" || s[0] < ' ' then Fail
    else if s[0] == '"' then Got("", s[1..])
    else
      var first := if s[0] == '\\' then ParseEscape(s[1..]) else Got(s[0], s[1..]);
      match first
      case Fail => Fail
      case Got(c, more) =>
        match ParseString(more)
        case Fail => Fail
        case Got(t, rest) => Got([c] + t, rest)
  }

  function ParseValue(s: string): (r: Parsed<Value>)
    ensures r.Got? ==> |r.rest| < |s|
    decreases |s|, 0
  {
    var t := SkipWs(s);
    if t == "" then Fail
    else if t[0] == '"' then
      match ParseString(t[1..])
      case Fail => Fail
      case Got(v, rest) => Got(Str(v), rest)
    else if t[0] == '{' then
      var u := SkipWs(t[1..]);
      if u != "" && u[0] == '}' then Got(Obj(map[]), u[1..]) else ParseMembers(t[1..], map[])
    else if t[0] == '[' then
      var u := SkipWs(t[1..]);
      if u != "" && u[0] == ']' then Got(Arr([]), u[1..]) else ParseItems(t[1..], [])
    else if t[0] in {'t', 'f', 'n'} then ParseLiteral(t)
    else ParseNumber(t)
  }

  function ParseLiteral(t: string): (r: Parsed<Value>)
    ensures r.Got? ==> |r.rest| < |t|
  {
    if "true" <= t then Got(Bool(true), t[4..])
    else if "false" <= t then Got(Bool(false), t[5..])
    else if "null" <= t then Got(Null, t[4..])
    else Fail
  }

  /** The members of an object up to its closing brace; a repeated name keeps its last value. */
  function ParseMembers(s: string, seen: map<string, Value>): (r: Parsed<Value>)
    ensures r.Got? ==> |r.rest| < |s|
    decreases |s|
  {
    var t := SkipWs(s);
    if t == "" || t[0] != '"' then Fail
    else
      match ParseString(t[1..])
      case Fail => Fail
      case Got(key, afterKey) =>
        var u := SkipWs(afterKey);
        if u == "" || u[0] != ':' then Fail
        else
          match ParseValue(u[1..])
          case Fail => Fail
          case Got(v, afterValue) =>
            var w := SkipWs(afterValue);
            if w == "" then Fail
            else if w[0] == ',' then ParseMembers(w[1..], seen[key := v])
            else if w[0] == '}' then Got(Obj(seen[key := v]), w[1..])
            else Fail
  }

  function ParseItems(s: string, seen: seq<Value>): (r: Parsed<Value>)
    ensures r.Got? ==> |r.rest| < |s|
    decreases |s|, 1
  {
    match ParseValue(s)
    case Fail => Fail
    case Got(v, afterValue) =>
      var w := SkipWs(afterValue);
      if w == "" then Fail
      else if w[0] == ',' then ParseItems(w[1..], seen + [v])
      else if w[0] == ']' then Got(Arr(seen + [v]), w[1..])
      else Fail
  }

  /** A whole text: one value with optional white space around it, and nothing else. */
  function Parse(text: string): Option<Value> {
    match ParseValue(text)
    case Fail => None
    case Got(v, rest) => if SkipWs(rest) == "" then Some(v) else None
  }

  // ----- Printer --------------------------------------------------------------------------------

  function Decimal(n: nat): (s: string)
    ensures |s| > 0 && forall i :: 0 <= i < |s| ==> IsDigit(s[i])
    ensures n > 0 ==> s[0] != '0'
  {
    if n < 10 then [(n + '0' as int) as char] else Decimal(n / 10) + [(n % 10 + '0' as int) as char]
  }

  /** `std::to_string` of an integer. */
  function ToString(n: int): string {
    if n < 0 then "-" + Decimal(-n) else Decimal(n)
  }

  /** A value together with the white space its printer puts before each member name and each
      member value. */
  datatype Doc =
    | DNull
    | DBool(b: bool)
    | DNum(n: int)
    | DStr(s: string)
    | DArr(items: seq<Doc>)
    | DObj(members: seq<Member>)

  datatype Member = Member(gap: string, key: string, space: string, value: Doc)

  function Print(d: Doc): string {
    match d
    case DNull => "null"
    case DBool(b) => if b then "true" else "false"
    case DNum(n) => ToString(n)
    case DStr(s) => "\"" + s + "\""
    case DArr(items) => "[" + PrintItems(items)
    case DObj(members) => "{" + PrintMembers(members)
  }

  /** The items separated by commas, and the closing bracket. */
  function PrintItems(ds: seq<Doc>): string {
    if ds == [] then "]"
    else
      Print(ds[0]) + (if |ds| == 1 then "]" else "," + PrintItems(ds[1..]))
  }

  /** The members separated by commas, and the closing brace. */
  function PrintMembers(ms: seq<Member>): string {
    if ms == [] then "}"
    else
      PrintMember(ms[0]) + (if |ms| == 1 then "}" else "," + PrintMembers(ms[1..]))
  }

  function PrintMember(m: Member): string {
    m.gap + "\"" + m.key + "\":" + m.space + Print(m.value)
  }

  function ValueOf(d: Doc): Value {
    match d
    case DNull => Null
    case DBool(b) => Bool(b)
    case DNum(n) => Num(n)
    case DStr(s) => Str(s)
    case DArr(items) => Arr(ValuesOf(items))
    case DObj(members) => Obj(FieldsOf(members, map[]))
  }

  function ValuesOf(ds: seq<Doc>): (vs: seq<Value>)
    ensures |vs| == |ds|
  {
    if ds == [] then [] else [ValueOf(ds[0])] + ValuesOf(ds[1..])
  }

  function FieldsOf(ms: seq<Member>, seen: map<string, Value>): map<string, Value> {
    if ms == [] then seen else FieldsOf(ms[1..], seen[ms[0].key := ValueOf(ms[0].value)])
  }

  /** No character that a string token would have to escape (section 7). */
  predicate Clean(s: string) {
    forall i :: 0 <= i < |s| ==> s[i] >= ' ' && s[i] != '"' && s[i] != '\\'
  }

  predicate Blank(s: string) {
    forall i :: 0 <= i < |s| ==> s[i] == ' '
  }

  predicate Printable(d: Doc) {
    match d
    case DNum(n) => Fits64(n)
    case DStr(s) => Clean(s)
    case DArr(items) => forall d :: d in items ==> Printable(d)
    case DObj(members) =>
      forall m :: m in members ==> PrintableMember(m)
    case _ => true
  }

  predicate PrintableMember(m: Member) {
    Blank(m.gap) && Clean(m.key) && Blank(m.space) && Printable(m.value)
  }

  // ----- The reader undoes the printer ----------------------------------------------------------

  /** What may follow a printed value inside a text: anything that cannot extend a number. */
  predicate Terminated(rest: string) {
    rest == "" || (!IsDigit(rest[0]) && rest[0] !in {'.', 'e', 'E'})
  }

  lemma {:induction false} SkipBlank(gap: string, rest: string)
    requires Blank(gap)
    ensures SkipWs(gap + rest) == SkipWs(rest)
  {
    if gap == "" {
      assert gap + rest == rest;
    } else {
      assert (gap + rest)[1..] == gap[1..] + rest;
      SkipBlank(gap[1..], rest);
    }
  }

  lemma {:induction false} DigitRunStops(digits: string, rest: string)
    requires forall i :: 0 <= i < |digits| ==> IsDigit(digits[i])
    requires rest == "" || !IsDigit(rest[0])
    ensures DigitRun(digits + rest) == |digits|
  {
    if digits == "" {
      assert digits + rest == rest;
    } else {
      assert (digits + rest)[1..] == digits[1..] + rest;
      DigitRunStops(digits[1..], rest);
    }
  }

  lemma {:induction false} DecimalRoundTrip(n: nat)
    ensures DecimalValue(Decimal(n)) == n
    ensures |Decimal(n)| > 1 ==> Decimal(n)[0] != '0'
  {
    if n < 10 {
      assert Decimal(n)[..0] == "";
    } else {
      DecimalRoundTrip(n / 10);
      assert Decimal(n)[..|Decimal(n)| - 1] == Decimal(n / 10);
    }
  }

  lemma DigitsRoundTrip(n: nat, minus: bool, rest: string)
    requires Fits64(Signed(minus, n)) && Terminated(rest)
    ensures ParseDigits(Decimal(n) + rest, minus) == Got(Num(Signed(minus, n)), rest)
  {
    var digits := Decimal(n);
    DecimalRoundTrip(n);
    DigitRunStops(digits, rest);
    assert (digits + rest)[..|digits|] == digits;
    assert (digits + rest)[|digits|..] == rest;
  }

  /** `std::to_string` and the number reader: every 64-bit integer survives. */
  lemma NumberRoundTrip(n: int, rest: string)
    requires Fits64(n) && Terminated(rest)
    ensures ParseValue(ToString(n) + rest) == Got(Num(n), rest)
  {
    var text := ToString(n) + rest;
    if n < 0 {
      SignedText(n, rest);
      DigitsRoundTrip(-n, true, rest);
      SignedDigits(text);
    } else {
      DigitsRoundTrip(n, false, rest);
      UnsignedDigits(text);
    }
    NumberIsValue(text);
  }

  lemma SignedText(n: int, rest: string)
    requires n < 0
    ensures var text := ToString(n) + rest; text[0] == '-' && text[1..] == Decimal(-n) + rest
  {
  }

  lemma SignedDigits(text: string)
    requires text != "" && text[0] == '-'
    ensures ParseNumber(text) == ParseDigits(text[1..], true)
  {
  }

  lemma UnsignedDigits(text: string)
    requires text != "" && IsDigit(text[0])
    ensures ParseNumber(text) == ParseDigits(text, false)
  {
  }

  lemma NumberIsValue(s: string)
    requires s != "" && (s[0] == '-' || IsDigit(s[0]))
    ensures ParseValue(s) == ParseNumber(s)
  {
    var c := s[0];
    assert !IsWs(c) && c != '"' && c != '{' && c != '[' && c !in {'t', 'f', 'n'};
    assert SkipWs(s) == s;
  }

  /** A string token gives back the text between its quotation marks exactly when that text needs
      no escape. */
  lemma StringTokenIff(s: string, rest: string)
    ensures ParseString(s + "\"" + rest) == Got(s, rest) <==> Clean(s)
  {
    if Clean(s) {
      CleanToken(s, rest);
    }
    var text := s + "\"" + rest;
    TokenLength(text);
    if ParseString(text) == Got(s, rest) {
      assert |text| == |s| + 1 + |rest|;
      assert text[..|s|] == s;
    }
  }

  lemma {:induction false} CleanToken(s: string, rest: string)
    requires Clean(s)
    ensures ParseString(s + "\"" + rest) == Got(s, rest)
  {
    var text := s + "\"" + rest;
    if s == "" {
      assert text[1..] == rest;
    } else {
      assert text[0] == s[0];
      assert text[1..] == s[1..] + "\"" + rest;
      CleanToken(s[1..], rest);
      assert [s[0]] + s[1..] == s;
    }
  }

  /** Every character of a token's value costs at least one character of text, and exactly one each
      only when nothing was escaped. */
  lemma {:induction false} TokenLength(text: string)
    ensures var r := ParseString(text);
      r.Got? ==>
        && |text| >= |r.value| + 1 + |r.rest|
        && (|text| == |r.value| + 1 + |r.rest| ==> r.value == text[..|r.value|] && Clean(r.value))
  {
    if text == "" || text[0] < ' ' || text[0] == '"' {
    } else if text[0] != '\\' {
      TokenLength(text[1..]);
    } else {
      var e := ParseEscape(text[1..]);
      if e.Got? {
        TokenLength(e.rest);
      }
    }
  }

  /** Reading a printed document gives back its value and leaves what follows it. */
  lemma {:induction false} DocRoundTrip(d: Doc, rest: string)
    requires Printable(d)
    requires d.DNum? ==> Terminated(rest)
    ensures ParseValue(Print(d) + rest) == Got(ValueOf(d), rest)
    decreases d, 2
  {
    match d
    case DNull => ConstantRoundTrip(d, rest);
    case DBool(_) => ConstantRoundTrip(d, rest);
    case DNum(n) => NumberRoundTrip(n, rest);
    case DStr(s) => TextRoundTrip(s, rest);
    case DArr(items) => ArrayRoundTrip(d, rest);
    case DObj(members) => ObjectRoundTrip(d, rest);
  }

  lemma {:induction false} ArrayRoundTrip(d: Doc, rest: string)
    requires d.DArr? && Printable(d)
    ensures ParseValue(Print(d) + rest) == Got(ValueOf(d), rest)
    decreases d, 1
  {
    var body := PrintItems(d.items) + rest;
    var text := "[" + body;
    assert Print(d) + rest == text;
    assert text[1..] == body;
    if d.items == [] {
      assert body == "]" + rest && body[1..] == rest;
    } else {
      ItemsStart(d.items, rest);
      ItemsRoundTrip(d.items, [], rest);
      ArrayIsItems(text);
      assert [] + ValuesOf(d.items) == ValuesOf(d.items);
    }
  }

  lemma ArrayIsItems(text: string)
    requires text != "" && text[0] == '['
    requires var u := SkipWs(text[1..]); u != "" && u[0] != ']'
    ensures ParseValue(text) == ParseItems(text[1..], [])
  {
  }

  /** What a printed value starts with. */
  predicate Starts(s: string) {
    s != "" && !IsWs(s[0]) && s[0] != ']'
  }

  lemma PrintStarts(d: Doc)
    ensures Starts(Print(d))
  {
    if d.DNum? {
      NumberStarts(d.n);
    }
  }

  lemma NumberStarts(n: int)
    ensures Starts(ToString(n))
  {
  }

  lemma ItemsStart(ds: seq<Doc>, rest: string)
    requires ds != []
    ensures var u := SkipWs(PrintItems(ds) + rest); u != "" && u[0] != ']'
  {
    PrintStarts(ds[0]);
    var text := PrintItems(ds) + rest;
    assert text[0] == Print(ds[0])[0];
    assert SkipWs(text) == text;
  }

  /** Reading one item, up to the comma or bracket that follows it. */
  lemma ItemStep(text: string, v: Value, after: string, seen: seq<Value>)
    requires ParseValue(text) == Got(v, after) && after != "" && after[0] in {',', ']'}
    ensures ParseItems(text, seen)
         == if after[0] == ',' then ParseItems(after[1..], seen + [v]) else Got(Arr(seen + [v]), after[1..])
  {
    assert SkipWs(after) == after;
  }

  lemma ValuesCons(ds: seq<Doc>, seen: seq<Value>)
    requires ds != []
    ensures seen + [ValueOf(ds[0])] + ValuesOf(ds[1..]) == seen + ValuesOf(ds)
    ensures |ds| == 1 ==> seen + [ValueOf(ds[0])] == seen + ValuesOf(ds)
  {
    Associates(seen, [ValueOf(ds[0])], ValuesOf(ds[1..]));
    if |ds| == 1 {
      EndsEmpty(seen + [ValueOf(ds[0])], ValuesOf(ds[1..]));
    }
  }

  lemma Associates<T>(a: seq<T>, b: seq<T>, c: seq<T>)
    ensures a + b + c == a + (b + c)
  {
  }

  lemma EndsEmpty<T>(a: seq<T>, b: seq<T>)
    requires b == []
    ensures a + b == a
  {
  }

  lemma ItemsText(ds: seq<Doc>, rest: string)
    requires ds != []
    ensures PrintItems(ds) + rest
         == Print(ds[0]) + (if |ds| == 1 then "]" + rest else "," + (PrintItems(ds[1..]) + rest))
  {
    if |ds| > 1 {
      ThreeTexts(Print(ds[0]), ",", PrintItems(ds[1..]), rest);
    }
  }

  lemma ThreeTexts(a: string, b: string, c: string, d: string)
    ensures a + (b + c) + d == a + (b + (c + d))
  {
  }

  lemma {:induction false} ItemsRoundTrip(ds: seq<Doc>, seen: seq<Value>, rest: string)
    requires ds != [] && Printable(DArr(ds))
    ensures ParseItems(PrintItems(ds) + rest, seen) == Got(Arr(seen + ValuesOf(ds)), rest)
    decreases ds, 1
  {
    var d := ds[0];
    assert d in ds;
    var after := if |ds| == 1 then "]" + rest else "," + (PrintItems(ds[1..]) + rest);
    ItemsText(ds, rest);
    DocRoundTrip(d, after);
    ItemStep(Print(d) + after, ValueOf(d), after, seen);
    if |ds| == 1 {
      assert after[1..] == rest;
      ValuesCons(ds, seen);
    } else {
      assert after[1..] == PrintItems(ds[1..]) + rest;
      assert forall k :: k in ds[1..] ==> k in ds;
      ItemsRoundTrip(ds[1..], seen + [ValueOf(d)], rest);
      ValuesCons(ds, seen);
    }
  }

  lemma ConstantRoundTrip(d: Doc, rest: string)
    requires d.DNull? || d.DBool?
    ensures ParseValue(Print(d) + rest) == Got(ValueOf(d), rest)
  {
    var text := Print(d) + rest;
    assert text[|Print(d)|..] == rest;
    assert text[0] in {'t', 'f', 'n'};
  }

  lemma TextRoundTrip(s: string, rest: string)
    requires Clean(s)
    ensures ParseValue("\"" + s + "\"" + rest) == Got(Str(s), rest)
  {
    var text := "\"" + s + "\"" + rest;
    assert text[1..] == s + "\"" + rest;
    CleanToken(s, rest);
  }

  lemma {:induction false} ObjectRoundTrip(d: Doc, rest: string)
    requires d.DObj? && Printable(d)
    ensures ParseValue(Print(d) + rest) == Got(ValueOf(d), rest)
    decreases d, 1
  {
    var body := PrintMembers(d.members) + rest;
    var text := "{" + body;
    assert Print(d) + rest == text;
    assert text[1..] == body;
    if d.members == [] {
      assert body == "}" + rest && body[1..] == rest;
    } else {
      assert PrintableMember(d.members[0]);
      MembersStart(d.members, rest);
      MembersRoundTrip(d.members, map[], rest);
      ObjectIsMembers(text);
    }
  }

  lemma ObjectIsMembers(text: string)
    requires text != "" && text[0] == '{'
    requires var u := SkipWs(text[1..]); u != "" && u[0] == '"'
    ensures ParseValue(text) == ParseMembers(text[1..], map[])
  {
  }

  lemma MembersStart(ms: seq<Member>, rest: string)
    requires ms != [] && Blank(ms[0].gap)
    ensures var t := SkipWs(PrintMembers(ms) + rest); t != "" && t[0] == '"'
  {
    var gap := ms[0].gap;
    var text := PrintMembers(ms) + rest;
    MemberPrefix(ms[0]);
    assert PrintMember(ms[0]) == text[..|PrintMember(ms[0])|];
    assert text == gap + text[|gap|..];
    SkipBlank(gap, text[|gap|..]);
  }

  lemma MemberPrefix(m: Member)
    ensures |PrintMember(m)| > |m.gap| && PrintMember(m)[..|m.gap|] == m.gap && PrintMember(m)[|m.gap|] == '"'
  {
  }

  /** A member name, up to the text of its value. */
  lemma KeyStep(m: Member, text: string)
    requires Blank(m.gap) && Clean(m.key)
    ensures var t := SkipWs(m.gap + "\"" + m.key + "\":" + text);
      && t != "" && t[0] == '"' && ParseString(t[1..]) == Got(m.key, ":" + text)
  {
    var t := "\"" + (m.key + "\"" + (":" + text));
    assert m.gap + "\"" + m.key + "\":" + text == m.gap + t;
    SkipBlank(m.gap, t);
    assert t[1..] == m.key + "\"" + (":" + text);
    StringTokenIff(m.key, ":" + text);
  }

  /** Reading one member, up to the comma or brace that follows its value. */
  lemma MemberStep(m: Member, after: string, seen: map<string, Value>)
    requires Blank(m.gap) && Clean(m.key) && Blank(m.space)
    requires after != "" && after[0] in {',', '}'}
    requires ParseValue(Print(m.value) + after) == Got(ValueOf(m.value), after)
    ensures ParseMembers(PrintMember(m) + after, seen) ==
      var now := seen[m.key := ValueOf(m.value)];
      if after[0] == ',' then ParseMembers(after[1..], now) else Got(Obj(now), after[1..])
  {
    var text := m.space + (Print(m.value) + after);
    assert PrintMember(m) + after == m.gap + "\"" + m.key + "\":" + text;
    KeyStep(m, text);
    assert (":" + text)[1..] == text;
    assert SkipWs(":" + text) == ":" + text;
    SpacedValue(m.space, Print(m.value) + after);
    assert SkipWs(after) == after;
  }

  lemma {:induction false} MembersRoundTrip(ms: seq<Member>, seen: map<string, Value>, rest: string)
    requires ms != []
    requires Printable(DObj(ms))
    ensures ParseMembers(PrintMembers(ms) + rest, seen) == Got(Obj(FieldsOf(ms, seen)), rest)
    decreases ms, 1
  {
    var m := ms[0];
    assert m in ms;
    var now := seen[m.key := ValueOf(m.value)];
    var after := if |ms| == 1 then "}" + rest else "," + (PrintMembers(ms[1..]) + rest);
    assert PrintMembers(ms) + rest == PrintMember(m) + after;
    DocRoundTrip(m.value, after);
    MemberStep(m, after, seen);
    if |ms| == 1 {
      assert FieldsOf(ms[1..], now) == now;
      assert after[1..] == rest;
    } else {
      assert after[1..] == PrintMembers(ms[1..]) + rest;
      assert forall k :: k in ms[1..] ==> k in ms;
      MembersRoundTrip(ms[1..], now, rest);
    }
  }

  lemma SpacedValue(space: string, text: string)
    requires Blank(space)
    ensures ParseValue(space + text) == ParseValue(text)
  {
    SkipBlank(space, text);
  }

  lemma PrintedDocParses(d: Doc)
    requires Printable(d)
    ensures Parse(Print(d)) == Some(ValueOf(d))
  {
    DocRoundTrip(d, "");
    assert Print(d) + "" == Print(d);
  }

  // ----- Members of a printed object ------------------------------------------------------------

  /** The last member with a given name decides its value. */
  lemma {:induction false} FieldAt(ms: seq<Member>, seen: map<string, Value>, i: nat)
    requires i < |ms|
    requires forall j :: i < j < |ms| ==> ms[j].key != ms[i].key
    ensures var f := FieldsOf(ms, seen); ms[i].key in f && f[ms[i].key] == ValueOf(ms[i].value)
  {
    var now := seen[ms[0].key := ValueOf(ms[0].value)];
    if i == 0 {
      FieldKept(ms[1..], now, ms[0].key);
    } else {
      FieldAt(ms[1..], now, i - 1);
    }
  }

  lemma {:induction false} FieldKept(ms: seq<Member>, seen: map<string, Value>, key: string)
    requires forall m :: m in ms ==> m.key != key
    ensures var f := FieldsOf(ms, seen);
      (key in f <==> key in seen) && (key in seen ==> f[key] == seen[key])
  {
    if ms != [] {
      FieldKept(ms[1..], seen[ms[0].key := ValueOf(ms[0].value)], key);
    }
  }

  // ----- A printed document is one line ---------------------------------------------------------

  predicate NoControl(s: string) {
    forall i :: 0 <= i < |s| ==> s[i] >= ' '
  }

  /** No character of a printed document is a control character, so none is a line feed or a
      carriage return. */
  lemma {:induction false} PrintedDocIsOneLine(d: Doc)
    requires Printable(d)
    ensures NoControl(Print(d))
    decreases d, 1
  {
    if d.DObj? {
      PrintedMembersAreOneLine(d.members);
    } else if d.DArr? {
      PrintedItemsAreOneLine(d.items);
    }
  }

  lemma {:induction false} PrintedItemsAreOneLine(ds: seq<Doc>)
    requires Printable(DArr(ds))
    ensures NoControl(PrintItems(ds))
    decreases ds, 0
  {
    if ds != [] {
      assert ds[0] in ds;
      PrintedDocIsOneLine(ds[0]);
      assert forall k :: k in ds[1..] ==> k in ds;
      PrintedItemsAreOneLine(ds[1..]);
    }
  }

  lemma {:induction false} PrintedMembersAreOneLine(ms: seq<Member>)
    requires Printable(DObj(ms))
    ensures NoControl(PrintMembers(ms))
    decreases ms, 0
  {
    if ms != [] {
      var m := ms[0];
      assert m in ms;
      PrintedDocIsOneLine(m.value);
      assert NoControl(PrintMember(m));
      assert forall k :: k in ms[1..] ==> k in ms;
      PrintedMembersAreOneLine(ms[1..]);
    }
  }
}
