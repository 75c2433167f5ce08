/** The JSON reader against the grammar of RFC 8259, read off the text: escapes and white space, numbers,
    and what may follow a value. */
module JsonText {
  import opened Wrappers
  import opened Json

  // ----- Strings (section 7) --------------------------------------------------------------------

  const LOWER_DIGITS := "0123456789abcdef"
  const UPPER_DIGITS := "0123456789ABCDEF"

  /** A hexadecimal digit in either case. */
  predicate Spells16(c: char, d: nat) {
    d < 16 && (c == LOWER_DIGITS[d] || c == UPPER_DIGITS[d])
  }

  lemma HexDigitIff(c: char, d: nat)
    ensures HexDigit(c) == Some(d) <==> Spells16(c, d)
  {
  }

  /** Four digits read as the number they spell, and nothing else does. */
  lemma Hex4Means(s: string, a: nat, b: nat, c: nat, d: nat)
    requires |s| >= 4
    ensures Spells16(s[0], a) && Spells16(s[1], b) && Spells16(s[2], c) && Spells16(s[3], d) ==>
      Hex4(s) == Some(a * 0x1000 + b * 0x100 + c * 0x10 + d)
    ensures (exists i :: 0 <= i < 4 && HexDigit(s[i]) == None) ==> Hex4(s) == None
  {
    HexDigitIff(s[0], a);
    HexDigitIff(s[1], b);
    HexDigitIff(s[2], c);
    HexDigitIff(s[3], d);
  }

  /** The two-character escapes. */
  predicate ShortEscape(e: char, c: char) {
    || (e == '"' && c == '"')
    || (e == '\\' && c == '\\')
    || (e == '/' && c == '/')
    || (e == 'b' && c == '\U{0008}')
    || (e == 'f' && c == '\U{000C}')
    || (e == 'n' && c == '\U{000A}')
    || (e == 'r' && c == '\U{000D}')
    || (e == 't' && c == '\U{0009}')
  }

  /** The text starts with the character itself. */
  predicate Plain(text: string, c: char) {
    text != "" && text[0] == c && c >= ' ' && c != '"' && c != '\\'
  }

  predicate Short(text: string, c: char) {
    |text| >= 2 && text[0] == '\\' && ShortEscape(text[1], c)
  }

  /** A backslash, a `u` and four digits. */
  predicate Escaped(text: string, n: int) {
    |text| >= 6 && text[0] == '\\' && text[1] == 'u' && Hex4(text[2..]).Some? && Hex4(text[2..]).value == n
  }

  /** The two escapes of a character beyond the basic plane: the halves of its UTF-16 form. */
  predicate Paired(text: string, c: char) {
    && |text| >= 12 && text[0] == '\\' && text[1] == 'u' && text[6] == '\\' && text[7] == 'u'
    && Hex4(text[2..]).Some? && Hex4(text[8..]).Some?
    && var high, low := Hex4(text[2..]).value, Hex4(text[8..]).value;
    && 0xD800 <= high <= 0xDBFF && 0xDC00 <= low <= 0xDFFF
    && c as int == 0x10000 + (high - 0xD800) * 0x400 + (low - 0xDC00)
  }

  /** After its opening quotation mark, the text spells `v` and a closing quotation mark, and `rest` follows. */
  predicate Spells(text: string, v: string, rest: string)
    decreases |text|
  {
    text != "" &&
    (if text[0] == '"' then v == "" && rest == text[1..]
     else
       v != "" &&
       (|| (Plain(text, v[0]) && Spells(text[1..], v[1..], rest))
        || (Short(text, v[0]) && Spells(text[2..], v[1..], rest))
        || (Escaped(text, v[0] as int) && Spells(text[6..], v[1..], rest))
        || (Paired(text, v[0]) && Spells(text[12..], v[1..], rest))))
  }

  lemma UnicodeIff(text: string, c: char, more: string)
    requires |text| >= 2 && text[0] == '\\' && text[1] == 'u'
    ensures ParseUnicode(text[2..]) == Got(c, more)
       <==> (Escaped(text, c as int) && more == text[6..]) || (Paired(text, c) && more == text[12..])
  {
    var s := text[2..];
    assert |s| >= 4 ==> s[4..] == text[6..];
    assert |s| >= 6 ==> s[6..] == text[8..] && s[4] == text[6] && s[5] == text[7];
    assert |s| >= 10 ==> s[10..] == text[12..];
  }

  lemma EscapeIff(text: string, c: char, more: string)
    requires text != "" && text[0] == '\\'
    ensures ParseEscape(text[1..]) == Got(c, more)
       <==> (|| (Short(text, c) && more == text[2..])
             || (Escaped(text, c as int) && more == text[6..])
             || (Paired(text, c) && more == text[12..]))
  {
    if |text| >= 2 {
      if text[1] == 'u' {
        UnicodeEscapeIff(text, c, more);
      } else {
        ShortIff(text[1..], c, more);
        assert text[1..][1..] == text[2..];
      }
    }
  }

  lemma UnicodeEscapeIff(text: string, c: char, more: string)
    requires |text| >= 2 && text[0] == '\\' && text[1] == 'u'
    ensures ParseEscape(text[1..]) == Got(c, more)
       <==> (Escaped(text, c as int) && more == text[6..]) || (Paired(text, c) && more == text[12..])
    ensures !Short(text, c)
  {
    UnicodeIff(text, c, more);
    assert text[1..][1..] == text[2..];
  }

  lemma ShortIff(s: string, c: char, more: string)
    requires s != "" && s[0] != 'u'
    ensures ParseEscape(s) == Got(c, more) <==> ShortEscape(s[0], c) && more == s[1..]
  {
  }

  /** A string token is read exactly as the grammar spells it. */
  lemma {:induction false} StringIff(text: string, v: string, rest: string)
    ensures ParseString(text) == Got(v, rest) <==> Spells(text, v, rest)
    decreases |text|
  {
    if text != "" && text[0] != '"' && text[0] >= ' ' {
      if text[0] == '\\' {
        EscapedStringIff(text, v, rest);
      } else {
        StringIff(text[1..], if v == "" then "" else v[1..], rest);
        ReadFirst(text[0], text[1..], v, rest);
      }
    }
  }

  lemma ReadFirst(c: char, more: string, v: string, rest: string)
    ensures (ParseString(more).Got? && [c] + ParseString(more).value == v && ParseString(more).rest == rest)
       <==> (v != "" && v[0] == c && ParseString(more) == Got(v[1..], rest))
  {
  }

  lemma {:induction false} EscapedStringIff(text: string, v: string, rest: string)
    requires text != "" && text[0] == '\\'
    ensures ParseString(text) == Got(v, rest) <==> Spells(text, v, rest)
    decreases |text|, 0
  {
    var e := ParseEscape(text[1..]);
    if e.Got? {
      EscapeIff(text, e.value, e.rest);
      StringIff(e.rest, if v == "" then "" else v[1..], rest);
      ReadFirst(e.value, e.rest, v, rest);
    }
    if v != "" {
      OneEscape(text, v[0]);
    }
  }

  /** At most one escape starts the text, and the reader finds it. */
  lemma OneEscape(text: string, c: char)
    requires text != "" && text[0] == '\\'
    ensures !Plain(text, c)
    ensures Short(text, c) ==> ParseEscape(text[1..]) == Got(c, text[2..])
    ensures Escaped(text, c as int) ==> ParseEscape(text[1..]) == Got(c, text[6..])
    ensures Paired(text, c) ==> ParseEscape(text[1..]) == Got(c, text[12..])
  {
    if |text| >= 2 {
      EscapeIff(text, c, text[2..]);
    }
    if Escaped(text, c as int) {
      EscapeIff(text, c, text[6..]);
    }
    if Paired(text, c) {
      EscapeIff(text, c, text[12..]);
    }
  }

  // ----- White space (section 2) and whole texts ------------------------------------------------

  /** Blanks, tabs, line feeds and carriage returns. */
  predicate WhiteSpace(s: string) {
    forall i :: 0 <= i < |s| ==> s[i] in {'\U{0020}', '\U{0009}', '\U{000A}', '\U{000D}'}
  }

  lemma {:induction false} WhiteSpaceIsSkipped(gap: string, text: string)
    requires WhiteSpace(gap)
    ensures SkipWs(gap + text) == SkipWs(text)
    ensures ParseValue(gap + text) == ParseValue(text)
  {
    if gap == "" {
      assert gap + text == text;
    } else {
      assert (gap + text)[1..] == gap[1..] + text;
      WhiteSpaceIsSkipped(gap[1..], text);
    }
  }

  lemma {:induction false} SkippedAllIff(s: string)
    ensures SkipWs(s) == "" <==> WhiteSpace(s)
  {
    if s != "" {
      SkippedAllIff(s[1..]);
      assert s == [s[0]] + s[1..];
    }
  }

  /** A printed value makes a whole text with white space around it, and with nothing else after it. */
  lemma WholeTextIff(before: string, d: Doc, after: string)
    requires WhiteSpace(before) && Printable(d) && (d.DNum? ==> Terminated(after))
    ensures Parse(before + (Print(d) + after)) == if WhiteSpace(after) then Some(ValueOf(d)) else None
  {
    WhiteSpaceIsSkipped(before, Print(d) + after);
    DocRoundTrip(d, after);
    SkippedAllIff(after);
  }

  /** White space may stand before a name, around its colon, and before the comma or the brace. */
  lemma SpacedMember(before: string, key: string, colon: string, text: string, v: Value, gap: string, after: string,
                     seen: map<string, Value>)
    requires WhiteSpace(before) && WhiteSpace(colon) && WhiteSpace(gap) && Clean(key)
    requires ParseValue(text) == Got(v, gap + after) && after != "" && (after[0] == ',' || after[0] == '}')
    ensures ParseMembers(before + ("\"" + (key + "\"" + (colon + (":" + text)))), seen)
         == if after[0] == ',' then ParseMembers(after[1..], seen[key := v]) else Got(Obj(seen[key := v]), after[1..])
  {
    NameReads(before, key, colon + (":" + text));
    WhiteSpaceIsSkipped(colon, ":" + text);
    assert (":" + text)[1..] == text;
    WhiteSpaceIsSkipped(gap, after);
  }

  lemma NameReads(before: string, key: string, rest: string)
    requires WhiteSpace(before) && Clean(key)
    ensures var t := SkipWs(before + ("\"" + (key + "\"" + rest)));
      t != "" && t[0] == '"' && ParseString(t[1..]) == Got(key, rest)
  {
    var token := "\"" + (key + "\"" + rest);
    WhiteSpaceIsSkipped(before, token);
    assert token[1..] == key + "\"" + rest;
    StringTokenIff(key, rest);
  }

  /** And before the comma or the bracket after an item. */
  lemma SpacedItem(text: string, v: Value, gap: string, after: string, seen: seq<Value>)
    requires WhiteSpace(gap) && ParseValue(text) == Got(v, gap + after)
    requires after != "" && (after[0] == ',' || after[0] == ']')
    ensures ParseItems(text, seen)
         == if after[0] == ',' then ParseItems(after[1..], seen + [v]) else Got(Arr(seen + [v]), after[1..])
  {
    WhiteSpaceIsSkipped(gap, after);
  }

  /** Objects and arrays without content may hold white space. */
  lemma EmptyReads(gap: string, rest: string)
    requires WhiteSpace(gap)
    ensures ParseValue("{" + (gap + ("}" + rest))) == Got(Obj(map[]), rest)
    ensures ParseValue("[" + (gap + ("]" + rest))) == Got(Arr([]), rest)
  {
    WhiteSpaceIsSkipped(gap, "}" + rest);
    WhiteSpaceIsSkipped(gap, "]" + rest);
    assert ("{" + (gap + ("}" + rest)))[1..] == gap + ("}" + rest);
    assert ("[" + (gap + ("]" + rest)))[1..] == gap + ("]" + rest);
    assert ("}" + rest)[1..] == rest && ("]" + rest)[1..] == rest;
  }

  // ----- Numbers (section 6) --------------------------------------------------------------------

  /** The number that decimal digits stand for. */
  function Value10(s: string): nat
    requires forall i :: 0 <= i < |s| ==> '0' <= s[i] <= '9'
  {
    if s == "" then 0 else 10 * Value10(s[..|s| - 1]) + (s[|s| - 1] as int - '0' as int)
  }

  lemma {:induction false} Value10Is(s: string)
    requires forall i :: 0 <= i < |s| ==> '0' <= s[i] <= '9'
    ensures DecimalValue(s) == Value10(s)
  {
    if s != "" {
      Value10Is(s[..|s| - 1]);
    }
  }

  lemma DigitsParse(digits: string, minus: bool)
    requires forall i :: 0 <= i < |digits| ==> '0' <= digits[i] <= '9'
    ensures var n := Signed(minus, DecimalValue(digits));
      ParseDigits(digits, minus) == if IsNumeral(digits) && Fits64(n) then Got(Num(n), "") else Fail
  {
    DigitRunStops(digits, "");
    assert digits + "" == digits && digits[..|digits|] == digits && digits[|digits|..] == "";
  }

  /** Digits are a number exactly when there is at least one, no leading zero, and 64 bits suffice. */
  lemma NumberIff(digits: string, minus: bool)
    requires forall i :: 0 <= i < |digits| ==> '0' <= digits[i] <= '9'
    ensures var n: int := Value10(digits);
      ParseDigits(digits, minus)
      == if IsNumeral(digits) && n <= (if minus then 0x8000_0000_0000_0000 else 0xFFFF_FFFF_FFFF_FFFF)
         then Got(Num(if minus then -n else n), "") else Fail
  {
    DigitsParse(digits, minus);
    Value10Is(digits);
  }

  predicate IsNumeral(digits: string) {
    digits != "" && (|digits| == 1 || digits[0] != '0')
  }

  /** A value that starts with a digit or a minus sign is a number. */
  lemma NumeralReads(text: string)
    requires text != "" && (text[0] == '-' || '0' <= text[0] <= '9')
    ensures ParseValue(text) == if text[0] == '-' then ParseDigits(text[1..], true) else ParseDigits(text, false)
  {
    NumberIsValue(text);
  }

  /** Fractions and exponents are refused, which the printers never write. */
  lemma FractionIsRefused(digits: string, rest: string)
    requires digits != "" && (forall i :: 0 <= i < |digits| ==> IsDigit(digits[i]))
    requires rest != "" && (rest[0] == '.' || rest[0] == 'e' || rest[0] == 'E')
    ensures ParseValue(digits + rest) == Fail
  {
    DigitRunStops(digits, rest);
    NumberIsValue(digits + rest);
    assert (digits + rest)[|digits|] == rest[0];
  }
}
