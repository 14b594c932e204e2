/** Flat JSON objects of texts and counts, printed the way the standard serializer prints them:
    no spaces, control characters escaped.
 */
module JsonRecord {
  import opened Wrappers
  import opened Text

  datatype Value = TextValue(text: string) | CountValue(count: nat)

  datatype Field = Field(key: string, value: Value)

  // ---------------------------------------------------------------- strings

  function HexDigit(d: nat): (c: char)
    requires d < 16
    ensures HexValue(c) == Some(d)
  {
    if d < 10 then (('0' as int) + d) as char else (('a' as int) + d - 10) as char
  }

  function HexValue(c: char): (d: Option<nat>)
    ensures d.Some? ==> d.value < 16
  {
    if '0' <= c <= '9' then Some((c as int) - ('0' as int))
    else if 'a' <= c <= 'f' then Some((c as int) - ('a' as int) + 10)
    else if 'A' <= c <= 'F' then Some((c as int) - ('A' as int) + 10)
    else None
  }

  // The letter of a short escape.
  function ShortEscape(c: char): Option<char> {
    if c == '"' then Some('"') else if c == '\\' then Some('\\')
    else if c == 8 as char then Some('b') else if c == 12 as char then Some('f')
    else if c == '\n' then Some('n') else if c == '\r' then Some('r') else if c == '\t' then Some('t')
    else None
  }

  function ShortMeaning(c: char): Option<char> {
    if c == '"' then Some('"') else if c == '\\' then Some('\\') else if c == '/' then Some('/')
    else if c == 'b' then Some(8 as char) else if c == 'f' then Some(12 as char)
    else if c == 'n' then Some('\n') else if c == 'r' then Some('\r') else if c == 't' then Some('\t')
    else None
  }

  function EscapeChar(c: char): (s: string)
    ensures s != "" && '\n' !in s
  {
    if ShortEscape(c).Some? then ['\\', ShortEscape(c).value]
    else if (c as int) < 32 then ['\\', 'u', '0', '0', HexDigit((c as int) / 16), HexDigit((c as int) % 16)]
    else [c]
  }

  function Escape(s: string): (e: string)
    ensures '\n' !in e
  {
    if s == "" then "" else EscapeChar(s[0]) + Escape(s[1..])
  }

  // The character a four-digit escape names; surrogates are not characters of their own.
  function FourHex(s: string): Option<char>
    requires 4 <= |s|
  {
    var a, b, c, d := HexValue(s[0]), HexValue(s[1]), HexValue(s[2]), HexValue(s[3]);
    if a.None? || b.None? || c.None? || d.None? then None
    else
      var code := ((a.value * 16 + b.value) * 16 + c.value) * 16 + d.value;
      if 0xD800 <= code < 0xE000 then None else Some(code as char)
  }

  datatype Parsed<+T> = Parsed(value: T, rest: string) | Failed

  function Prepend(c: char, p: Parsed<string>): Parsed<string> {
    if p.Parsed? then Parsed([c] + p.value, p.rest) else Failed
  }

  // The rest of a string literal whose opening quote has been read.
  function ParseText(s: string): (p: Parsed<string>)
    ensures p.Parsed? ==> |p.rest| < |s|
  {
    if s == "" then Failed
    else if s[0] == '"' then Parsed("", s[1..])
    else if s[0] == '\\' then
      if |s| < 2 then Failed
      else if ShortMeaning(s[1]).Some? then Prepend(ShortMeaning(s[1]).value, ParseText(s[2..]))
      else if s[1] == 'u' && 6 <= |s| && FourHex(s[2..6]).Some? then Prepend(FourHex(s[2..6]).value, ParseText(s[6..]))
      else Failed
    else if (s[0] as int) < 32 then Failed
    else Prepend(s[0], ParseText(s[1..]))
  }

  lemma ShortRoundTrip(c: char)
    requires ShortEscape(c).Some?
    ensures ShortMeaning(ShortEscape(c).value) == Some(c)
  {
  }

  lemma HexRoundTrip(c: char)
    requires (c as int) < 32
    ensures FourHex(['0', '0', HexDigit((c as int) / 16), HexDigit((c as int) % 16)]) == Some(c)
  {
    hide HexDigit;
  }

  lemma ParseShort(a: char, tail: string)
    requires ShortMeaning(a).Some?
    ensures ParseText(['\\', a] + tail) == Prepend(ShortMeaning(a).value, ParseText(tail))
  {
    hide ShortMeaning;
    assert (['\\', a] + tail)[2..] == tail;
  }

  lemma ParseHex(h: string, tail: string)
    requires |h| == 4 && FourHex(h).Some?
    ensures ParseText(['\\', 'u'] + h + tail) == Prepend(FourHex(h).value, ParseText(tail))
  {
    hide FourHex;
    var s := ['\\', 'u'] + h + tail;
    assert s[2..6] == h && s[6..] == tail;
  }

  lemma ParsePlain(c: char, tail: string)
    requires c != '"' && c != '\\' && 32 <= c as int
    ensures ParseText([c] + tail) == Prepend(c, ParseText(tail))
  {
    assert ([c] + tail)[1..] == tail;
  }

  lemma ParseEscaped(c: char, tail: string)
    ensures ParseText(EscapeChar(c) + tail) == Prepend(c, ParseText(tail))
  {
    hide ParseText, FourHex, HexDigit;
    if ShortEscape(c).Some? {
      ShortRoundTrip(c);
      ParseShort(ShortEscape(c).value, tail);
    } else if (c as int) < 32 {
      var h := ['0', '0', HexDigit((c as int) / 16), HexDigit((c as int) % 16)];
      HexRoundTrip(c);
      ParseHex(h, tail);
      assert EscapeChar(c) == ['\\', 'u'] + h;
    } else {
      ParsePlain(c, tail);
    }
  }

  lemma ParseQuote(rest: string)
    ensures ParseText("\"" + rest) == Parsed("", rest)
  {
    assert ("\"" + rest)[1..] == rest;
  }

  lemma {:induction false} ParseTextEscape(t: string, rest: string)
    ensures ParseText(Escape(t) + "\"" + rest) == Parsed(t, rest)
  {
    hide ParseText, EscapeChar;
    if t == "" {
      ParseQuote(rest);
      assert Escape(t) + "\"" + rest == "\"" + rest;
    } else {
      ParseTextEscape(t[1..], rest);
      var tail := Escape(t[1..]) + "\"" + rest;
      ParseEscaped(t[0], tail);
      assert Escape(t) + "\"" + rest == EscapeChar(t[0]) + tail;
      assert t == [t[0]] + t[1..];
    }
  }

  // ---------------------------------------------------------------- counts

  function DigitsOf(s: string): (n: nat)
    ensures n <= |s| && Numeral(s[..n])
  {
    if s == "" || !IsDigit(s[0]) then 0
    else
      var n := DigitsOf(s[1..]);
      assert s[..n + 1] == [s[0]] + s[1..][..n];
      n + 1
  }

  // Leading zeros are not JSON.
  function ParseCount(s: string): (p: Parsed<nat>)
    ensures p.Parsed? ==> |p.rest| < |s|
  {
    var n := DigitsOf(s);
    if n == 0 || Decimal(ValueOf(s[..n])) != s[..n] then Failed else Parsed(ValueOf(s[..n]), s[n..])
  }

  lemma {:induction false} DigitsStop(d: string, rest: string)
    requires Numeral(d) && (rest == "" || !IsDigit(rest[0]))
    ensures DigitsOf(d + rest) == |d|
  {
    if d != "" {
      assert (d + rest)[1..] == d[1..] + rest;
      DigitsStop(d[1..], rest);
    }
  }

  lemma ParseCountDecimal(n: nat, rest: string)
    requires rest == "" || !IsDigit(rest[0])
    ensures ParseCount(Decimal(n) + rest) == Parsed(n, rest)
  {
    DigitsStop(Decimal(n), rest);
    ValueOfDecimal(n);
    assert (Decimal(n) + rest)[..|Decimal(n)|] == Decimal(n);
    assert (Decimal(n) + rest)[|Decimal(n)|..] == rest;
  }

  // ---------------------------------------------------------------- objects

  function PrintValue(v: Value): (s: string)
    ensures s != "" && '\n' !in s
  {
    match v
    case TextValue(text) => "\"" + Escape(text) + "\""
    case CountValue(count) => Decimal(count)
  }

  function PrintField(f: Field): (s: string)
    ensures s != "" && '\n' !in s
  {
    "\"" + Escape(f.key) + "\"" + ":" + PrintValue(f.value)
  }

  function PrintFields(fields: seq<Field>): (s: string)
    requires fields != []
    ensures s != "" && '\n' !in s
  {
    if |fields| == 1 then PrintField(fields[0]) + "}" else PrintField(fields[0]) + "," + PrintFields(fields[1..])
  }

  function PrintObject(fields: seq<Field>): (s: string)
    requires fields != []
    ensures '\n' !in s
  {
    "{" + PrintFields(fields)
  }

  function ParseValue(s: string): (p: Parsed<Value>)
    ensures p.Parsed? ==> |p.rest| < |s|
  {
    if s != "" && s[0] == '"' then
      var t := ParseText(s[1..]);
      if t.Parsed? then Parsed(TextValue(t.value), t.rest) else Failed
    else
      var n := ParseCount(s);
      if n.Parsed? then Parsed(CountValue(n.value), n.rest) else Failed
  }

  function ParseField(s: string): (p: Parsed<Field>)
    ensures p.Parsed? ==> |p.rest| < |s|
  {
    if s == "" || s[0] != '"' then Failed
    else
      var key := ParseText(s[1..]);
      if key.Failed? || key.rest == "" || key.rest[0] != ':' then Failed
      else
        var value := ParseValue(key.rest[1..]);
        if value.Parsed? then Parsed(Field(key.value, value.value), value.rest) else Failed
  }

  function ParseFields(s: string): Option<seq<Field>>
    decreases |s|
  {
    var field := ParseField(s);
    if field.Failed? || field.rest == "" then None
    else if field.rest == "}" then Some([field.value])
    else if field.rest[0] == ',' then
      var more := ParseFields(field.rest[1..]);
      if more.Some? then Some([field.value] + more.value) else None
    else None
  }

  function ParseObject(s: string): Option<seq<Field>> {
    if s != "" && s[0] == '{' then ParseFields(s[1..]) else None
  }

  lemma ParsePrintedValue(v: Value, rest: string)
    requires rest == "" || !IsDigit(rest[0])
    ensures ParseValue(PrintValue(v) + rest) == Parsed(v, rest)
  {
    hide ParseText, Escape, DigitsOf, Decimal, ValueOf;
    match v
    case TextValue(text) =>
      ParseTextEscape(text, rest);
      assert (PrintValue(v) + rest)[1..] == Escape(text) + "\"" + rest;
    case CountValue(count) =>
      ParseCountDecimal(count, rest);
      assert (Decimal(count) + rest)[0] == Decimal(count)[0];
  }

  lemma ParsePrintedField(f: Field, rest: string)
    requires rest == "" || !IsDigit(rest[0])
    ensures ParseField(PrintField(f) + rest) == Parsed(f, rest)
  {
    hide ParseText, Escape, ParseValue, PrintValue;
    var tail := ":" + PrintValue(f.value) + rest;
    ParseTextEscape(f.key, tail);
    ParsePrintedValue(f.value, rest);
    var s := PrintField(f) + rest;
    assert s[1..] == Escape(f.key) + "\"" + tail;
    assert tail[1..] == PrintValue(f.value) + rest;
  }

  lemma {:induction false} ParsePrintedFields(fields: seq<Field>)
    requires fields != []
    ensures ParseFields(PrintFields(fields)) == Some(fields)
  {
    hide ParseField, PrintField, PrintValue, ParseText, Escape;
    if |fields| == 1 {
      ParsePrintedField(fields[0], "}");
      assert fields == [fields[0]];
    } else {
      var tail := "," + PrintFields(fields[1..]);
      ParsePrintedField(fields[0], tail);
      assert PrintFields(fields) == PrintField(fields[0]) + tail;
      assert tail[1..] == PrintFields(fields[1..]);
      ParsePrintedFields(fields[1..]);
      assert fields == [fields[0]] + fields[1..];
    }
  }

  /** Printing a record and parsing it gives the record back, whatever its texts contain. */
  lemma ParsePrintedObject(fields: seq<Field>)
    requires fields != []
    ensures ParseObject(PrintObject(fields)) == Some(fields)
  {
    assert PrintObject(fields)[1..] == PrintFields(fields);
    ParsePrintedFields(fields);
  }
}
