/**
 * Structured log lines: the hand-written printer, and a reader of the JSON it
 * prints, after sections 6 and 7 of RFC 8259.  Text is a sequence of Unicode
 * scalar values.
 */
module LogLine {
  import opened Words
  import opened Wrappers

  // ---------- printing ----------

  function HexDigit(n: nat): char
    requires n < 16
  {
    if n < 10 then '0' + n as char else 'a' + (n - 10) as char
  }

  function EscapeChar(c: char): string {
    if c == '"' then ['\\', '"']
    else if c == '\\' then ['\\', '\\']
    else if c == '\n' then ['\\', 'n']
    else if c == '\r' then ['\\', 'r']
    else if c == '\t' then ['\\', 't']
    else if c < ' ' then ['\\', 'u', '0', '0', HexDigit(c as int / 16), HexDigit(c as int % 16)]
    else [c]
  }

  /**
   * The shape of an escape: a quote, a backslash and the three common white spaces
   * take a backslash and a letter, any other control six characters with lower-case
   * digits, and nothing else is escaped.
   */
  lemma EscapeShape(c: char)
    ensures var e := EscapeChar(c);
      && (c == '"' || c == '\\' ==> e == ['\\', c])
      && (c == '\n' ==> e == ['\\', 'n']) && (c == '\r' ==> e == ['\\', 'r']) && (c == '\t' ==> e == ['\\', 't'])
      && (c >= ' ' && c != '"' && c != '\\' ==> e == [c])
      && (c < ' ' && c != '\n' && c != '\r' && c != '\t' ==>
            && |e| == 6 && e[..4] == ['\\', 'u', '0', '0']
            && ('0' <= e[4] <= '1') && ('0' <= e[5] <= '9' || 'a' <= e[5] <= 'f'))
  {
  }

  function Escape(s: string): string {
    if s == "" then "" else EscapeChar(s[0]) + Escape(s[1..])
  }

  const MIN_INT64: int := -TWO_63

  /** A 64-bit signed integer. */
  type Int64 = v: int | -TWO_63 <= v < TWO_63

  /** Decimal digits, none for zero. */
  function Digits(n: nat): string {
    if n == 0 then "" else Digits(n / 10) + [Digit(n % 10)]
  }

  function Digit(d: nat): char
    requires d < 10
  {
    '0' + d as char
  }

  /** Negating the smallest integer leaves it negative, so its digit loop does not run. */
  function Itoa(v: Int64): string {
    if v == 0 then "0"
    else if v > 0 then Digits(v)
    else if v == MIN_INT64 then "-"
    else "-" + Digits(-v)
  }

  /** A field's dynamic type: text, an integer, an error's text, or anything else, which prints as empty text. */
  datatype FieldValue = Text(s: string) | Integer(v: Int64) | Failure(message: string) | Other

  datatype Field = Field(k: string, v: FieldValue)

  function Quoted(s: string): string {
    "\"" + Escape(s) + "\""
  }

  function ValueJson(v: FieldValue): string {
    match v
    case Text(s) => Quoted(s)
    case Integer(n) => Itoa(n)
    case Failure(m) => Quoted(m)
    case Other => Quoted("")
  }

  function FieldsJson(fields: seq<Field>): string {
    if fields == [] then "}"
    else "," + Quoted(fields[0].k) + ":" + ValueJson(fields[0].v) + FieldsJson(fields[1..])
  }

  function Line(msg: string, fields: seq<Field>): string {
    "{\"msg\":" + Quoted(msg) + FieldsJson(fields)
  }

  // ---------- reading ----------

  datatype JsonValue = JString(s: string) | JNumber(n: int)

  function HexValue(c: char): Option<nat> {
    if '0' <= c <= '9' then Some(c as int - '0' as int)
    else if 'a' <= c <= 'f' then Some(c as int - 'a' as int + 10)
    else if 'A' <= c <= 'F' then Some(c as int - 'A' as int + 10)
    else None
  }

  /** The code unit of four hexadecimal digits. */
  function Hex4(s: string): Option<nat> {
    if |s| < 4 then None
    else
      match (HexValue(s[0]), HexValue(s[1]), HexValue(s[2]), HexValue(s[3]))
      case (Some(a), Some(b), Some(c), Some(d)) => Some(((a * 16 + b) * 16 + c) * 16 + d)
      case _ => None
  }

  /** A character written as \u and four digits, or as a surrogate pair of two such; with the rest of the input. */
  function ReadUnicode(s: string): Option<(char, string)> {
    match Hex4(s)
    case None => None
    case Some(u) =>
      if 0xD800 <= u < 0xDC00 then
        if |s| < 10 || s[4] != '\\' || s[5] != 'u' then None
        else
          match Hex4(s[6..])
          case None => None
          case Some(low) =>
            if 0xDC00 <= low < 0xE000 then Some(((0x10000 + (u - 0xD800) * 0x400 + (low - 0xDC00)) as char, s[10..]))
            else None
      else if u < 0xD800 || (0xE000 <= u < 0x10000) then Some((u as char, s[4..]))
      else None
  }

  function SimpleEscape(c: char): Option<char> {
    if c == '"' || c == '\\' || c == '/' then Some(c)
    else if c == 'b' then Some(8 as char)
    else if c == 'f' then Some(12 as char)
    else if c == 'n' then Some('\n')
    else if c == 'r' then Some('\r')
    else if c == 't' then Some('\t')
    else None
  }

  /** The characters up to the closing quote, and what follows it.  Control characters must be escaped. */
  function ReadChars(s: string): Option<(string, string)>
    decreases |s|
  {
    if s == "" then None
    else if s[0] == '"' then Some(("", s[1..]))
    else if s[0] == '\\' then
      if |s| < 2 then None
      else
        var one := if s[1] == 'u' then ReadUnicode(s[2..])
                   else if SimpleEscape(s[1]).Some? then Some((SimpleEscape(s[1]).value, s[2..])) else None;
        if one.None? || |one.value.1| >= |s| then None
        else Prepend(one.value.0, ReadChars(one.value.1))
    else if s[0] < ' ' then None
    else Prepend(s[0], ReadChars(s[1..]))
  }

  function Prepend(c: char, r: Option<(string, string)>): Option<(string, string)> {
    if r.None? then None else Some(([c] + r.value.0, r.value.1))
  }

  function ReadString(s: string): Option<(string, string)> {
    if s == "" || s[0] != '"' then None else ReadChars(s[1..])
  }

  predicate IsDigit(c: char) {
    '0' <= c <= '9'
  }

  /** The digits at the front. */
  function DigitSpan(s: string): (n: nat)
    ensures n <= |s|
  {
    if s == "" || !IsDigit(s[0]) then 0 else 1 + DigitSpan(s[1..])
  }

  function DigitsValue(s: string): int {
    if s == "" then 0 else DigitsValue(s[..|s| - 1]) * 10 + (s[|s| - 1] as int - '0' as int)
  }

  /** An unsigned integer without superfluous leading zeros. */
  function ReadNat(s: string): Option<(int, string)> {
    var n := DigitSpan(s);
    if n == 0 || (s[0] == '0' && n > 1) then None else Some((DigitsValue(s[..n]), s[n..]))
  }

  function ReadInt(s: string): Option<(int, string)> {
    if s != "" && s[0] == '-' then
      match ReadNat(s[1..])
      case None => None
      case Some((n, rest)) => Some((-n, rest))
    else ReadNat(s)
  }

  function ReadValue(s: string): Option<(JsonValue, string)> {
    if s != "" && s[0] == '"' then
      match ReadString(s)
      case None => None
      case Some((t, rest)) => Some((JString(t), rest))
    else
      match ReadInt(s)
      case None => None
      case Some((n, rest)) => Some((JNumber(n), rest))
  }

  /** A name, a colon and a value. */
  function ReadMember(s: string): Option<((string, JsonValue), string)> {
    match ReadString(s)
    case None => None
    case Some((k, s1)) =>
      if s1 == "" || s1[0] != ':' then None
      else
        match ReadValue(s1[1..])
        case None => None
        case Some((v, s2)) => Some(((k, v), s2))
  }

  /** The members after the first, up to the closing brace, which must end the line. */
  function ReadMembers(s: string): Option<seq<(string, JsonValue)>>
    decreases |s|
  {
    if s == "}" then Some([])
    else if s == "" || s[0] != ',' then None
    else
      match ReadMember(s[1..])
      case None => None
      case Some((m, rest)) =>
        if |rest| >= |s| then None
        else
          match ReadMembers(rest)
          case None => None
          case Some(ms) => Some([m] + ms)
  }

  function ReadLine(s: string): Option<seq<(string, JsonValue)>> {
    if s == "" || s[0] != '{' then None
    else
      match ReadMember(s[1..])
      case None => None
      case Some((m, rest)) =>
        match ReadMembers(rest)
        case None => None
        case Some(ms) => Some([m] + ms)
  }

  // ---------- round trips ----------

  lemma HexBack(n: nat)
    requires n < 16
    ensures HexValue(HexDigit(n)) == Some(n)
  {
  }

  /** The four digits after \u of a control character. */
  function UnicodeDigits(c: char): string
    requires c < ' '
  {
    ['0', '0', HexDigit(c as int / 16), HexDigit(c as int % 16)]
  }

  lemma UnescapeChar(c: char, rest: string)
    requires ReadChars(rest).Some?
    ensures ReadChars(EscapeChar(c) + rest) == Prepend(c, ReadChars(rest))
  {
    hide HexDigit, ReadUnicode, ReadChars, Prepend;
    if EscapeChar(c) == [c] {
      Unescaped(c, rest);
    } else if c < ' ' && c != '\n' && c != '\r' && c != '\t' {
      UnicodeEscaped(c, rest);
      assert EscapeChar(c) + rest == ['\\', 'u'] + (UnicodeDigits(c) + rest);
    } else {
      SimplyEscaped(EscapeChar(c)[1], c, rest);
      assert EscapeChar(c) == ['\\', EscapeChar(c)[1]];
    }
  }

  lemma Unescaped(c: char, rest: string)
    requires c >= ' ' && c != '"' && c != '\\'
    ensures ReadChars([c] + rest) == Prepend(c, ReadChars(rest))
  {
    assert ([c] + rest)[1..] == rest;
  }

  lemma SimplyEscaped(letter: char, c: char, rest: string)
    requires ReadChars(rest).Some? && letter != 'u' && SimpleEscape(letter) == Some(c)
    ensures ReadChars(['\\', letter] + rest) == Prepend(c, ReadChars(rest))
  {
    hide SimpleEscape;
    assert (['\\', letter] + rest)[2..] == rest;
  }

  lemma UnicodeEscaped(c: char, rest: string)
    requires ReadChars(rest).Some? && c < ' '
    ensures ReadChars(['\\', 'u'] + (UnicodeDigits(c) + rest)) == Prepend(c, ReadChars(rest))
  {
    hide ReadUnicode, SimpleEscape, HexDigit;
    var digits := UnicodeDigits(c);
    UnescapeControl(c, rest);
    assert (['\\', 'u'] + (digits + rest))[2..] == digits + rest;
  }

  lemma UnescapeControl(c: char, rest: string)
    requires c < ' '
    ensures ReadUnicode(UnicodeDigits(c) + rest) == Some((c, rest))
  {
    var s := UnicodeDigits(c) + rest;
    HexBack(c as int / 16);
    HexBack(c as int % 16);
    HexBack(0);
    assert s[4..] == rest;
    assert Hex4(s) == Some(c as int);
  }

  lemma {:induction false} UnescapeString(s: string, rest: string)
    ensures ReadChars(Escape(s) + "\"" + rest) == Some((s, rest))
  {
    if s == "" {
      assert (Escape(s) + "\"" + rest)[1..] == rest;
    } else {
      UnescapeString(s[1..], rest);
      UnescapeChar(s[0], Escape(s[1..]) + "\"" + rest);
      assert Escape(s) + "\"" + rest == EscapeChar(s[0]) + (Escape(s[1..]) + "\"" + rest);
      assert [s[0]] + s[1..] == s;
    }
  }

  lemma QuotedReadsBack(s: string, rest: string)
    ensures ReadString(Quoted(s) + rest) == Some((s, rest))
  {
    UnescapeString(s, rest);
    assert (Quoted(s) + rest)[1..] == Escape(s) + "\"" + rest;
  }

  lemma {:induction false} DigitsAre(n: nat)
    ensures forall i :: 0 <= i < |Digits(n)| ==> IsDigit(Digits(n)[i])
    ensures DigitsValue(Digits(n)) == n
    ensures n > 0 ==> Digits(n) != "" && Digits(n)[0] != '0'
  {
    if n > 0 {
      DigitsAre(n / 10);
      var front := Digits(n / 10);
      assert (front + [Digit(n % 10)])[..|front|] == front;
    }
  }

  lemma {:induction false} SpanOfDigits(ds: string, rest: string)
    requires forall i :: 0 <= i < |ds| ==> IsDigit(ds[i])
    requires rest != "" ==> !IsDigit(rest[0])
    ensures DigitSpan(ds + rest) == |ds|
  {
    if ds == "" {
      assert ds + rest == rest;
    } else {
      assert (ds + rest)[1..] == ds[1..] + rest;
      SpanOfDigits(ds[1..], rest);
    }
  }

  lemma NatReadsBack(n: nat, rest: string)
    requires n > 0 && (rest != "" ==> !IsDigit(rest[0]))
    ensures ReadNat(Digits(n) + rest) == Some((n, rest))
  {
    DigitsAre(n);
    SpanOfDigits(Digits(n), rest);
    assert (Digits(n) + rest)[..|Digits(n)|] == Digits(n);
    assert (Digits(n) + rest)[|Digits(n)|..] == rest;
  }

  /**
   * A printed integer parses back to itself, for every 64-bit integer but the
   * smallest, which prints as a lone minus sign and is not a number at all.
   */
  lemma ItoaReadsBack(v: Int64, rest: string)
    requires rest != "" ==> !IsDigit(rest[0])
    ensures ReadInt(Itoa(v) + rest) == if v == MIN_INT64 then None else Some((v, rest))
  {
    hide Digits, ReadNat;
    if v == 0 {
      ZeroReadsBack(rest);
    } else if v > 0 {
      NatReadsBack(v, rest);
      DigitsHead(v);
    } else if v == MIN_INT64 {
      assert ("-" + rest)[1..] == rest;
      NothingReadsBack(rest);
    } else {
      NatReadsBack(-v, rest);
      assert ("-" + Digits(-v) + rest)[1..] == Digits(-v) + rest;
    }
  }

  lemma DigitsHead(n: nat)
    requires n > 0
    ensures Digits(n) != "" && IsDigit(Digits(n)[0])
  {
    DigitsAre(n);
  }

  lemma ZeroReadsBack(rest: string)
    requires rest != "" ==> !IsDigit(rest[0])
    ensures ReadNat("0" + rest) == Some((0, rest))
  {
    SpanOfDigits("0", rest);
    assert ("0" + rest)[..1] == "0" && ("0" + rest)[1..] == rest;
    assert DigitsValue("0") == 0;
  }

  lemma NothingReadsBack(rest: string)
    requires rest != "" ==> !IsDigit(rest[0])
    ensures ReadNat(rest) == None
  {
  }

  /** What a reader makes of a field's value. */
  function Meaning(v: FieldValue): JsonValue {
    match v
    case Text(s) => JString(s)
    case Integer(n) => JNumber(n)
    case Failure(m) => JString(m)
    case Other => JString("")
  }

  function Meanings(fields: seq<Field>): seq<(string, JsonValue)> {
    seq(|fields|, i requires 0 <= i < |fields| => (fields[i].k, Meaning(fields[i].v)))
  }

  lemma ItoaHead(v: Int64)
    ensures Itoa(v) != "" && Itoa(v)[0] != '"'
  {
    if v > 0 {
      DigitsHead(v);
    }
  }

  lemma ValueReadsBack(v: FieldValue, rest: string)
    requires rest != "" && !IsDigit(rest[0])
    ensures ReadValue(ValueJson(v) + rest) == if v == Integer(MIN_INT64) then None else Some((Meaning(v), rest))
  {
    match v
    case Text(s) => QuotedReadsBack(s, rest);
    case Failure(m) => QuotedReadsBack(m, rest);
    case Other => QuotedReadsBack("", rest);
    case Integer(n) =>
      ItoaReadsBack(n, rest);
      ItoaHead(n);
  }

  lemma MemberReadsBack(f: Field, rest: string)
    requires rest != "" && !IsDigit(rest[0])
    ensures ReadMember(Quoted(f.k) + ":" + ValueJson(f.v) + rest)
      == if f.v == Integer(MIN_INT64) then None else Some(((f.k, Meaning(f.v)), rest))
  {
    hide ReadString, ReadValue, Quoted, ValueJson, Meaning;
    var tail := ":" + ValueJson(f.v) + rest;
    QuotedReadsBack(f.k, tail);
    assert Quoted(f.k) + ":" + ValueJson(f.v) + rest == Quoted(f.k) + tail;
    assert tail[1..] == ValueJson(f.v) + rest;
    ValueReadsBack(f.v, rest);
  }

  /** The smallest integer among the fields spoils the line. */
  predicate Printable(fields: seq<Field>) {
    forall f :: f in fields ==> f.v != Integer(MIN_INT64)
  }

  lemma PrintableHead(fields: seq<Field>)
    ensures fields == [] ==> Printable(fields)
    ensures fields != [] ==> (Printable(fields) <==> fields[0].v != Integer(MIN_INT64) && Printable(fields[1..]))
  {
    if fields != [] {
      assert fields == [fields[0]] + fields[1..];
    }
  }

  lemma FieldsHead(fields: seq<Field>)
    ensures FieldsJson(fields) != "" && !IsDigit(FieldsJson(fields)[0])
  {
  }

  lemma {:induction false} FieldsReadBack(fields: seq<Field>)
    ensures ReadMembers(FieldsJson(fields)) == if Printable(fields) then Some(Meanings(fields)) else None
  {
    hide ReadMember, Quoted, ValueJson, Meaning, Printable;
    PrintableHead(fields);
    if fields == [] {
      assert Meanings(fields) == [];
    } else {
      var f, more := fields[0], fields[1..];
      var s := FieldsJson(fields);
      FieldsHead(more);
      assert s[1..] == Quoted(f.k) + ":" + ValueJson(f.v) + FieldsJson(more);
      MemberReadsBack(f, FieldsJson(more));
      FieldsReadBack(more);
      assert fields == [f] + more;
      assert Meanings(fields) == [(f.k, Meaning(f.v))] + Meanings(more);
    }
  }

  /**
   * The round trip: a reader recovers the message and the ordered list of fields
   * from a line exactly when no field is the smallest 64-bit integer.
   */
  lemma LineReadsBack(msg: string, fields: seq<Field>)
    ensures ReadLine(Line(msg, fields))
      == if Printable(fields) then Some([("msg", JString(msg))] + Meanings(fields)) else None
  {
    hide ReadMember, ReadMembers, FieldsJson, Printable, Meanings, Quoted;
    var s := Line(msg, fields);
    var m := Field("msg", Text(msg));
    FieldsHead(fields);
    PlainName();
    assert s[1..] == Quoted(m.k) + ":" + ValueJson(m.v) + FieldsJson(fields);
    MemberReadsBack(m, FieldsJson(fields));
    FieldsReadBack(fields);
  }

  lemma PlainName()
    ensures Quoted("msg") == "\"msg\""
  {
    assert "msg"[1..] == "sg" && "sg"[1..] == "g" && "g"[1..] == "";
    assert Escape("g") == "g";
    assert Escape("sg") == "sg";
  }

  // ---------- the printer ----------

  lemma {:induction false} DigitsLength(n: nat, k: nat, bound: nat)
    requires bound == Pow10(k) && n < bound
    ensures |Digits(n)| <= k
  {
    if n > 0 {
      DigitsLength(n / 10, k - 1, Pow10(k - 1));
    }
  }

  function Pow10(k: nat): nat {
    if k == 0 then 1 else 10 * Pow10(k - 1)
  }

  lemma NineteenDigits()
    ensures Pow10(19) == 10000000000000000000
  {
    assert Pow10(5) == 100000;
    assert Pow10(10) == 10000000000;
    assert Pow10(15) == 1000000000000000;
  }

  /** 64-bit negation. */
  function Negate(v: Int64): Int64 {
    if v == MIN_INT64 then v else -v
  }

  lemma AtMostNineteenDigits(v: Int64)
    ensures v > 0 ==> |Digits(v)| <= 19
  {
    NineteenDigits();
    if v > 0 {
      DigitsLength(v, 19, Pow10(19));
    }
  }

  lemma Reassociate(front: string, c: char, rest: string)
    ensures front + [c] + rest == front + ([c] + rest)
  {
  }

  lemma DigitsStep(n: nat)
    ensures Digits(n) == if n > 0 then Digits(n / 10) + [Digit(n % 10)] else ""
  {
  }

  /** Writes the digits of v right before the end of the buffer. */
  method FillDigits(buf: array<char>, v: Int64) returns (i: nat)
    requires buf.Length == 20
    modifies buf
    ensures 1 <= i <= 20 && buf[i..] == if v > 0 then Digits(v) else ""
  {
    hide Digits, Digit;
    i := buf.Length;
    var left: int := v;
    ghost var digits := if v > 0 then Digits(v) else "";
    AtMostNineteenDigits(v);
    while left > 0
      invariant |digits| <= 19 && 1 <= i <= 20
      invariant digits == (if left > 0 then Digits(left) else "") + buf[i..]
      invariant left == v || left >= 0
      decreases left
    {
      ghost var written := buf[i..];
      DigitsStep(left);
      DigitsStep(left / 10);
      Reassociate(Digits(left / 10), Digit(left % 10), written);
      i := i - 1;
      buf[i] := Digit(left % 10);
      assert buf[i..] == [Digit(left % 10)] + written;
      left := left / 10;
    }
  }

  /** Fills a 20-byte buffer from its end; it never runs out of room. */
  method PrintInt(n: Int64) returns (s: string)
    ensures s == Itoa(n)
  {
    if n == 0 {
      return "0";
    }
    var neg := n < 0;
    var v := n;
    if neg {
      v := Negate(v);
    }
    var buf := new char[20](_ => ' ');
    var i := FillDigits(buf, v);
    if neg {
      i := i - 1;
      buf[i] := '-';
      assert buf[i..] == "-" + buf[i + 1..];
    }
    return buf[i..];
  }

  method PrintEscaped(s: string) returns (b: string)
    ensures b == Escape(s)
  {
    b := "";
    for i := 0 to |s|
      invariant b + Escape(s[i..]) == Escape(s)
    {
      b := b + EscapeChar(s[i]);
    }
  }

  datatype Level = Debug | Info | Warn | Error

  function Rank(l: Level): nat {
    match l
    case Debug => 0
    case Info => 1
    case Warn => 2
    case Error => 3
  }

  /** From the least to the most severe. */
  lemma LevelsAreOrdered()
    ensures Rank(Debug) < Rank(Info) < Rank(Warn) < Rank(Error)
  {
  }

  class Logger {
    const level: Level
    var lines: seq<string>

    constructor (level: Level)
      ensures this.level == level && lines == []
    {
      this.level := level;
      lines := [];
    }

    method ValueText(v: FieldValue) returns (s: string)
      ensures s == ValueJson(v)
    {
      match v {
        case Text(t) =>
          var e := PrintEscaped(t);
          s := "\"" + e + "\"";
        case Integer(n) =>
          s := PrintInt(n);
        case Failure(m) =>
          var e := PrintEscaped(m);
          s := "\"" + e + "\"";
        case Other =>
          s := "\"\"";
      }
    }

    method FieldText(f: Field) returns (s: string)
      ensures s == "," + Quoted(f.k) + ":" + ValueJson(f.v)
    {
      var k := PrintEscaped(f.k);
      var v := ValueText(f.v);
      s := ",\"" + k + "\":" + v;
    }

    /** Writes one line, or nothing below the configured level. */
    method Log(l: Level, msg: string, fields: seq<Field>)
      modifies this
      ensures lines == if Rank(l) < Rank(level) then old(lines) else old(lines) + [Line(msg, fields)]
    {
      hide Escape, ValueJson;
      if Rank(l) < Rank(level) {
        return;
      }
      var e := PrintEscaped(msg);
      var b := "{\"msg\":\"" + e + "\"";
      assert b == "{\"msg\":" + Quoted(msg);
      for i := 0 to |fields|
        invariant b + FieldsJson(fields[i..]) == Line(msg, fields)
        invariant lines == old(lines)
      {
        var piece := FieldText(fields[i]);
        assert fields[i..][1..] == fields[i + 1..];
        assert FieldsJson(fields[i..]) == piece + FieldsJson(fields[i + 1..]);
        b := b + piece;
      }
      lines := lines + [b + "}"];
    }
  }
}
