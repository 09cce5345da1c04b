/** Printing JSON as `json.dumps(value, ensure_ascii=False, indent=2)` does, and reading it back as
    `json.loads` does.  Numbers with a fraction or exponent are not covered on either side.
 */
module JsonText {
  import opened Wrappers
  import opened Json

  // ---------------------------------------------------------------------------------------
  // Printing
  // ---------------------------------------------------------------------------------------

  function HexDigit(n: nat): char
    requires n < 16
  {
    "0123456789abcdef"[n]
  }

  /** Section 7 of RFC 8259: quotation mark, reverse solidus and control characters are escaped. */
  function EscapeChar(c: char): string {
    if c == '\"' then ['\\', '\"']
    else if c == '\\' then ['\\', '\\']
    else if c == '\n' then "\\n"
    else if c == '\r' then "\\r"
    else if c == '\t' then "\\t"
    else if c == '\U{0c}' then "\\f"
    else if c == '\U{08}' then "\\b"
    else if c < ' ' then "\\u00" + [HexDigit(c as int / 16), HexDigit(c as int % 16)]
    else [c]
  }

  /** The escapes section 7 of RFC 8259 gives: two-character ones for seven characters, `u` and four hex
      digits for every other control character, and none for anything else. */
  lemma {:induction false} EscapeMeaning(c: char)
    ensures EscapeChar('\"') == ['\\', '\"'] && EscapeChar('\\') == ['\\', '\\']
    ensures EscapeChar('\n') == ['\\', 'n'] && EscapeChar('\r') == ['\\', 'r'] && EscapeChar('\t') == ['\\', 't']
    ensures EscapeChar('\U{0c}') == ['\\', 'f'] && EscapeChar('\U{08}') == ['\\', 'b']
    ensures c >= ' ' && c != '\"' && c != '\\' ==> EscapeChar(c) == [c]
    ensures c < ' ' && c !in {'\n', '\r', '\t', '\U{0c}', '\U{08}'} ==>
      var e := EscapeChar(c);
      && |e| == 6 && e[..4] == ['\\', 'u', '0', '0']
      && HexValue(e[4]) == Some(c as int / 16) && HexValue(e[5]) == Some(c as int % 16)
  {
    if c < ' ' {
      HexRoundTrip(c as int / 16);
      HexRoundTrip(c as int % 16);
      var e := EscapeChar(c);
      if |e| == 6 { assert e[..4] == "\\u00"; }
    }
  }

  function Escaped(s: string): string {
    if s == [] then [] else EscapeChar(s[0]) + Escaped(s[1..])
  }

  function Quoted(s: string): string {
    ['\"'] + Escaped(s) + ['\"']
  }

  function Digits(n: nat): string {
    if n < 10 then [HexDigit(n)] else Digits(n / 10) + [HexDigit(n % 10)]
  }

  function Indent(level: nat): string {
    if level == 0 then [] else "  " + Indent(level - 1)
  }

  function NewLine(level: nat): string {
    "\n" + Indent(level)
  }

  /** No numbers that need a fraction or exponent, and no key twice in one object. */
  predicate Printable(v: Value) {
    match v
    case Real(_) => false
    case Arr(items) => forall x :: x in items ==> Printable(x)
    case Obj(fields) => DistinctKeys(fields) && forall f :: f in fields ==> Printable(f.value)
    case _ => true
  }

  predicate DistinctKeys(o: Object) {
    forall i, j :: 0 <= i < j < |o| ==> o[i].key != o[j].key
  }

  function Print(v: Value, level: nat): string
    requires Printable(v)
    decreases v
  {
    match v
    case Null => "null"
    case Bool(b) => if b then "true" else "false"
    case Int(n) => if n < 0 then "-" + Digits(-n) else Digits(n)
    case Str(s) => Quoted(s)
    case Arr(items) =>
      if items == [] then "[]"
      else "[" + NewLine(level + 1) + PrintItems(items, level + 1) + NewLine(level) + "]"
    case Obj(fields) =>
      if fields == [] then "{}"
      else "{" + NewLine(level + 1) + PrintFields(fields, level + 1) + NewLine(level) + "}"
  }

  function PrintItems(items: seq<Value>, level: nat): string
    requires items != [] && forall x :: x in items ==> Printable(x)
    decreases items
  {
    if |items| == 1 then Print(items[0], level)
    else Print(items[0], level) + "," + NewLine(level) + PrintItems(items[1..], level)
  }

  function PrintFields(fields: Object, level: nat): string
    requires fields != [] && forall f :: f in fields ==> Printable(f.value)
    decreases fields
  {
    var first := Quoted(fields[0].key) + ": " + Print(fields[0].value, level);
    if |fields| == 1 then first else first + "," + NewLine(level) + PrintFields(fields[1..], level)
  }

  /** A line for each item and two blanks per level. */
  lemma {:induction false} PrintExample()
    ensures Print(Arr([Null, Null]), 1) == "[" + "\n    " + "null" + "," + "\n    " + "null" + "\n  " + "]"
  {
    assert NewLine(1) == "\n  " && NewLine(2) == "\n    " by {
      assert Indent(1) == "  " + Indent(0) && Indent(2) == "  " + Indent(1);
    }
    hide NewLine, Indent;
    assert [Null, Null][1..] == [Null];
  }

  // ---------------------------------------------------------------------------------------
  // Reading
  // ---------------------------------------------------------------------------------------

  datatype Read<+T> = Read(value: T, rest: string)

  predicate IsBlank(c: char) {
    c == ' ' || c == '\t' || c == '\n' || c == '\r'
  }

  function SkipBlank(s: string): (r: string)
    ensures |r| <= |s|
  {
    if s != [] && IsBlank(s[0]) then SkipBlank(s[1..]) else s
  }

  function HexValue(c: char): Option<nat> {
    if '0' <= c <= '9' then Some(c as int - '0' as int)
    else if 'a' <= c <= 'f' then Some(c as int - 'a' as int + 10)
    else if 'A' <= c <= 'F' then Some(c as int - 'A' as int + 10)
    else None
  }

  /** The character after a reverse solidus, and four hex digits after `u`.  Surrogates are not
      characters here and are refused. */
  function ReadEscape(s: string): (r: Option<Read<char>>)
    ensures r.Some? ==> |r.value.rest| < |s|
  {
    if s == [] then None
    else if s[0] == '\"' || s[0] == '\\' || s[0] == '/' then Some(Read(s[0], s[1..]))
    else if s[0] == 'n' then Some(Read('\n', s[1..]))
    else if s[0] == 'r' then Some(Read('\r', s[1..]))
    else if s[0] == 't' then Some(Read('\t', s[1..]))
    else if s[0] == 'f' then Some(Read('\U{0c}', s[1..]))
    else if s[0] == 'b' then Some(Read('\U{08}', s[1..]))
    else if s[0] == 'u' && |s| >= 5 then
      var a, b, c, d := HexValue(s[1]), HexValue(s[2]), HexValue(s[3]), HexValue(s[4]);
      if a.None? || b.None? || c.None? || d.None? then None
      else
        var code := ((a.value * 16 + b.value) * 16 + c.value) * 16 + d.value;
        if 0 <= code < 0xD800 || 0xE000 <= code < 0x10000 then Some(Read(code as char, s[5..])) else None
    else None
  }

  /** The inside of a string up to and including its closing quotation mark. */
  function ReadString(s: string): (r: Option<Read<string>>)
    ensures r.Some? ==> |r.value.rest| < |s|
    decreases |s|
  {
    if s == [] then None
    else if s[0] == '\"' then Some(Read([], s[1..]))
    else if s[0] == '\\' then
      var e := ReadEscape(s[1..]);
      if e.None? then None
      else
        var tail := ReadString(e.value.rest);
        if tail.None? then None else Some(Read([e.value.value] + tail.value.value, tail.value.rest))
    else if s[0] < ' ' then None
    else
      var tail := ReadString(s[1..]);
      if tail.None? then None else Some(Read([s[0]] + tail.value.value, tail.value.rest))
  }

  predicate IsDigit(c: char) {
    '0' <= c <= '9'
  }

  function ReadDigits(s: string, acc: nat): (r: Read<nat>)
    ensures |r.rest| <= |s|
  {
    if s != [] && IsDigit(s[0]) then ReadDigits(s[1..], acc * 10 + (s[0] as int - '0' as int)) else Read(acc, s)
  }

  /** An unsigned integer has no leading zero. */
  function ReadNatural(s: string): (r: Option<Read<nat>>)
    ensures r.Some? ==> |r.value.rest| < |s|
  {
    if s == [] || !IsDigit(s[0]) then None
    else if s[0] == '0' then Some(Read(0, s[1..]))
    else Some(ReadDigits(s[1..], s[0] as int - '0' as int))
  }

  predicate StartsWith(s: string, word: string) {
    |word| <= |s| && s[..|word|] == word
  }

  /** `d[key] = value`: an existing key keeps its place. */
  function Put(o: Object, key: string, value: Value): Object {
    if o == [] then [Field(key, value)]
    else if o[0].key == key then [Field(key, value)] + o[1..]
    else [o[0]] + Put(o[1..], key, value)
  }

  function ReadValue(s: string): (r: Option<Read<Value>>)
    ensures r.Some? ==> |r.value.rest| < |s|
    decreases |s|, 1
  {
    if s == [] then None
    else if s[0] == '\"' then
      var t := ReadString(s[1..]);
      if t.None? then None else Some(Read(Str(t.value.value), t.value.rest))
    else if s[0] == '{' then
      var t := SkipBlank(s[1..]);
      if t != [] && t[0] == '}' then Some(Read(Obj([]), t[1..]))
      else
        var fields := ReadFields(t, []);
        if fields.None? then None else Some(Read(Obj(fields.value.value), fields.value.rest))
    else if s[0] == '[' then
      var t := SkipBlank(s[1..]);
      if t != [] && t[0] == ']' then Some(Read(Arr([]), t[1..]))
      else
        var items := ReadItems(t);
        if items.None? then None else Some(Read(Arr(items.value.value), items.value.rest))
    else if StartsWith(s, "null") then Some(Read(Null, s[4..]))
    else if StartsWith(s, "true") then Some(Read(Bool(true), s[4..]))
    else if StartsWith(s, "false") then Some(Read(Bool(false), s[5..]))
    else if s[0] == '-' then
      var n := ReadNatural(s[1..]);
      if n.None? then None else Some(Read(Int(-(n.value.value as int)), n.value.rest))
    else
      var n := ReadNatural(s);
      if n.None? then None else Some(Read(Int(n.value.value), n.value.rest))
  }

  /** From the first item of a list to its closing bracket. */
  function ReadItems(s: string): (r: Option<Read<seq<Value>>>)
    ensures r.Some? ==> |r.value.rest| < |s|
    decreases |s|, 2
  {
    var v := ReadValue(s);
    if v.None? then None
    else
      var t := SkipBlank(v.value.rest);
      if t == [] then None
      else if t[0] == ']' then Some(Read([v.value.value], t[1..]))
      else if t[0] == ',' then
        var tail := ReadItems(SkipBlank(t[1..]));
        if tail.None? then None else Some(Read([v.value.value] + tail.value.value, tail.value.rest))
      else None
  }

  /** From the first key of an object to its closing brace; `seen` holds the fields read so far. */
  function ReadFields(s: string, seen: Object): (r: Option<Read<Object>>)
    ensures r.Some? ==> |r.value.rest| < |s|
    decreases |s|, 2
  {
    if s == [] || s[0] != '\"' then None
    else
      var key := ReadString(s[1..]);
      if key.None? then None
      else
        var t := SkipBlank(key.value.rest);
        if t == [] || t[0] != ':' then None
        else
          var v := ReadValue(SkipBlank(t[1..]));
          if v.None? then None
          else
            var o := Put(seen, key.value.value, v.value.value);
            var u := SkipBlank(v.value.rest);
            if u == [] then None
            else if u[0] == '}' then Some(Read(o, u[1..]))
            else if u[0] == ',' then ReadFields(SkipBlank(u[1..]), o)
            else None
  }

  /** `json.loads`: one value, blanks around it, nothing after it. */
  function Loads(s: string): Option<Value> {
    var v := ReadValue(SkipBlank(s));
    if v.Some? && SkipBlank(v.value.rest) == [] then Some(v.value.value) else None
  }

  // ---------------------------------------------------------------------------------------
  // Round trip
  // ---------------------------------------------------------------------------------------

  lemma {:induction false} EscapeRoundTrip(c: char, rest: string)
    ensures var e := EscapeChar(c);
      if e[0] == '\\' then |e| >= 2 && ReadEscape(e[1..] + rest) == Some(Read(c, rest))
      else e == [c] && c != '\"' && c >= ' '
  {
    var e := EscapeChar(c);
    if c < ' ' && |e| == 6 {
      var t := e[1..] + rest;
      HexRoundTrip(c as int / 16);
      HexRoundTrip(c as int % 16);
      assert t[0] == 'u' && t[1] == '0' && t[2] == '0';
      assert t[3] == HexDigit(c as int / 16) && t[4] == HexDigit(c as int % 16);
      assert t[5..] == rest;
    } else if e[0] == '\\' {
      assert (e[1..] + rest)[1..] == rest;
    }
  }

  /** `u` and four hex digits stand for the character with that code, a solidus may be escaped, and no
      other escapes or raw control characters are read. */
  lemma {:induction false} ReadEscapeMeaning(a: nat, b: nat, c: nat, d: nat, other: char, rest: string)
    requires a < 16 && b < 16 && c < 16 && d < 16
    ensures var code := ((a * 16 + b) * 16 + c) * 16 + d;
      ReadEscape(['u', HexDigit(a), HexDigit(b), HexDigit(c), HexDigit(d)] + rest) ==
        if code < 0xD800 || 0xE000 <= code < 0x10000 then Some(Read(code as char, rest)) else None
    ensures ReadEscape(['/'] + rest) == Some(Read('/', rest))
    ensures other !in {'\"', '\\', '/', 'b', 'f', 'n', 'r', 't', 'u'} ==> ReadEscape([other] + rest) == None
    ensures other < ' ' ==> ReadString([other] + rest) == None
  {
    HexRoundTrip(a);
    HexRoundTrip(b);
    HexRoundTrip(c);
    HexRoundTrip(d);
    hide HexDigit, HexValue;
    var s := ['u', HexDigit(a), HexDigit(b), HexDigit(c), HexDigit(d)] + rest;
    assert s[5..] == rest;
    assert (['/'] + rest)[1..] == rest;
  }

  lemma {:induction false} HexRoundTrip(n: nat)
    requires n < 16
    ensures HexValue(HexDigit(n)) == Some(n)
    ensures n < 10 ==> IsDigit(HexDigit(n)) && HexDigit(n) as int - '0' as int == n
  {
  }

  /** Reading one escaped character and then the rest of the string. */
  lemma {:induction false} ReadEscaped(c: char, tail: string)
    ensures ReadString(EscapeChar(c) + tail) ==
      var t := ReadString(tail);
      if t.None? then None else Some(Read([c] + t.value.value, t.value.rest))
  {
    EscapeRoundTrip(c, tail);
    hide EscapeChar, ReadEscape;
    var e := EscapeChar(c);
    assert (e + tail)[1..] == e[1..] + tail;
    if e[0] != '\\' { assert e[1..] + tail == tail; }
  }

  lemma {:induction false} StringRoundTrip(s: string, rest: string)
    ensures ReadString(Escaped(s) + ['\"'] + rest) == Some(Read(s, rest))
  {
    hide EscapeChar, ReadEscape;
    if s == [] {
      assert Escaped(s) + ['\"'] + rest == ['\"'] + rest;
    } else {
      var tail := Escaped(s[1..]) + ['\"'] + rest;
      assert Escaped(s) + ['\"'] + rest == EscapeChar(s[0]) + tail;
      hide ReadString;
      ReadEscaped(s[0], tail);
      StringRoundTrip(s[1..], rest);
      assert [s[0]] + s[1..] == s;
    }
  }

  lemma {:induction false} ReadDigit(c: char, rest: string, acc: nat)
    requires IsDigit(c)
    ensures ReadDigits([c] + rest, acc) == ReadDigits(rest, acc * 10 + (c as int - '0' as int))
  {
    assert ([c] + rest)[1..] == rest;
  }

  lemma {:induction false} DigitsRoundTrip(n: nat, rest: string)
    ensures ReadDigits(Digits(n) + rest, 0) == ReadDigits(rest, n)
    ensures Digits(n) != [] && IsDigit(Digits(n)[0])
    ensures Digits(n)[0] == '0' ==> n == 0
  {
    hide HexDigit, HexValue, IsDigit, ReadDigits;
    HexRoundTrip(n % 10);
    var digit := HexDigit(n % 10);
    if n < 10 {
      ReadDigit(digit, rest, 0);
    } else {
      assert Digits(n) + rest == Digits(n / 10) + ([digit] + rest);
      DigitsRoundTrip(n / 10, [digit] + rest);
      ReadDigit(digit, rest, n / 10);
    }
  }

  lemma {:induction false} NaturalRoundTrip(n: nat, rest: string)
    requires rest == [] || !IsDigit(rest[0])
    ensures ReadNatural(Digits(n) + rest) == Some(Read(n, rest))
  {
    DigitsRoundTrip(n, rest);
    var t := Digits(n) + rest;
    if t[0] == '0' {
      assert t[1..] == rest;
    } else {
      assert ReadDigits(t, 0) == ReadDigits(t[1..], t[0] as int - '0' as int);
    }
  }

  lemma {:induction false} SkipNothing(s: string)
    requires s != [] && !IsBlank(s[0])
    ensures SkipBlank(s) == s
  {
  }

  lemma {:induction false} SkipNewLine(level: nat, rest: string)
    requires rest != [] && !IsBlank(rest[0])
    ensures SkipBlank(NewLine(level) + rest) == rest
  {
    assert (NewLine(level) + rest)[1..] == Indent(level) + rest;
    SkipIndent(level, rest);
  }

  lemma {:induction false} SkipIndent(level: nat, rest: string)
    requires rest != [] && !IsBlank(rest[0])
    ensures SkipBlank(Indent(level) + rest) == rest
  {
    if level == 0 {
      assert Indent(level) + rest == rest;
    } else {
      var t := Indent(level - 1) + rest;
      assert Indent(level) + rest == "  " + t;
      assert ("  " + t)[1..] == " " + t && (" " + t)[1..] == t;
      SkipIndent(level - 1, rest);
    }
  }

  lemma {:induction false} PrintFirst(v: Value, level: nat)
    requires Printable(v)
    ensures Print(v, level) != [] && !IsBlank(Print(v, level)[0])
    ensures Print(v, level)[0] != ']' && Print(v, level)[0] != '}'
  {
    if v.Int? { DigitsRoundTrip(if v.number < 0 then -v.number else v.number, []); }
  }

  /** Reading what was printed, whatever follows it, gives back the value and what follows. */
  lemma {:induction false} ValueRoundTrip(v: Value, level: nat, rest: string)
    requires Printable(v) && (rest == [] || !IsDigit(rest[0]))
    ensures ReadValue(Print(v, level) + rest) == Some(Read(v, rest))
    decreases v
  {
    hide ReadString, ReadItems, ReadFields, ReadNatural, PrintItems, PrintFields, Escaped, Digits;
    var t := Print(v, level) + rest;
    match v
    case Null => assert t[..4] == "null" && t[4..] == rest;
    case Bool(b) =>
      if b { assert t[..4] == "true" && t[4..] == rest; } else { assert t[..5] == "false" && t[5..] == rest; }
    case Int(n) => IntRoundTrip(n, level, rest);
    case Str(s) =>
      assert t[1..] == Escaped(s) + ['\"'] + rest;
      StringRoundTrip(s, rest);
    case Arr(items) => ArrayRoundTrip(items, level, rest);
    case Obj(fields) => ObjectRoundTrip(fields, level, rest);
  }

  lemma {:induction false} NoWordBefore(s: string)
    requires s != [] && (s[0] == '-' || IsDigit(s[0]))
    ensures !StartsWith(s, "null") && !StartsWith(s, "true") && !StartsWith(s, "false")
  {
  }

  lemma {:induction false} IntRoundTrip(n: int, level: nat, rest: string)
    requires rest == [] || !IsDigit(rest[0])
    ensures ReadValue(Print(Int(n), level) + rest) == Some(Read(Int(n), rest))
  {
    hide Digits, ReadNatural, StartsWith, ReadString, ReadItems, ReadFields;
    var t := Print(Int(n), level) + rest;
    if n < 0 {
      assert t[1..] == Digits(-n) + rest;
      NaturalRoundTrip(-n, rest);
    } else {
      NaturalRoundTrip(n, rest);
      DigitsRoundTrip(n, rest);
    }
    NoWordBefore(t);
  }

  lemma {:induction false} ArrayRoundTrip(items: seq<Value>, level: nat, rest: string)
    requires Printable(Arr(items)) && (rest == [] || !IsDigit(rest[0]))
    ensures ReadValue(Print(Arr(items), level) + rest) == Some(Read(Arr(items), rest))
    decreases items, 1
  {
    hide SkipBlank, ReadItems, ReadFields, ReadString, ReadNatural, StartsWith, PrintItems, NewLine;
    var t := Print(Arr(items), level) + rest;
    if items == [] {
      var close := "]" + rest;
      assert t[1..] == close && close[1..] == rest;
      SkipNothing(close);
    } else {
      var body := PrintItems(items, level + 1) + NewLine(level) + "]" + rest;
      assert t[1..] == NewLine(level + 1) + body;
      ItemsFirst(items, level + 1);
      SkipNewLine(level + 1, body);
      ItemsRoundTrip(items, level, rest);
    }
  }

  lemma {:induction false} ItemsFirst(items: seq<Value>, level: nat)
    requires items != [] && forall x :: x in items ==> Printable(x)
    ensures var p := PrintItems(items, level); p != [] && !IsBlank(p[0]) && p[0] != ']'
  {
    PrintFirst(items[0], level);
  }

  lemma {:induction false} ItemsRoundTrip(items: seq<Value>, level: nat, rest: string)
    requires items != [] && forall x :: x in items ==> Printable(x)
    ensures ReadItems(PrintItems(items, level + 1) + NewLine(level) + "]" + rest) == Some(Read(items, rest))
    decreases items, 0
  {
    hide SkipBlank, ReadValue, NewLine, Print;
    var close := "]" + rest;
    assert close[1..] == rest;
    var first := Print(items[0], level + 1);
    if |items| == 1 {
      var after := NewLine(level) + close;
      assert PrintItems(items, level + 1) + NewLine(level) + "]" + rest == first + after;
      assert after[0] == '\n' by { NewLineFirst(level, close); }
      ValueRoundTrip(items[0], level + 1, after);
      SkipNewLine(level, close);
      assert items == [items[0]];
    } else {
      var next := PrintItems(items[1..], level + 1) + NewLine(level) + "]" + rest;
      var after := "," + (NewLine(level + 1) + next);
      assert PrintItems(items, level + 1) + NewLine(level) + "]" + rest == first + after;
      ValueRoundTrip(items[0], level + 1, after);
      SkipNothing(after);
      assert after[1..] == NewLine(level + 1) + next;
      ItemsFirst(items[1..], level + 1);
      SkipNewLine(level + 1, next);
      ItemsRoundTrip(items[1..], level, rest);
      assert items == [items[0]] + items[1..];
    }
  }

  lemma {:induction false} NewLineFirst(level: nat, s: string)
    ensures (NewLine(level) + s)[0] == '\n'
  {
  }

  lemma {:induction false} ObjectRoundTrip(fields: Object, level: nat, rest: string)
    requires Printable(Obj(fields)) && (rest == [] || !IsDigit(rest[0]))
    ensures ReadValue(Print(Obj(fields), level) + rest) == Some(Read(Obj(fields), rest))
    decreases fields, 1
  {
    hide SkipBlank, ReadItems, ReadFields, ReadString, ReadNatural, StartsWith, PrintFields, NewLine;
    var t := Print(Obj(fields), level) + rest;
    if fields == [] {
      var close := "}" + rest;
      assert t[1..] == close && close[1..] == rest;
      SkipNothing(close);
    } else {
      var body := PrintFields(fields, level + 1) + NewLine(level) + "}" + rest;
      assert t[1..] == NewLine(level + 1) + body;
      FieldsFirst(fields, level + 1);
      SkipNewLine(level + 1, body);
      FieldsRoundTrip([], fields, level, rest);
      assert [] + fields == fields;
    }
  }

  lemma {:induction false} FieldsFirst(fields: Object, level: nat)
    requires fields != [] && forall f :: f in fields ==> Printable(f.value)
    ensures PrintFields(fields, level) != [] && PrintFields(fields, level)[0] == '\"'
  {
  }

  /** A repeated key keeps its place and gets the later value; no other field changes. */
  lemma {:induction false} PutMeaning(o: Object, key: string, value: Value, other: string)
    ensures Lookup(Put(o, key, value), key) == Some(value)
    ensures other != key ==> Lookup(Put(o, key, value), other) == Lookup(o, other)
    ensures Lookup(o, key).Some? ==>
      |Put(o, key, value)| == |o| && forall i :: 0 <= i < |o| ==> Put(o, key, value)[i].key == o[i].key
  {
    if o != [] && o[0].key != key { PutMeaning(o[1..], key, value, other); }
  }

  lemma {:induction false} PutNew(o: Object, key: string, value: Value)
    requires forall f :: f in o ==> f.key != key
    ensures Put(o, key, value) == o + [Field(key, value)]
  {
    if o != [] {
      PutNew(o[1..], key, value);
      assert o == [o[0]] + o[1..];
    }
  }

  lemma {:induction false} PutNext(seen: Object, fields: Object)
    requires fields != [] && DistinctKeys(seen + fields)
    ensures Put(seen, fields[0].key, fields[0].value) == seen + [fields[0]]
    ensures seen + [fields[0]] + fields[1..] == seen + fields
  {
    forall g | g in seen ensures g.key != fields[0].key {
      var i :| 0 <= i < |seen| && seen[i] == g;
      assert (seen + fields)[i] == g && (seen + fields)[|seen|] == fields[0];
    }
    PutNew(seen, fields[0].key, fields[0].value);
  }

  /** Reading one `"key": value` with something after it that is neither a digit nor a blank. */
  lemma {:induction false} FieldRoundTrip(f: Field, level: nat, after: string, u: string, seen: Object)
    requires Printable(f.value) && after != [] && !IsDigit(after[0]) && u != [] && SkipBlank(after) == u
    ensures ReadFields(Quoted(f.key) + ": " + Print(f.value, level) + after, seen) ==
            var o := Put(seen, f.key, f.value);
            if u[0] == '}' then Some(Read(o, u[1..]))
            else if u[0] == ',' then ReadFields(SkipBlank(u[1..]), o)
            else None
    decreases f, 0
  {
    hide ReadString, ReadValue, Put, Print, Escaped;
    var value := Print(f.value, level) + after;
    var colon := ": " + value;
    var t := Quoted(f.key) + ": " + Print(f.value, level) + after;
    StringRoundTrip(f.key, colon);
    assert t[1..] == Escaped(f.key) + ['\"'] + colon;
    assert colon[1..] == " " + value && (" " + value)[1..] == value;
    PrintFirst(f.value, level);
    SkipNothing(colon);
    SkipNothing(value);
    assert SkipBlank(" " + value) == value;
    ValueRoundTrip(f.value, level, after);
  }

  lemma {:induction false} FieldsRoundTrip(seen: Object, fields: Object, level: nat, rest: string)
    requires fields != [] && DistinctKeys(seen + fields) && forall f :: f in fields ==> Printable(f.value)
    ensures ReadFields(PrintFields(fields, level + 1) + NewLine(level) + "}" + rest, seen) ==
        Some(Read(seen + fields, rest))
    decreases fields, 0
  {
    hide ReadFields, SkipBlank, NewLine, Print, Quoted, Put;
    var f, close := fields[0], "}" + rest;
    var first := Quoted(f.key) + ": " + Print(f.value, level + 1);
    PutNext(seen, fields);
    if |fields| == 1 {
      var after := NewLine(level) + close;
      assert PrintFields(fields, level + 1) + NewLine(level) + "}" + rest == first + after;
      NewLineFirst(level, close);
      SkipNewLine(level, close);
      FieldRoundTrip(f, level + 1, after, close, seen);
      assert close[1..] == rest;
      assert fields == [f];
    } else {
      var next := PrintFields(fields[1..], level + 1) + NewLine(level) + "}" + rest;
      var after := "," + (NewLine(level + 1) + next);
      assert PrintFields(fields, level + 1) + NewLine(level) + "}" + rest == first + after;
      SkipNothing(after);
      FieldRoundTrip(f, level + 1, after, after, seen);
      assert after[1..] == NewLine(level + 1) + next;
      FieldsFirst(fields[1..], level + 1);
      SkipNewLine(level + 1, next);
      assert SkipBlank(after[1..]) == next;
      FieldsRoundTrip(seen + [f], fields[1..], level, rest);
      assert ReadFields(first + after, seen) == ReadFields(next, seen + [f]);
    }
  }

  /** `json.loads(json.dumps(v)) == v`. */
  lemma {:induction false} LoadsPrinted(v: Value)
    requires Printable(v)
    ensures Loads(Print(v, 0)) == Some(v)
  {
    PrintFirst(v, 0);
    ValueRoundTrip(v, 0, []);
    assert Print(v, 0) + [] == Print(v, 0);
  }

  /** Blanks may follow a printed value, and nothing else may. */
  lemma {:induction false} LoadsWhole(v: Value, rest: string)
    requires Printable(v) && (rest == [] || !IsDigit(rest[0]))
    ensures Loads(Print(v, 0) + rest) == if forall c :: c in rest ==> IsBlank(c) then Some(v) else None
  {
    PrintFirst(v, 0);
    ValueRoundTrip(v, 0, rest);
    SkipBlankMeaning(rest);
    assert (Print(v, 0) + rest)[0] == Print(v, 0)[0];
    SkipNothing(Print(v, 0) + rest);
  }

  lemma {:induction false} SkipBlankMeaning(s: string)
    ensures SkipBlank(s) == [] <==> forall c :: c in s ==> IsBlank(c)
  {
    if s != [] {
      SkipBlankMeaning(s[1..]);
      assert s == [s[0]] + s[1..];
    }
  }
}
