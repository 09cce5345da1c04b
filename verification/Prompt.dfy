/** The agents' prompts end in a marker line and a JSON payload; the deterministic models read the
    payload back from the prompt text.
 */
module Prompt {
  import opened Wrappers
  import opened Json
  import opened JsonText
  import opened Text

  const INPUT_JSON_MARKER := "INPUT_JSON:\n"

  /** Every prompt builder appends the marker and the printed payload to its instructions. */
  function BuildPrompt(instructions: string, payload: Object): string
    requires Printable(Obj(payload))
  {
    instructions + INPUT_JSON_MARKER + Print(Obj(payload), 0)
  }

  function StrategyPayload(jdText: string, preferenceText: string, promptVersion: string): (o: Object)
    ensures Printable(Obj(o))
  {
    [Field("jdText", Str(jdText)),
     Field("sourcingPreferenceText", Str(preferenceText)),
     Field("promptVersion", Str(promptVersion))]
  }

  function BuildStrategyPrompt(
      instructions: string, jdText: string, preferenceText: string, promptVersion: string): string {
    BuildPrompt(instructions, StrategyPayload(jdText, preferenceText, promptVersion))
  }

  // ---------------------------------------------------------------------------------------
  // Reading a prompt
  // ---------------------------------------------------------------------------------------

  datatype Part = Part(isUserPrompt: bool, content: string)

  datatype ExtractError = NoUserPrompt | NoMarker | InvalidJson | NotAnObject

  datatype Extracted = Payload(fields: Object) | Refused(reason: ExtractError)

  predicate MarkerAt(text: string, i: int) {
    0 <= i <= |text| - |INPUT_JSON_MARKER| && text[i..i + |INPUT_JSON_MARKER|] == INPUT_JSON_MARKER
  }

  /** `text.rfind(marker)`, searched from position `from` downwards. */
  function LastMarker(text: string, from: int): (r: int)
    requires from <= |text|
    ensures r == -1 || (0 <= r <= from && MarkerAt(text, r))
    ensures forall i :: r < i <= from ==> !MarkerAt(text, i)
    decreases from + 1
  {
    if from < 0 then -1 else if MarkerAt(text, from) then from else LastMarker(text, from - 1)
  }

  function ExtractFromPrompt(text: string): Extracted {
    var marker := LastMarker(text, |text|);
    if marker < 0 then Refused(NoMarker)
    else
      var value := Loads(Strip(text[marker + |INPUT_JSON_MARKER|..]));
      if value.None? then Refused(InvalidJson)
      else if !value.value.Obj? then Refused(NotAnObject)
      else Payload(value.value.fields)
  }

  /** A prompt without marker is refused, and so is one whose text after the last marker, stripped, is not
      a JSON object; otherwise that object is the payload. */
  lemma {:induction false} ExtractMeaning(text: string, at: nat)
    ensures ExtractFromPrompt(text) == Refused(NoMarker) <==> forall i :: 0 <= i <= |text| ==> !MarkerAt(text, i)
    ensures MarkerAt(text, at) && (forall i :: at < i <= |text| ==> !MarkerAt(text, i)) ==>
      var read := Loads(Strip(text[at + |INPUT_JSON_MARKER|..]));
      ExtractFromPrompt(text) ==
        if read.None? then Refused(InvalidJson)
        else if read.value.Obj? then Payload(read.value.fields)
        else Refused(NotAnObject)
  {
    hide Loads, Strip;
    if MarkerAt(text, at) && forall i :: at < i <= |text| ==> !MarkerAt(text, i) { LastMarkerIs(text, at, |text|); }
  }

  /** `i`, `j` is the last user prompt: no later part of the message, and no later message, has one. */
  ghost predicate IsLatest(messages: seq<seq<Part>>, i: nat, j: nat) {
    && i < |messages| && j < |messages[i]| && messages[i][j].isUserPrompt
    && (forall t :: j < t < |messages[i]| ==> !messages[i][t].isUserPrompt)
    && (forall m :: i < m < |messages| ==> NoPrompt(messages[m]))
  }

  ghost predicate NoPrompt(parts: seq<Part>) {
    forall t :: 0 <= t < |parts| ==> !parts[t].isUserPrompt
  }

  method LatestUserPromptText(messages: seq<seq<Part>>) returns (text: Option<string>)
    ensures text.None? <==> forall m :: 0 <= m < |messages| ==> NoPrompt(messages[m])
    ensures text.Some? ==> exists i: nat, j: nat :: IsLatest(messages, i, j) && text.value == messages[i][j].content
  {
    var i := |messages|;
    while i > 0
      invariant 0 <= i <= |messages|
      invariant forall m :: i <= m < |messages| ==> NoPrompt(messages[m])
    {
      i := i - 1;
      var parts := messages[i];
      var j := |parts|;
      while j > 0
        invariant 0 <= j <= |parts|
        invariant forall t :: j <= t < |parts| ==> !parts[t].isUserPrompt
      {
        j := j - 1;
        if parts[j].isUserPrompt {
          assert IsLatest(messages, i, j);
          return Some(parts[j].content);
        }
      }
    }
    return None;
  }

  method ExtractInputPayload(messages: seq<seq<Part>>) returns (r: Extracted)
    ensures r == Refused(NoUserPrompt) <==> forall m :: 0 <= m < |messages| ==> NoPrompt(messages[m])
    ensures forall i: nat, j: nat :: IsLatest(messages, i, j) ==> r == ExtractFromPrompt(messages[i][j].content)
  {
    var text := LatestUserPromptText(messages);
    if text.None? {
      return Refused(NoUserPrompt);
    }
    forall i: nat, j: nat, k: nat, l: nat | IsLatest(messages, i, j) && IsLatest(messages, k, l)
      ensures i == k && j == l
    {
    }
    return ExtractFromPrompt(text.value);
  }

  // ---------------------------------------------------------------------------------------
  // Round trip
  // ---------------------------------------------------------------------------------------

  /** No line break directly after a colon, which is what the marker ends in. */
  predicate NoColonBreak(s: string) {
    forall i :: 0 <= i < |s| - 1 && s[i] == ':' ==> s[i + 1] != '\n'
  }

  /** Also safe to put anything after and to start a line with. */
  predicate Guarded(s: string) {
    s != [] && NoColonBreak(s) && s[0] != '\n' && s[|s| - 1] != ':'
  }

  lemma {:induction false} GuardedAppend(a: string, b: string)
    requires NoColonBreak(a) && NoColonBreak(b)
    requires a == [] || b == [] || a[|a| - 1] != ':' || b[0] != '\n'
    ensures NoColonBreak(a + b)
  {
  }

  /** Escaping leaves no line break inside a string. */
  lemma {:induction false} EscapedOneLine(s: string)
    ensures '\n' !in Escaped(s)
  {
    if s != [] {
      EscapedOneLine(s[1..]);
      assert '\n' !in EscapeChar(s[0]);
    }
  }

  lemma {:induction false} QuotedGuarded(s: string)
    ensures Guarded(Quoted(s)) && '\n' !in Quoted(s)
  {
    EscapedOneLine(s);
    assert forall i :: 0 <= i < |Quoted(s)| ==> Quoted(s)[i] in Quoted(s);
  }

  lemma {:induction false} DigitsGuarded(n: nat)
    ensures Digits(n) != [] && forall i :: 0 <= i < |Digits(n)| ==> IsDigit(Digits(n)[i])
  {
    HexRoundTrip(n % 10);
    if n >= 10 { DigitsGuarded(n / 10); }
  }

  lemma {:induction false} NewLineSafe(level: nat)
    ensures NoColonBreak(NewLine(level)) && ':' !in NewLine(level) && NewLine(level) != []
  {
    IndentSafe(level);
    assert forall i :: 0 <= i < |NewLine(level)| ==> NewLine(level)[i] in NewLine(level);
  }

  lemma {:induction false} IndentSafe(level: nat)
    ensures ':' !in Indent(level)
  {
    if level > 0 { IndentSafe(level - 1); }
  }

  /** `open`, an indented body and `close` around it. */
  lemma {:induction false} BracketGuarded(open: char, body: string, close: char, level: nat)
    requires Guarded(body) && open != '\n' && open != ':' && close != ':'
    ensures Guarded([open] + NewLine(level + 1) + body + NewLine(level) + [close])
  {
    NewLineSafe(level + 1);
    NewLineSafe(level);
    GuardedAppend([open], NewLine(level + 1));
    var a := [open] + NewLine(level + 1);
    assert a[|a| - 1] in NewLine(level + 1);
    GuardedAppend(a, body);
    GuardedAppend(a + body, NewLine(level));
    var b := a + body + NewLine(level);
    assert b[|b| - 1] in NewLine(level);
    GuardedAppend(b, [close]);
  }

  lemma {:induction false} SeparatedGuarded(a: string, level: nat, b: string)
    requires Guarded(a) && Guarded(b)
    ensures Guarded(a + "," + NewLine(level) + b)
  {
    NewLineSafe(level);
    GuardedAppend(a, ",");
    GuardedAppend(a + ",", NewLine(level));
    GuardedAppend(a + "," + NewLine(level), b);
  }

  lemma {:induction false} PrintGuarded(v: Value, level: nat)
    requires Printable(v)
    ensures Guarded(Print(v, level))
    decreases v
  {
    match v
    case Null =>
    case Bool(b) =>
    case Int(n) =>
      DigitsGuarded(if n < 0 then -n else n);
      var p := Print(v, level);
      assert forall i :: 0 <= i < |p| ==> p[i] == '-' || IsDigit(p[i]);
    case Str(s) => QuotedGuarded(s);
    case Arr(items) =>
      if items != [] {
        ItemsGuarded(items, level + 1);
        BracketGuarded('[', PrintItems(items, level + 1), ']', level);
      }
    case Obj(fields) =>
      if fields != [] {
        FieldsGuarded(fields, level + 1);
        BracketGuarded('{', PrintFields(fields, level + 1), '}', level);
      }
  }

  lemma {:induction false} ItemsGuarded(items: seq<Value>, level: nat)
    requires items != [] && forall x :: x in items ==> Printable(x)
    ensures Guarded(PrintItems(items, level))
    decreases items
  {
    hide Guarded, Print;
    PrintGuarded(items[0], level);
    if |items| > 1 {
      ItemsGuarded(items[1..], level);
      SeparatedGuarded(Print(items[0], level), level, PrintItems(items[1..], level));
    }
  }

  lemma {:induction false} FieldGuarded(f: Field, level: nat)
    requires Printable(f.value)
    ensures Guarded(Quoted(f.key) + ": " + Print(f.value, level))
    decreases f, 0
  {
    hide Quoted, Print;
    QuotedGuarded(f.key);
    PrintGuarded(f.value, level);
    GuardedAppend(Quoted(f.key), ": ");
    GuardedAppend(Quoted(f.key) + ": ", Print(f.value, level));
  }

  lemma {:induction false} FieldsGuarded(fields: Object, level: nat)
    requires fields != [] && forall f :: f in fields ==> Printable(f.value)
    ensures Guarded(PrintFields(fields, level))
    decreases fields
  {
    hide Guarded, Print, Quoted;
    FieldGuarded(fields[0], level);
    if |fields| > 1 {
      FieldsGuarded(fields[1..], level);
      SeparatedGuarded(Quoted(fields[0].key) + ": " + Print(fields[0].value, level), level,
          PrintFields(fields[1..], level));
    }
  }

  /** In a prompt the last marker is the one the builder put before the payload. */
  lemma {:induction false} LastMarkerIsReal(before: string, json: string)
    requires NoColonBreak(json)
    ensures var text := before + INPUT_JSON_MARKER + json; LastMarker(text, |text|) == |before|
  {
    var text := before + INPUT_JSON_MARKER + json;
    var n := |INPUT_JSON_MARKER|;
    assert n == 12 && INPUT_JSON_MARKER[10] == ':' && INPUT_JSON_MARKER[11] == '\n';
    assert text[|before|..|before| + n] == INPUT_JSON_MARKER;
    assert MarkerAt(text, |before|);
    forall i | |before| < i <= |text| ensures !MarkerAt(text, i) {
      if i + n <= |text| {
        var window := text[i..i + n];
        assert window[10] == text[i + 10] && window[11] == text[i + 11];
        var k := i + 10 - (|before| + n);
        if k >= 0 {
          assert text[i + 10] == json[k] && text[i + 11] == json[k + 1];
        } else if k == -1 {
          assert text[i + 10] == INPUT_JSON_MARKER[11];
        } else {
          assert false;
        }
      }
    }
    LastMarkerIs(text, |before|, |text|);
  }

  lemma {:induction false} LastMarkerIs(text: string, at: nat, from: int)
    requires at <= from <= |text| && MarkerAt(text, at) && forall i :: at < i <= from ==> !MarkerAt(text, i)
    ensures LastMarker(text, from) == at
  {
  }

  lemma {:induction false} ObjectStripped(o: Object)
    requires Printable(Obj(o))
    ensures Stripped(Print(Obj(o), 0))
  {
  }

  /** Any payload, after any instructions, is read back exactly; user text may hold the marker,
      line breaks, quotes or anything else. */
  lemma {:induction false} PromptRoundTrip(instructions: string, payload: Object)
    requires Printable(Obj(payload))
    ensures ExtractFromPrompt(BuildPrompt(instructions, payload)) == Payload(payload)
    ensures instructions + "INPUT_JSON:\n" <= BuildPrompt(instructions, payload)
  {
    hide Print, Loads, LastMarker, Strip, Stripped;
    var json := Print(Obj(payload), 0);
    PrintGuarded(Obj(payload), 0);
    LastMarkerIsReal(instructions, json);
    var text := BuildPrompt(instructions, payload);
    assert text[|instructions| + |INPUT_JSON_MARKER|..] == json;
    ObjectStripped(payload);
    StripNormal(json);
    LoadsPrinted(Obj(payload));
  }

  lemma {:induction false} StrategyPromptRoundTrip(
      instructions: string, jdText: string, preferenceText: string, version: string)
    ensures var r := ExtractFromPrompt(BuildStrategyPrompt(instructions, jdText, preferenceText, version));
      && r == Payload(StrategyPayload(jdText, preferenceText, version))
      && Get(r.fields, "jdText") == Str(jdText)
      && Get(r.fields, "sourcingPreferenceText") == Str(preferenceText)
      && Get(r.fields, "promptVersion") == Str(version)
  {
    hide ExtractFromPrompt, BuildPrompt;
    var o := StrategyPayload(jdText, preferenceText, version);
    PromptRoundTrip(instructions, o);
    assert Lookup(o, "jdText") == Some(Str(jdText));
    assert o[1..][0].key == "sourcingPreferenceText" && "jdText"[0] != "sourcingPreferenceText"[0];
    assert Lookup(o, "sourcingPreferenceText") == Lookup(o[1..], "sourcingPreferenceText") == Some(Str(preferenceText));
    assert o[1..][1..] == o[2..] && |o[0].key| == 6 && |o[1].key| == 22 && |"promptVersion"| == 13;
    assert Lookup(o, "promptVersion") == Lookup(o[1..], "promptVersion") == Lookup(o[2..], "promptVersion");
  }
}
