/**
 * The parser of `uci show` output: loops that consume the text, proved to
 * compute a function on lines, and the round trip through the printed form.
 */
module UciShow {
  import opened Common
  import opened ChangeSets
  import opened UciPrinter

  /** An option's value: one string, or a list of strings. */
  datatype Value = Text(text: string) | List(items: seq<string>)

  datatype UCISection = UCISection(id: string, typ: string, name: string, isAnon: bool, options: map<string, Value>)

  function Values(v: Value): seq<string> {
    match v
    case Text(text) => [text]
    case List(items) => items
  }

  /** One string stands for itself, any other number is a list. */
  function FromValues(values: seq<string>): (v: Value)
    ensures Values(v) == values
  {
    if |values| == 1 then Text(values[0]) else List(values)
  }

  // ---- Values -----------------------------------------------------------------

  /** The text starts with an escaped single quote. */
  predicate StartsEscape(raw: string) {
    |raw| >= 4 && raw[0] == '\'' && raw[1] == '\\' && raw[2] == '\'' && raw[3] == '\''
  }

  /** Reads up to the closing quote; the opening one is already consumed. */
  function ReadQuoted(raw: string): (r: (string, string))
    ensures |r.1| <= |raw|
  {
    if raw == "" then ("", "")
    else if StartsEscape(raw) then
      var (v, rest) := ReadQuoted(raw[4..]);
      (['\''] + v, rest)
    else if raw[0] == '\'' then ("", raw[1..])
    else
      var (v, rest) := ReadQuoted(raw[1..]);
      ([raw[0]] + v, rest)
  }

  /** The quoted values of a line, up to anything that is not quoted. */
  function ReadValues(raw: string): seq<string>
    decreases |raw|
  {
    var t := TrimSpace(raw);
    if t == "" || t[0] != '\'' then [] else
      var (v, rest) := ReadQuoted(t[1..]);
      [v] + ReadValues(rest)
  }

  function TrimQuotesLeft(s: string): string {
    if s != "" && s[0] == '\'' then TrimQuotesLeft(s[1..]) else s
  }

  function TrimQuotes(s: string): string {
    if s != "" && s[|s| - 1] == '\'' then TrimQuotes(s[..|s| - 1]) else TrimQuotesLeft(s)
  }

  function ParseValue(raw: string): Value {
    var t := TrimSpace(raw);
    if t == "" || t[0] != '\'' then Text(TrimQuotes(t)) else FromValues(ReadValues(t))
  }

  function Behind(value: string, r: (string, string)): (string, string) {
    (value + r.0, r.1)
  }

  lemma ReadEscape(value: string, raw: string)
    requires StartsEscape(raw)
    ensures Behind(value, ReadQuoted(raw)) == Behind(value + "'", ReadQuoted(raw[4..]))
  {
    var r := ReadQuoted(raw[4..]);
    assert ReadQuoted(raw) == (['\''] + r.0, r.1);
    assert value + (['\''] + r.0) == (value + "'") + r.0;
  }

  lemma ReadClosing(value: string, raw: string)
    requires raw != "" && raw[0] == '\'' && !StartsEscape(raw)
    ensures Behind(value, ReadQuoted(raw)) == (value, raw[1..])
  {
    assert value + "" == value;
  }

  lemma ReadPlain(value: string, raw: string)
    requires raw != "" && raw[0] != '\''
    ensures Behind(value, ReadQuoted(raw)) == Behind(value + [raw[0]], ReadQuoted(raw[1..]))
  {
    var r := ReadQuoted(raw[1..]);
    assert ReadQuoted(raw) == ([raw[0]] + r.0, r.1);
    assert value + ([raw[0]] + r.0) == (value + [raw[0]]) + r.0;
  }

  /** One quoted value: what was read, and the text behind its closing quote. */
  method TakeQuoted(text: string) returns (value: string, raw: string)
    ensures (value, raw) == ReadQuoted(text)
  {
    value, raw := "", text;
    assert "" + ReadQuoted(text).0 == ReadQuoted(text).0;
    while raw != ""
      invariant ReadQuoted(text) == Behind(value, ReadQuoted(raw))
      decreases |raw|
    {
      if StartsEscape(raw) {
        ReadEscape(value, raw);
        value := value + "'";
        raw := raw[4..];
        continue;
      }
      if raw[0] == '\'' {
        ReadClosing(value, raw);
        raw := raw[1..];
        return;
      }
      ReadPlain(value, raw);
      value := value + [raw[0]];
      raw := raw[1..];
    }
    assert value + "" == value;
  }

  /** `parseUCIValue`. */
  method ParseUCIValue(text: string) returns (v: Value)
    ensures v == ParseValue(text)
  {
    var raw := TrimSpace(text);
    if raw == "" || raw[0] != '\'' {
      return Text(TrimQuotes(raw));
    }
    var values: seq<string> := [];
    ghost var all := ReadValues(raw);
    assert [] + all == all;
    while raw != ""
      invariant all == values + ReadValues(raw)
      decreases |raw|
    {
      ghost var rest := ReadValues(raw);
      raw := TrimSpace(raw);
      if raw == "" || raw[0] != '\'' {
        break;
      }
      var value;
      value, raw := TakeQuoted(raw[1..]);
      assert values + ([value] + ReadValues(raw)) == (values + [value]) + ReadValues(raw);
      values := values + [value];
    }
    assert values + [] == values;
    return if |values| == 1 then Text(values[0]) else List(values);
  }

  // ---- Lines ------------------------------------------------------------------

  datatype Parsed = Parsed(order: seq<string>, sections: map<string, UCISection>)

  const NOTHING := Parsed([], map[])

  predicate IsAnonymous(id: string) { id != "" && id[0] == '@' }

  function Ensure(p: Parsed, id: string, typ: string): Parsed {
    if id in p.sections then p
    else Parsed(p.order + [id], p.sections[id := UCISection(id, typ, id, IsAnonymous(id), map[])])
  }

  function DeclareSection(p: Parsed, id: string, v: Value): Parsed {
    if id !in p.sections then Ensure(p, id, if v.Text? then v.text else "")
    else if v.Text? then p.(sections := p.sections[id := p.sections[id].(typ := v.text)])
    else p
  }

  function Merge(v: Value, next: Value): Value { FromValues(Values(v) + Values(next)) }

  function AddOption(p: Parsed, id: string, key: string, v: Value): Parsed {
    var q := Ensure(p, id, "");
    var section := q.sections[id];
    var merged := if key in section.options then Merge(section.options[key], v) else v;
    q.(sections := q.sections[id := section.(options := section.options[key := merged])])
  }

  /** What one line of output adds. */
  function ReadLine(config: string, p: Parsed, text: string): Parsed {
    var line := TrimSpace(text);
    if line == "" || !(config + "." <= line) then p
    else
      var parts := Cut(line[|config| + 1..], '=');
      if parts.None? then p
      else
        var v := ParseValue(parts.value.1);
        var key := Cut(parts.value.0, '.');
        if key.None? then DeclareSection(p, parts.value.0, v)
        else AddOption(p, key.value.0, key.value.1, v)
  }

  function ReadLines(config: string, p: Parsed, lines: seq<string>): Parsed
    decreases |lines|
  {
    if lines == [] then p else
      var n := |lines| - 1;
      ReadLine(config, ReadLines(config, p, lines[..n]), lines[n])
  }

  ghost predicate Complete(p: Parsed) {
    forall i | 0 <= i < |p.order| :: p.order[i] in p.sections
  }

  lemma {:induction false} LinesAreComplete(config: string, p: Parsed, lines: seq<string>)
    requires Complete(p)
    ensures Complete(ReadLines(config, p, lines))
    decreases |lines|
  {
    if lines != [] {
      LinesAreComplete(config, p, lines[..|lines| - 1]);
    }
  }

  function Sections(p: Parsed): seq<UCISection>
    requires Complete(p)
  {
    seq(|p.order|, i requires 0 <= i < |p.order| => p.sections[p.order[i]])
  }

  function Show(raw: string, config: string): seq<UCISection> {
    LinesAreComplete(config, NOTHING, SplitLines(raw));
    Sections(ReadLines(config, NOTHING, SplitLines(raw)))
  }

  /** `parseUciShow`. */
  method ParseUciShow(raw: string, config: string) returns (result: seq<UCISection>)
    ensures result == Show(raw, config)
  {
    var sectionMap: map<string, UCISection> := map[];
    var order: seq<string> := [];
    var lines := SplitLines(raw);
    for i := 0 to |lines|
      invariant Parsed(order, sectionMap) == ReadLines(config, NOTHING, lines[..i])
    {
      assert lines[..i + 1][..i] == lines[..i];
      var line := TrimSpace(lines[i]);
      if line == "" || !(config + "." <= line) {
        continue;
      }
      var parts := Cut(line[|config| + 1..], '=');
      if parts.None? {
        continue;
      }
      var value := ParseUCIValue(parts.value.1);
      var key := Cut(parts.value.0, '.');
      if key.None? {
        var id := parts.value.0;
        if id !in sectionMap {
          sectionMap := sectionMap[id := UCISection(id, if value.Text? then value.text else "", id, IsAnonymous(id), map[])];
          order := order + [id];
        } else if value.Text? {
          sectionMap := sectionMap[id := sectionMap[id].(typ := value.text)];
        }
      } else {
        var (id, option) := key.value;
        if id !in sectionMap {
          sectionMap := sectionMap[id := UCISection(id, "", id, IsAnonymous(id), map[])];
          order := order + [id];
        }
        var options := sectionMap[id].options;
        var merged := if option in options then Merge(options[option], value) else value;
        sectionMap := sectionMap[id := sectionMap[id].(options := options[option := merged])];
      }
    }
    assert lines[..|lines|] == lines;
    LinesAreComplete(config, NOTHING, lines);
    result := [];
    for i := 0 to |order|
      invariant |result| == i
      invariant forall k | 0 <= k < i :: result[k] == sectionMap[order[k]]
    {
      result := result + [sectionMap[order[i]]];
    }
  }

  // ---- The printed form ----------------------------------------------------------

  /** A section as `uci show` prints it: options in some order. */
  datatype Shown = Shown(id: string, typ: string, options: seq<(string, Value)>)

  function PrintList(values: seq<string>): string {
    if values == [] then ""
    else if |values| == 1 then ShellQuote(values[0])
    else Spaced(ShellQuote(values[0]), PrintList(values[1..]))
  }

  function PrintValue(v: Value): string { PrintList(Values(v)) }

  function OptionLine(config: string, id: string, option: (string, Value)): string {
    config + "." + (id + "." + option.0 + "=" + PrintValue(option.1))
  }

  function OptionLines(config: string, id: string, options: seq<(string, Value)>): seq<string> {
    seq(|options|, i requires 0 <= i < |options| => OptionLine(config, id, options[i]))
  }

  function SectionLine(config: string, s: Shown): string {
    config + "." + (s.id + "=" + s.typ)
  }

  function SectionLines(config: string, s: Shown): seq<string> {
    [SectionLine(config, s)] + OptionLines(config, s.id, s.options)
  }

  function AllLines(config: string, sections: seq<Shown>): seq<string> {
    if sections == [] then [] else
      var n := |sections| - 1;
      AllLines(config, sections[..n]) + SectionLines(config, sections[n])
  }

  function JoinLines(lines: seq<string>): string {
    if lines == [] then "" else lines[0] + "\n" + JoinLines(lines[1..])
  }

  /** The whole output, every line ended by a newline. */
  function PrintShow(config: string, sections: seq<Shown>): string { JoinLines(AllLines(config, sections)) }

  function OptionMap(options: seq<(string, Value)>): map<string, Value> {
    if options == [] then map[] else
      var n := |options| - 1;
      OptionMap(options[..n])[options[n].0 := options[n].1]
  }

  function SectionOf(s: Shown): UCISection {
    UCISection(s.id, s.typ, s.id, IsAnonymous(s.id), OptionMap(s.options))
  }

  function SectionsOf(sections: seq<Shown>): seq<UCISection> {
    seq(|sections|, i requires 0 <= i < |sections| => SectionOf(sections[i]))
  }

  predicate NoNewline(v: Value) {
    forall i | 0 <= i < |Values(v)| :: '\n' !in Values(v)[i]
  }

  /** A value that can be printed: a string, or a list of at least two. */
  predicate Printable(v: Value) {
    NoNewline(v) && (v.List? ==> |v.items| >= 2)
  }

  predicate ShownOk(s: Shown) {
    && ValidSection(s.id) && ValidName(s.typ)
    && (forall i | 0 <= i < |s.options| :: ValidName(s.options[i].0) && Printable(s.options[i].1))
    && (forall i, j | 0 <= i < j < |s.options| :: s.options[i].0 != s.options[j].0)
  }

  predicate AllShownOk(sections: seq<Shown>) {
    && (forall i | 0 <= i < |sections| :: ShownOk(sections[i]))
    && (forall i, j | 0 <= i < j < |sections| :: sections[i].id != sections[j].id)
  }

  // ---- Round trip of values --------------------------------------------------------

  lemma {:induction false} ReadEscaped(s: string, rest: string)
    requires rest == "" || rest[0] != '\\'
    ensures ReadQuoted(EscapeVal(s) + "'" + rest) == (s, rest)
    decreases s
  {
    var raw := EscapeVal(s) + "'" + rest;
    if s == "" {
      assert raw == "'" + rest;
      assert rest != "" ==> raw[1] == rest[0];
      assert raw[1..] == rest;
    } else {
      var tail := EscapeVal(s[1..]) + "'" + rest;
      var head := if s[0] == '\'' then QUOTE_ESCAPE else [s[0]];
      assert raw == head + tail;
      ReadEscaped(s[1..], rest);
      if s[0] == '\'' {
        assert raw[4..] == tail;
      } else {
        assert raw[0] == s[0];
        assert raw[1..] == tail;
      }
      assert [s[0]] + s[1..] == s;
    }
  }

  lemma TrimNothing(s: string)
    requires s != "" && !IsSpace(s[0]) && !IsSpace(s[|s| - 1])
    ensures TrimSpace(s) == s && TrimSpace(" " + s) == s
  {
    assert (" " + s)[1..] == s;
  }

  lemma ReadFirst(value: string, rest: string)
    requires rest == "" || rest[0] == ' '
    ensures ReadQuoted((ShellQuote(value) + rest)[1..]) == (value, rest)
  {
    assert (ShellQuote(value) + rest)[1..] == EscapeVal(value) + "'" + rest;
    ReadEscaped(value, rest);
  }

  /** A printed list is read back, with or without the blank that separates it from what came before. */
  lemma ReadNextValue(text: string, value: string, rest: string)
    requires TrimSpace(text) == ShellQuote(value) + rest && (rest == "" || rest[0] == ' ')
    ensures ReadValues(text) == [value] + ReadValues(rest)
  {
    ReadFirst(value, rest);
  }

  /** A text that starts and ends with a quote and is read as these values, also behind a blank. */
  predicate ReadsAs(text: string, values: seq<string>) {
    && text != "" && text[0] == '\'' && text[|text| - 1] == '\''
    && ReadValues(text) == values && ReadValues(" " + text) == values
  }

  lemma QuotedReads(value: string)
    ensures ReadsAs(ShellQuote(value), [value])
  {
    var text := ShellQuote(value);
    TrimNothing(text);
    assert text == text + "" && ReadValues("") == [];
    ReadNextValue(text, value, "");
    ReadNextValue(" " + text, value, "");
    assert [value] + [] == [value];
  }

  lemma SpacedReads(value: string, more: string, values: seq<string>)
    requires ReadsAs(more, values)
    ensures ReadsAs(Spaced(ShellQuote(value), more), [value] + values)
  {
    var text := ShellQuote(value) + (" " + more);
    assert text[|text| - 1] == more[|more| - 1];
    TrimNothing(text);
    ReadNextValue(text, value, " " + more);
    ReadNextValue(" " + text, value, " " + more);
  }

  lemma FirstAndMore(values: seq<string>)
    requires |values| > 1
    ensures PrintList(values) == Spaced(ShellQuote(values[0]), PrintList(values[1..]))
  {
  }

  lemma HeadAndTail(values: seq<string>)
    requires values != []
    ensures values == [values[0]] + values[1..]
  {
  }

  lemma LongerListReads(values: seq<string>)
    requires |values| > 1 && ReadsAs(PrintList(values[1..]), values[1..])
    ensures ReadsAs(PrintList(values), values)
  {
    FirstAndMore(values);
    HeadAndTail(values);
    SpacedReads(values[0], PrintList(values[1..]), values[1..]);
  }

  lemma {:induction false} PrintedListReads(values: seq<string>)
    requires values != []
    ensures ReadsAs(PrintList(values), values)
    decreases |values|
  {
    if |values| == 1 {
      QuotedReads(values[0]);
      assert values == [values[0]];
    } else {
      PrintedListReads(values[1..]);
      LongerListReads(values);
    }
  }

  /** Parsing a printed value gives it back, quotes and backslashes included. */
  lemma ParsePrintedValue(v: Value)
    requires Printable(v)
    ensures ParseValue(PrintValue(v)) == v
  {
    PrintedListReads(Values(v));
    TrimNothing(PrintValue(v));
  }

  lemma ParseName(s: string)
    requires ValidName(s)
    ensures ParseValue(s) == Text(s)
  {
    TrimNothing(s);
  }

  // ---- Round trip of lines -----------------------------------------------------------

  /** A line whose text neither starts nor ends with white space and carries the config prefix. */
  lemma ReadBareLine(config: string, p: Parsed, key: string, text: string)
    requires ValidName(config) && key != "" && '=' !in key
    requires text != "" && !IsSpace(text[|text| - 1])
    ensures ReadLine(config, p, config + "." + (key + "=" + text)) ==
            var v := ParseValue(text);
            var parts := Cut(key, '.');
            if parts.None? then DeclareSection(p, key, v) else AddOption(p, parts.value.0, parts.value.1, v)
  {
    var line := config + "." + (key + "=" + text);
    TrimNothing(line);
    assert line[..|config| + 1] == config + ".";
    assert line[|config| + 1..] == key + ['='] + text;
    CutFirst(key, '=', text);
  }

  lemma ReadSectionLine(config: string, p: Parsed, s: Shown)
    requires ValidName(config) && ValidSection(s.id) && ValidName(s.typ) && s.id !in p.sections
    ensures ReadLine(config, p, SectionLine(config, s)) == Ensure(p, s.id, s.typ)
  {
    SectionsAreAtoms(s.id);
    ReadBareLine(config, p, s.id, s.typ);
    ParseName(s.typ);
    CutNothing(s.id, '.');
  }

  lemma ReadOptionLine(config: string, p: Parsed, id: string, option: (string, Value))
    requires ValidName(config) && ValidSection(id) && ValidName(option.0) && Printable(option.1)
    ensures ReadLine(config, p, OptionLine(config, id, option)) == AddOption(p, id, option.0, option.1)
  {
    SectionsAreAtoms(id);
    NamesAreAtoms(option.0);
    var key := id + "." + option.0;
    PrintedListReads(Values(option.1));
    assert OptionLine(config, id, option) == config + "." + (key + "=" + PrintValue(option.1));
    ReadBareLine(config, p, key, PrintValue(option.1));
    ParsePrintedValue(option.1);
    assert key == id + ['.'] + option.0;
    CutFirst(id, '.', option.0);
  }

  lemma {:induction false} OptionMapKeys(options: seq<(string, Value)>, key: string)
    ensures key in OptionMap(options) <==> exists i | 0 <= i < |options| :: options[i].0 == key
  {
    if options != [] {
      OptionMapKeys(options[..|options| - 1], key);
    }
  }

  /** The state once the first k options of a declared section are read. */
  function WithOptions(p: Parsed, s: Shown, k: nat): Parsed
    requires k <= |s.options|
  {
    p.(sections := p.sections[s.id := SectionOf(s.(options := s.options[..k]))])
  }

  lemma NextOption(p: Parsed, s: Shown, k: nat)
    requires 0 < k <= |s.options| && s.id in p.sections
    requires forall i, j | 0 <= i < j < |s.options| :: s.options[i].0 != s.options[j].0
    ensures AddOption(WithOptions(p, s, k - 1), s.id, s.options[k - 1].0, s.options[k - 1].1) == WithOptions(p, s, k)
  {
    var option := s.options[k - 1];
    OptionMapKeys(s.options[..k - 1], option.0);
    assert s.options[..k][..k - 1] == s.options[..k - 1];
    var earlier, section := SectionOf(s.(options := s.options[..k - 1])), SectionOf(s.(options := s.options[..k]));
    assert section == earlier.(options := earlier.options[option.0 := option.1]);
    assert p.sections[s.id := earlier][s.id := section] == p.sections[s.id := section];
  }

  lemma ReadLast(config: string, p: Parsed, lines: seq<string>, k: nat)
    requires 0 < k <= |lines|
    ensures ReadLines(config, p, lines[..k]) == ReadLine(config, ReadLines(config, p, lines[..k - 1]), lines[k - 1])
  {
    assert lines[..k][..k - 1] == lines[..k - 1];
  }

  lemma NoOptionsYet(p: Parsed, s: Shown)
    requires s.id in p.sections && p.sections[s.id] == SectionOf(s.(options := []))
    ensures WithOptions(p, s, 0) == p
  {
    assert s.options[..0] == [];
    assert p.sections[s.id := p.sections[s.id]] == p.sections;
  }

  lemma {:induction false} ReadOptionLines(config: string, p: Parsed, s: Shown, k: nat)
    requires ValidName(config) && ShownOk(s) && k <= |s.options|
    requires s.id in p.sections && p.sections[s.id] == SectionOf(s.(options := []))
    ensures ReadLines(config, p, OptionLines(config, s.id, s.options)[..k]) == WithOptions(p, s, k)
    decreases k
  {
    if k == 0 {
      NoOptionsYet(p, s);
    } else {
      ReadOptionLines(config, p, s, k - 1);
      ReadLast(config, p, OptionLines(config, s.id, s.options), k);
      ReadOptionLine(config, WithOptions(p, s, k - 1), s.id, s.options[k - 1]);
      NextOption(p, s, k);
    }
  }

  lemma {:induction false} ReadLinesTogether(config: string, p: Parsed, a: seq<string>, b: seq<string>)
    ensures ReadLines(config, p, a + b) == ReadLines(config, ReadLines(config, p, a), b)
    decreases |b|
  {
    if b == [] {
      assert a + b == a;
    } else {
      var n := |b| - 1;
      assert (a + b)[..|a + b| - 1] == a + b[..n];
      ReadLinesTogether(config, p, a, b[..n]);
    }
  }

  /** The lines of a new section add exactly that section. */
  lemma ReadSectionLines(config: string, p: Parsed, s: Shown)
    requires ValidName(config) && ShownOk(s) && s.id !in p.sections
    ensures ReadLines(config, p, SectionLines(config, s)) == Parsed(p.order + [s.id], p.sections[s.id := SectionOf(s)])
  {
    var declared := Ensure(p, s.id, s.typ);
    var first, more := [SectionLine(config, s)], OptionLines(config, s.id, s.options);
    ReadSectionLine(config, p, s);
    ReadLinesTogether(config, p, first, more);
    ReadOptionLines(config, declared, s, |s.options|);
    assert more[..|more|] == more && s.options[..|s.options|] == s.options;
    SameSections(p, s);
  }

  lemma SameSections(p: Parsed, s: Shown)
    requires s.id !in p.sections
    ensures var declared := Ensure(p, s.id, s.typ);
            declared.(sections := declared.sections[s.id := SectionOf(s)]) == Parsed(p.order + [s.id], p.sections[s.id := SectionOf(s)])
  {
    var declared := Ensure(p, s.id, s.typ);
    assert declared.sections[s.id := SectionOf(s)] == p.sections[s.id := SectionOf(s)];
  }

  /** The parsed state holds exactly these sections, in order. */
  ghost predicate Holds(p: Parsed, sections: seq<Shown>) {
    && |p.order| == |sections|
    && (forall i | 0 <= i < |sections| :: p.order[i] == sections[i].id)
    && (forall i | 0 <= i < |sections| :: sections[i].id in p.sections && p.sections[sections[i].id] == SectionOf(sections[i]))
    && (forall id | id in p.sections :: id in p.order)
  }

  lemma HoldsOneMore(p: Parsed, sections: seq<Shown>, s: Shown)
    requires Holds(p, sections) && forall i | 0 <= i < |sections| :: sections[i].id != s.id
    ensures s.id !in p.sections
    ensures Holds(Parsed(p.order + [s.id], p.sections[s.id := SectionOf(s)]), sections + [s])
  {
    var order, grown := p.order + [s.id], p.sections[s.id := SectionOf(s)];
    forall id | id in grown ensures id in order {
      assert id == s.id || id in p.order;
    }
  }

  lemma ReadOneMore(config: string, p: Parsed, sections: seq<Shown>, s: Shown)
    requires ValidName(config) && ShownOk(s) && Holds(p, sections) && forall i | 0 <= i < |sections| :: sections[i].id != s.id
    ensures Holds(ReadLines(config, p, SectionLines(config, s)), sections + [s])
  {
    HoldsOneMore(p, sections, s);
    ReadSectionLines(config, p, s);
  }

  /** Reading the lines of all sections gives all sections, in order. */
  lemma {:induction false} ReadAllLines(config: string, sections: seq<Shown>)
    requires ValidName(config) && AllShownOk(sections)
    ensures Holds(ReadLines(config, NOTHING, AllLines(config, sections)), sections)
    decreases |sections|
  {
    if sections != [] {
      var n := |sections| - 1;
      var front, last := sections[..n], sections[n];
      ReadAllLines(config, front);
      var q := ReadLines(config, NOTHING, AllLines(config, front));
      ReadOneMore(config, q, front, last);
      assert front + [last] == sections;
      LinesOfOneMore(config, sections, q);
    }
  }

  lemma LinesOfOneMore(config: string, sections: seq<Shown>, q: Parsed)
    requires sections != [] && q == ReadLines(config, NOTHING, AllLines(config, sections[..|sections| - 1]))
    ensures ReadLines(config, NOTHING, AllLines(config, sections)) == ReadLines(config, q, SectionLines(config, sections[|sections| - 1]))
  {
    ReadLinesTogether(config, NOTHING, AllLines(config, sections[..|sections| - 1]), SectionLines(config, sections[|sections| - 1]));
  }

  // ---- Round trip of the whole output ---------------------------------------------------

  lemma {:induction false} SplitFirst(line: string, rest: string)
    requires '\n' !in line
    ensures SplitLines(line + "\n" + rest) == [line] + SplitLines(rest)
    decreases line
  {
    var text := line + "\n" + rest;
    if line == "" {
      assert text[1..] == rest;
      assert [""] + SplitLines(rest) == [line] + SplitLines(rest);
    } else {
      assert text[0] == line[0] && text[1..] == line[1..] + "\n" + rest;
      SplitFirst(line[1..], rest);
      assert [line[0]] + line[1..] == line;
    }
  }

  lemma {:induction false} SplitJoined(lines: seq<string>)
    requires forall i | 0 <= i < |lines| :: '\n' !in lines[i]
    ensures SplitLines(JoinLines(lines)) == lines + [""]
    decreases lines
  {
    if lines == [] {
      assert lines + [""] == [""];
    } else {
      SplitFirst(lines[0], JoinLines(lines[1..]));
      SplitJoined(lines[1..]);
      assert [lines[0]] + (lines[1..] + [""]) == lines + [""];
    }
  }

  lemma {:induction false} EscapeAddsNoNewline(s: string)
    requires '\n' !in s
    ensures '\n' !in EscapeVal(s)
  {
    if s != "" {
      EscapeAddsNoNewline(s[1..]);
    }
  }

  lemma {:induction false} PrintAddsNoNewline(values: seq<string>)
    requires forall i | 0 <= i < |values| :: '\n' !in values[i]
    ensures '\n' !in PrintList(values)
    decreases |values|
  {
    if values != [] {
      EscapeAddsNoNewline(values[0]);
      if |values| > 1 {
        PrintAddsNoNewline(values[1..]);
      }
    }
  }

  lemma SectionLinesHaveNoNewline(config: string, s: Shown)
    requires ValidName(config) && ShownOk(s)
    ensures forall i | 0 <= i < |SectionLines(config, s)| :: '\n' !in SectionLines(config, s)[i]
  {
    SectionsAreAtoms(s.id);
    forall i | 0 <= i < |SectionLines(config, s)| ensures '\n' !in SectionLines(config, s)[i] {
      if i > 0 {
        var option := s.options[i - 1];
        PrintAddsNoNewline(Values(option.1));
        assert SectionLines(config, s)[i] == OptionLine(config, s.id, option);
      }
    }
  }

  lemma {:induction false} LinesHaveNoNewline(config: string, sections: seq<Shown>)
    requires ValidName(config) && AllShownOk(sections)
    ensures forall i | 0 <= i < |AllLines(config, sections)| :: '\n' !in AllLines(config, sections)[i]
    decreases |sections|
  {
    if sections != [] {
      var n := |sections| - 1;
      LinesHaveNoNewline(config, sections[..n]);
      SectionLinesHaveNoNewline(config, sections[n]);
    }
  }

  /**
   * Round trip: parsing the printed form of any list of sections with valid,
   * distinct names and newline-free values gives the sections back.
   */
  lemma ParsePrintedSections(config: string, sections: seq<Shown>)
    requires ValidName(config) && AllShownOk(sections)
    ensures Show(PrintShow(config, sections), config) == SectionsOf(sections)
  {
    var lines := AllLines(config, sections);
    LinesHaveNoNewline(config, sections);
    SplitJoined(lines);
    ReadLinesTogether(config, NOTHING, lines, [""]);
    var p := ReadLines(config, NOTHING, lines);
    assert [""][..0] == [];
    assert ReadLines(config, p, [""]) == p;
    ReadAllLines(config, sections);
  }
}
