/**
 * What a parsed configuration says about its lines: every section and option,
 * its type and its values, told from the lines that mention it.
 */
module UciLines {
  import opened Common
  import opened ChangeSets
  import opened UciShow

  // ---- What a line says ---------------------------------------------------------

  /** A line declares a section, gives a value to an option, or says nothing. */
  datatype Saying = Silent | Declares(id: string, value: Value) | Gives(id: string, key: string, value: Value)

  /** The line reads `config.id=value` or `config.id.key=value`, up to blanks around it. */
  function SayingOf(config: string, text: string): Saying {
    var line := TrimSpace(text);
    if |line| <= |config| || line[..|config|] != config || line[|config|] != '.' then Silent
    else match Cut(line[|config| + 1..], '=')
      case None => Silent
      case Some((path, raw)) =>
        match Cut(path, '.')
        case None => Declares(path, ParseValue(raw))
        case Some((id, key)) => Gives(id, key, ParseValue(raw))
  }

  function Mentioned(s: Saying): Option<string> {
    match s
    case Silent => None
    case Declares(id, _) => Some(id)
    case Gives(id, _, _) => Some(id)
  }

  function Sayings(config: string, lines: seq<string>): seq<Saying> {
    seq(|lines|, i requires 0 <= i < |lines| => SayingOf(config, lines[i]))
  }

  /** The ids that are mentioned, each where it first occurs. */
  function Ids(said: seq<Saying>): seq<string> {
    if said == [] then [] else
      var n := |said| - 1;
      var front, id := Ids(said[..n]), Mentioned(said[n]);
      if id.None? || id.value in front then front else front + [id.value]
  }

  /** The type that was declared last, as one text. */
  function TypeOf(said: seq<Saying>, id: string): string {
    if said == [] then "" else
      var n := |said| - 1;
      if said[n].Declares? && said[n].id == id && said[n].value.Text? then said[n].value.text else TypeOf(said[..n], id)
  }

  /** All values that an option is given, in order; None when it is given none. */
  function GivenTo(said: seq<Saying>, id: string, key: string): Option<seq<string>> {
    if said == [] then None else
      var n := |said| - 1;
      var front := GivenTo(said[..n], id, key);
      if said[n].Gives? && said[n].id == id && said[n].key == key
      then Some((if front.Some? then front.value else []) + Values(said[n].value)) else front
  }

  // ---- The parse, line by line --------------------------------------------------------

  ghost predicate OptionIs(section: UCISection, key: string, given: Option<seq<string>>) {
    if key in section.options then Some(Values(section.options[key])) == given else given == None
  }

  ghost predicate OptionsAre(p: Parsed, said: seq<Saying>) {
    forall id, key | id in p.sections :: OptionIs(p.sections[id], key, GivenTo(said, id, key))
  }

  ghost predicate SectionIs(section: UCISection, id: string, typ: string) {
    section.id == id && section.name == id && section.typ == typ && (section.isAnon <==> id != "" && id[0] == '@')
  }

  ghost predicate SectionsAre(p: Parsed, said: seq<Saying>) {
    && p.order == Ids(said)
    && (forall id :: id in p.sections <==> id in p.order)
    && (forall id | id in p.sections :: SectionIs(p.sections[id], id, TypeOf(said, id)))
  }

  /** The effect of one line on the parse. */
  function Told(p: Parsed, s: Saying): Parsed {
    match s
    case Silent => p
    case Declares(id, v) => DeclareSection(p, id, v)
    case Gives(id, key, v) => AddOption(p, id, key, v)
  }

  lemma LineIsTold(config: string, p: Parsed, text: string)
    ensures ReadLine(config, p, text) == Told(p, SayingOf(config, text))
  {
    var line := TrimSpace(text);
    assert config + "." <= line <==> |line| > |config| && line[..|config|] == config && line[|config|] == '.' by {
      if |line| > |config| && line[..|config|] == config && line[|config|] == '.' {
        assert line[..|config| + 1] == config + ".";
      }
      if config + "." <= line {
        assert line[..|config| + 1] == config + ".";
        assert line[..|config|] == (config + ".")[..|config|];
      }
    }
  }

  lemma {:induction false} UnmentionedIsNew(said: seq<Saying>, id: string, key: string)
    requires id !in Ids(said)
    ensures TypeOf(said, id) == "" && GivenTo(said, id, key) == None
    decreases |said|
  {
    if said != [] {
      UnmentionedIsNew(said[..|said| - 1], id, key);
    }
  }

  lemma OrderMoves(p: Parsed, said: seq<Saying>, s: Saying)
    requires p.order == Ids(said) && forall id :: id in p.sections <==> id in p.order
    ensures Told(p, s).order == Ids(said + [s]) && forall id :: id in Told(p, s).sections <==> id in Told(p, s).order
  {
    assert (said + [s])[..|said|] == said;
    var order := Told(p, s).order;
    assert order == p.order || (Mentioned(s).Some? && order == p.order + [Mentioned(s).value]);
  }

  lemma SectionMoves(p: Parsed, said: seq<Saying>, s: Saying, id: string)
    requires SectionsAre(p, said) && id in Told(p, s).sections
    ensures SectionIs(Told(p, s).sections[id], id, TypeOf(said + [s], id))
  {
    assert (said + [s])[..|said|] == said;
    if id in p.sections {
      assert SectionIs(p.sections[id], id, TypeOf(said, id));
    } else {
      UnmentionedIsNew(said, id, "");
    }
  }

  lemma OneMoreSection(p: Parsed, said: seq<Saying>, s: Saying)
    requires SectionsAre(p, said)
    ensures SectionsAre(Told(p, s), said + [s])
  {
    OrderMoves(p, said, s);
    forall id | id in Told(p, s).sections ensures SectionIs(Told(p, s).sections[id], id, TypeOf(said + [s], id)) {
      SectionMoves(p, said, s, id);
    }
  }

  lemma OptionMoves(p: Parsed, said: seq<Saying>, s: Saying, id: string, key: string)
    requires SectionsAre(p, said) && OptionsAre(p, said) && id in Told(p, s).sections
    ensures OptionIs(Told(p, s).sections[id], key, GivenTo(said + [s], id, key))
  {
    assert (said + [s])[..|said|] == said;
    if id in p.sections {
      assert OptionIs(p.sections[id], key, GivenTo(said, id, key));
    } else {
      UnmentionedIsNew(said, id, key);
    }
    if s.Gives? {
      assert [] + Values(s.value) == Values(s.value);
    }
  }

  ghost predicate IsTold(p: Parsed, said: seq<Saying>) { SectionsAre(p, said) && OptionsAre(p, said) }

  lemma OneMoreIsTold(p: Parsed, said: seq<Saying>, s: Saying)
    requires IsTold(p, said)
    ensures IsTold(Told(p, s), said + [s])
  {
    OneMoreSection(p, said, s);
    forall id, key | id in Told(p, s).sections ensures OptionIs(Told(p, s).sections[id], key, GivenTo(said + [s], id, key)) {
      OptionMoves(p, said, s, id, key);
    }
  }

  lemma SayingsGrow(config: string, lines: seq<string>)
    requires lines != []
    ensures Sayings(config, lines) == Sayings(config, lines[..|lines| - 1]) + [SayingOf(config, lines[|lines| - 1])]
  {
  }

  /**
   * The parse of any output, told from its lines: the sections are those that
   * lines mention, in the order of their first mention; each has the type
   * declared last, and each option the values that lines give it, in order.
   */
  lemma {:induction false} ParsedIsTold(config: string, lines: seq<string>)
    ensures IsTold(ReadLines(config, NOTHING, lines), Sayings(config, lines))
    decreases |lines|
  {
    if lines != [] {
      var n := |lines| - 1;
      var p := ReadLines(config, NOTHING, lines[..n]);
      ParsedIsTold(config, lines[..n]);
      LineIsTold(config, p, lines[n]);
      OneMoreIsTold(p, Sayings(config, lines[..n]), SayingOf(config, lines[n]));
      SayingsGrow(config, lines);
    }
  }

  lemma {:induction false} IdsAreDistinct(said: seq<Saying>)
    ensures forall i, j | 0 <= i < j < |Ids(said)| :: Ids(said)[i] != Ids(said)[j]
    decreases |said|
  {
    if said != [] {
      IdsAreDistinct(said[..|said| - 1]);
    }
  }

  /** The listed sections themselves: one for each id, with its name, its type and exactly the options that lines give it. */
  lemma ShownIsTold(raw: string, config: string, i: nat, key: string)
    requires i < |Show(raw, config)|
    ensures var said, s := Sayings(config, SplitLines(raw)), Show(raw, config)[i];
            && |Show(raw, config)| == |Ids(said)|
            && (forall j | 0 <= j < |Show(raw, config)| && j != i :: Show(raw, config)[j].id != s.id)
            && s.id == Ids(said)[i] && SectionIs(s, s.id, TypeOf(said, s.id)) && OptionIs(s, key, GivenTo(said, s.id, key))
  {
    var lines := SplitLines(raw);
    ParsedIsTold(config, lines);
    IdsAreDistinct(Sayings(config, lines));
    LinesAreComplete(config, NOTHING, lines);
    var p := ReadLines(config, NOTHING, lines);
    assert forall j | 0 <= j < |p.order| :: p.order[j] in p.order;
    assert p.order[i] in p.sections;
  }

  // ---- Bare values ------------------------------------------------------------------------

  predicate OnlyQuotes(s: string) { forall i | 0 <= i < |s| :: s[i] == '\'' }

  lemma {:induction false} QuotesAreTrimmed(value: string, quotes: string)
    requires OnlyQuotes(quotes) && value != "" && value[0] != '\'' && value[|value| - 1] != '\''
    ensures TrimQuotes(value + quotes) == value
    decreases |quotes|
  {
    if quotes == "" {
      assert value + quotes == value;
    } else {
      var n, text := |quotes| - 1, value + quotes;
      assert text[|text| - 1] == quotes[n] && text[..|text| - 1] == value + quotes[..n];
      QuotesAreTrimmed(value, quotes[..n]);
    }
  }

  lemma NothingToTrim(text: string)
    requires text != "" && !IsSpace(text[0]) && !IsSpace(text[|text| - 1])
    ensures TrimSpace(text) == text
  {
  }

  /** An unquoted value stands for itself, without quotes behind it. */
  lemma BareValueIsRead(value: string, quotes: string)
    requires value != "" && value[0] != '\'' && value[|value| - 1] != '\'' && !IsSpace(value[0]) && !IsSpace(value[|value| - 1])
    requires OnlyQuotes(quotes)
    ensures ParseValue(value + quotes) == Text(value)
  {
    NothingToTrim(value + quotes);
    QuotesAreTrimmed(value, quotes);
  }
}
