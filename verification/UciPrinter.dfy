/**
 * UCI commands as shell lines: the printers, and the words a POSIX shell reads
 * back (section 2.2 of the Shell Command Language).
 */
module UciPrinter {
  import opened Common
  import opened ChangeSets

  // ---- Printing --------------------------------------------------------------

  const QUOTE_ESCAPE := "'\\''"

  /** Every single quote becomes quote, backslash, quote, quote. */
  function EscapeVal(s: string): string {
    if s == "" then "" else (if s[0] == '\'' then QUOTE_ESCAPE else [s[0]]) + EscapeVal(s[1..])
  }

  function ShellQuote(s: string): string { "'" + EscapeVal(s) + "'" }

  function Path(c: Command): string {
    c.config + "." + c.section + (if c.option == "" then "" else "." + c.option)
  }

  function Spaced(word: string, rest: string): string { word + (" " + rest) }

  function Assignment(c: Command): string { (Path(c) + "=") + ShellQuote(c.value) }

  /** The first section of a type. */
  function FirstOf(c: Command): string { c.config + "." + ("@" + c.section + "[0]") }

  function Verb(a: Action): string {
    match a
    case Set => "set"
    case AddList => "add_list"
    case DelList => "del_list"
    case Rename => "rename"
    case _ => ""
  }

  /** `translateCommand` without the host script; the empty line is a refusal. */
  function TranslateCommand(c: Command): string {
    match c.action
    case Set =>
      if !ValidName(c.config) || !ValidSection(c.section) || (c.option != "" && !ValidName(c.option)) then ""
      else Spaced("uci", Spaced("set", Assignment(c)))
    case AddList =>
      if !ValidName(c.config) || !ValidSection(c.section) || !ValidName(c.option) then ""
      else Spaced("uci", Spaced("add_list", Assignment(c)))
    case DelList =>
      if !ValidName(c.config) || !ValidSection(c.section) || !ValidName(c.option) then ""
      else Spaced("uci", Spaced("del_list", Assignment(c)))
    case Rename =>
      if !ValidName(c.config) || !ValidSection(c.section) || (c.option != "" && !ValidName(c.option)) || !ValidName(c.value) then ""
      else Spaced("uci", Spaced("rename", Assignment(c)))
    case Add =>
      if !ValidName(c.config) || !ValidName(c.value) then ""
      else Spaced("uci", Spaced("add", Spaced(c.config, c.value)))
    case Delete =>
      if !ValidName(c.config) || !ValidSection(c.section) || (c.option != "" && !ValidName(c.option)) then ""
      else Spaced("uci", Spaced("-q", Spaced("delete", Spaced(Path(c), Spaced("||", "true")))))
    case DeleteAll =>
      if !ValidName(c.config) || !ValidName(c.section) || c.option != "" || c.value != "" then ""
      else Spaced("while", Spaced("uci", Spaced("-q", Spaced("delete", Spaced(FirstOf(c) + ";", Spaced("do", Spaced(":;", "done")))))))
    case _ => ""
  }

  // ---- Reading words -----------------------------------------------------------

  /** Characters that would mean something to the shell outside quotes. */
  predicate IsMeta(c: char) {
    c in {'|', '&', ';', '<', '>', '(', ')', '$', '`', '"', '*', '?', '#', '~', '!', '{', '}', '\n', '\t'}
  }

  datatype Token = Word(text: string) | Operator(text: string)

  datatype Mode = Bare | Quoted | Escaped

  function Flush(word: Option<string>, tokens: seq<Token>): seq<Token> {
    if word.Some? then tokens + [Word(word.value)] else tokens
  }

  /**
   * The tokens of a line, quotes removed: blanks and the operators `;` and `||`
   * end a word, a single quote preserves everything up to the next one, a
   * backslash preserves one character. None when a quote stays open or any other
   * special character is unquoted.
   */
  function Lex(line: string, mode: Mode, word: Option<string>, tokens: seq<Token>): Option<seq<Token>>
    decreases |line|
  {
    var sofar := if word.Some? then word.value else "";
    if line == "" then
      if mode != Bare then None else Some(Flush(word, tokens))
    else
      var c, rest := line[0], line[1..];
      match mode
      case Quoted => if c == '\'' then Lex(rest, Bare, Some(sofar), tokens) else Lex(rest, Quoted, Some(sofar + [c]), tokens)
      case Escaped => Lex(rest, Bare, Some(sofar + [c]), tokens)
      case Bare =>
        if c == '\'' then Lex(rest, Quoted, Some(sofar), tokens)
        else if c == '\\' then Lex(rest, Escaped, word, tokens)
        else if c == ' ' then Lex(rest, Bare, None, Flush(word, tokens))
        else if c == ';' then Lex(rest, Bare, None, Flush(word, tokens) + [Operator(";")])
        else if c == '|' && rest != "" && rest[0] == '|' then Lex(rest[1..], Bare, None, Flush(word, tokens) + [Operator("||")])
        else if IsMeta(c) then None
        else Lex(rest, Bare, Some(sofar + [c]), tokens)
  }

  function Tokens(line: string): Option<seq<Token>> { Lex(line, Bare, None, []) }

  /** Characters that stand for themselves outside quotes. */
  predicate Plain(s: string) {
    forall i | 0 <= i < |s| :: s[i] != '\'' && s[i] != '\\' && s[i] != ' ' && !IsMeta(s[i])
  }

  lemma {:induction false} LexPlain(s: string, rest: string, word: string, tokens: seq<Token>)
    requires Plain(s)
    ensures Lex(s + rest, Bare, Some(word), tokens) == Lex(rest, Bare, Some(word + s), tokens)
    decreases s
  {
    if s == "" {
      assert s + rest == rest && word + s == word;
    } else {
      assert s + rest == [s[0]] + (s[1..] + rest);
      LexPlain(s[1..], rest, word + [s[0]], tokens);
      assert (word + [s[0]]) + s[1..] == word + s;
    }
  }

  /** A plain word that starts the line or follows a blank. */
  lemma LexPlainWord(s: string, rest: string, tokens: seq<Token>)
    requires Plain(s) && s != ""
    ensures Lex(s + rest, Bare, None, tokens) == Lex(rest, Bare, Some(s), tokens)
  {
    assert (s + rest)[0] == s[0] && (s + rest)[1..] == s[1..] + rest;
    assert "" + [s[0]] == [s[0]];
    LexPlain(s[1..], rest, [s[0]], tokens);
    assert [s[0]] + s[1..] == s;
  }

  lemma LexBlank(rest: string, word: Option<string>, tokens: seq<Token>)
    ensures Lex(" " + rest, Bare, word, tokens) == Lex(rest, Bare, None, Flush(word, tokens))
  {
    assert (" " + rest)[1..] == rest;
  }

  /** A plain word with a blank behind it. */
  lemma LexSpaced(w: string, rest: string, tokens: seq<Token>)
    requires Plain(w) && w != ""
    ensures Lex(Spaced(w, rest), Bare, None, tokens) == Lex(rest, Bare, None, tokens + [Word(w)])
  {
    LexPlainWord(w, " " + rest, tokens);
    LexBlank(rest, Some(w), tokens);
  }

  lemma LexTwo(v: string, w: string, rest: string, tokens: seq<Token>)
    requires Plain(v) && v != "" && Plain(w) && w != ""
    ensures Lex(Spaced(v, Spaced(w, rest)), Bare, None, tokens) == Lex(rest, Bare, None, tokens + [Word(v), Word(w)])
  {
    LexSpaced(v, Spaced(w, rest), tokens);
    LexSpaced(w, rest, tokens + [Word(v)]);
    assert (tokens + [Word(v)]) + [Word(w)] == tokens + [Word(v), Word(w)];
  }

  lemma LexFour(a: string, b: string, c: string, d: string, rest: string)
    requires Plain(a) && a != "" && Plain(b) && b != "" && Plain(c) && c != "" && Plain(d) && d != ""
    ensures Tokens(Spaced(a, Spaced(b, Spaced(c, Spaced(d, rest))))) == Lex(rest, Bare, None, [Word(a), Word(b), Word(c), Word(d)])
  {
    var none: seq<Token> := [];
    LexTwo(a, b, Spaced(c, Spaced(d, rest)), none);
    LexTwo(c, d, rest, none + [Word(a), Word(b)]);
    assert (none + [Word(a), Word(b)]) + [Word(c), Word(d)] == [Word(a), Word(b), Word(c), Word(d)];
  }

  /** A plain word with a semicolon and a blank behind it. */
  lemma LexClosed(w: string, rest: string, tokens: seq<Token>)
    requires Plain(w) && w != ""
    ensures Lex(Spaced(w + ";", rest), Bare, None, tokens) == Lex(rest, Bare, None, tokens + [Word(w), Operator(";")])
  {
    assert Spaced(w + ";", rest) == w + (";" + (" " + rest));
    LexPlainWord(w, ";" + (" " + rest), tokens);
    var closed := tokens + [Word(w)] + [Operator(";")];
    LexBlank(rest, None, closed);
    assert closed == tokens + [Word(w), Operator(";")];
  }

  lemma LexLast(w: string, tokens: seq<Token>)
    requires Plain(w) && w != ""
    ensures Lex(w, Bare, None, tokens) == Some(tokens + [Word(w)])
  {
    assert w + "" == w;
    LexPlainWord(w, "", tokens);
  }

  lemma LexOrTrue(tokens: seq<Token>)
    ensures Lex(Spaced("||", "true"), Bare, None, tokens) == Some(tokens + [Operator("||"), Word("true")])
  {
    LexBlank("true", None, tokens + [Operator("||")]);
    LexLast("true", tokens + [Operator("||")]);
    assert (tokens + [Operator("||")]) + [Word("true")] == tokens + [Operator("||"), Word("true")];
  }

  lemma LexEscape(rest: string, word: string, tokens: seq<Token>)
    ensures Lex(QUOTE_ESCAPE + rest, Quoted, Some(word), tokens) == Lex(rest, Quoted, Some(word + "'"), tokens)
  {
    var l := QUOTE_ESCAPE + rest;
    assert l[1..][1..][1..][1..] == rest;
    assert l[0] == '\'' && l[1..][0] == '\\' && l[1..][1..][0] == '\'' && l[1..][1..][1..][0] == '\'';
    assert Lex(l, Quoted, Some(word), tokens) == Lex(l[1..], Bare, Some(word), tokens);
    assert Lex(l[1..], Bare, Some(word), tokens) == Lex(l[1..][1..], Escaped, Some(word), tokens);
    assert Lex(l[1..][1..], Escaped, Some(word), tokens) == Lex(l[1..][1..][1..], Bare, Some(word + ['\'']), tokens);
  }

  lemma LexClose(rest: string, word: string, tokens: seq<Token>)
    ensures Lex("'" + rest, Quoted, Some(word), tokens) == Lex(rest, Bare, Some(word), tokens)
  {
    assert ("'" + rest)[1..] == rest;
  }

  lemma EscapedFirst(s: string)
    requires s != ""
    ensures EscapeVal(s) == (if s[0] == '\'' then QUOTE_ESCAPE else [s[0]]) + EscapeVal(s[1..])
  {
  }

  /** Inside quotes an escaped value is read back as the value, whatever it contains. */
  lemma {:induction false} LexEscaped(s: string, rest: string, word: string, tokens: seq<Token>)
    ensures Lex(EscapeVal(s) + rest, Quoted, Some(word), tokens) == Lex(rest, Quoted, Some(word + s), tokens)
    decreases s
  {
    if s == "" {
      assert EscapeVal(s) + rest == rest && word + s == word;
    } else {
      var tail := EscapeVal(s[1..]) + rest;
      EscapedFirst(s);
      if s[0] == '\'' {
        assert EscapeVal(s) + rest == QUOTE_ESCAPE + tail;
        LexEscape(tail, word, tokens);
        assert word + "'" == word + [s[0]];
      } else {
        assert EscapeVal(s) + rest == [s[0]] + tail;
      }
      LexEscaped(s[1..], rest, word + [s[0]], tokens);
      assert (word + [s[0]]) + s[1..] == word + s;
    }
  }

  /** A quoted value ends the word it is part of with exactly its own characters. */
  lemma LexQuoted(s: string, word: string, tokens: seq<Token>)
    ensures Lex(ShellQuote(s), Bare, Some(word), tokens) == Some(tokens + [Word(word + s)])
  {
    assert ShellQuote(s)[1..] == EscapeVal(s) + "'";
    LexEscaped(s, "'", word, tokens);
    LexClose("", word + s, tokens);
    assert "'" + "" == "'";
  }

  /** `shellQuote` yields one word that the shell reads as the original text. */
  lemma ShellQuoteIsOneWord(s: string)
    ensures Tokens(ShellQuote(s)) == Some([Word(s)])
  {
    assert ShellQuote(s)[1..] == EscapeVal(s) + "'";
    LexEscaped(s, "'", "", []);
    LexClose("", s, []);
    assert "'" + "" == "'" && "" + s == s && [] + [Word(s)] == [Word(s)];
  }

  // ---- Decoding words ----------------------------------------------------------

  function ActionOf(verb: string): Option<Action> {
    if verb == "set" then Some(Set) else if verb == "add_list" then Some(AddList)
    else if verb == "del_list" then Some(DelList) else if verb == "rename" then Some(Rename) else None
  }

  /** `section[.option]` as its two parts. */
  function SplitSection(inner: string): (string, string) {
    var parts := Cut(inner, '.');
    if parts.None? then (inner, "") else parts.value
  }

  /** `config.section[.option]=value` as a command. */
  function DecodeAssignment(action: Action, text: string): Option<Command> {
    var assignment := Cut(text, '=');
    if assignment.None? then None
    else
      var path := Cut(assignment.value.0, '.');
      if path.None? then None
      else
        var (section, option) := SplitSection(path.value.1);
        Some(Command(action, path.value.0, section, option, assignment.value.1))
  }

  /** `config.section[.option]` as a delete. */
  function DecodeDelete(text: string): Option<Command> {
    var path := Cut(text, '.');
    if path.None? then None
    else
      var (section, option) := SplitSection(path.value.1);
      Some(Command(Delete, path.value.0, section, option, ""))
  }

  /** `config.@type[0]` as the deletion of every section of the type. */
  function DecodeDeleteAll(text: string): Option<Command> {
    var path := Cut(text, '.');
    if path.None? || |path.value.1| < 4 then None
    else Some(Command(DeleteAll, path.value.0, path.value.1[1..|path.value.1| - 3], "", ""))
  }

  /** The four shapes of line that the printer emits, as commands. */
  function Decode(tokens: seq<Token>): Option<Command> {
    if |tokens| == 4 && tokens[..2] == [Word("uci"), Word("add")] then Some(Command(Add, tokens[2].text, "", "", tokens[3].text))
    else if |tokens| == 3 && tokens[0] == Word("uci") && ActionOf(tokens[1].text).Some? then DecodeAssignment(ActionOf(tokens[1].text).value, tokens[2].text)
    else if |tokens| == 6 && tokens[..3] == [Word("uci"), Word("-q"), Word("delete")] && tokens[4..] == [Operator("||"), Word("true")] then
      DecodeDelete(tokens[3].text)
    else if |tokens| == 10 && tokens[..4] == [Word("while"), Word("uci"), Word("-q"), Word("delete")] && tokens[5..] == LoopTail() then
      DecodeDeleteAll(tokens[4].text)
    else None
  }

  function LoopTail(): seq<Token> { [Operator(";"), Word("do"), Word(":"), Operator(";"), Word("done")] }

  /** What a printed command says: adding a section prints neither section nor option, deleting prints no value. */
  function Said(c: Command): Command {
    if c.action.Add? then c.(section := "", option := "")
    else if c.action.Delete? then c.(value := "")
    else c
  }

  predicate Assigns(c: Command) {
    c.action.Set? || c.action.AddList? || c.action.DelList? || c.action.Rename?
  }

  /** Plain text that none of the separators of a path occurs in. */
  predicate Atom(s: string) {
    Plain(s) && '.' !in s && '=' !in s
  }

  lemma AtomsJoin(a: string, b: string)
    requires Atom(a) && Atom(b)
    ensures Atom(a + b)
  {
  }

  lemma NamesAreAtoms(s: string)
    requires ValidName(s)
    ensures Atom(s)
  {
  }

  lemma IndexIsAtom(s: string)
    requires ValidIndex(s)
    ensures Atom(s)
  {
    forall k | 0 <= k < |s| ensures s[k] == '-' || IsDigit(s[k]) {
      if s[0] == '-' && k > 0 {
        assert s[k] == s[1..][k - 1];
      }
    }
  }

  lemma IndexedIsAtom(name: string, index: string)
    requires Atom(name) && Atom(index)
    ensures Atom("@" + name + "[" + index + "]")
  {
    AtomsJoin("@", name);
    AtomsJoin("@" + name, "[");
    AtomsJoin("@" + name + "[", index);
    AtomsJoin("@" + name + "[" + index, "]");
  }

  lemma IndexedForm(s: string, j: nat)
    requires 1 < j < |s| - 1 && s[0] == '@' && s[j] == '[' && s[|s| - 1] == ']'
    ensures s == "@" + s[1..j] + "[" + s[j + 1..|s| - 1] + "]"
  {
  }

  lemma TypeOnlyIsAtom(s: string)
    requires s != "" && s[0] == '@' && ValidName(s[1..])
    ensures Atom(s)
  {
    NamesAreAtoms(s[1..]);
    AtomsJoin("@", s[1..]);
    assert s == "@" + s[1..];
  }

  lemma SectionsAreAtoms(s: string)
    requires ValidSection(s)
    ensures Atom(s) && s != ""
  {
    if ValidName(s) {
      NamesAreAtoms(s);
    } else if ValidName(s[1..]) {
      TypeOnlyIsAtom(s);
    } else {
      var j :| 1 < j < |s| - 1 && s[j] == '[' && ValidName(s[1..j]) && ValidIndex(s[j + 1..|s| - 1]);
      IndexedForm(s, j);
      NamesAreAtoms(s[1..j]);
      IndexIsAtom(s[j + 1..|s| - 1]);
      IndexedIsAtom(s[1..j], s[j + 1..|s| - 1]);
    }
  }

  predicate AtomicPath(c: Command) {
    Atom(c.config) && Atom(c.section) && Atom(c.option) && c.config != ""
  }

  lemma PathIsPlain(c: Command)
    requires AtomicPath(c)
    ensures Plain(Path(c)) && '=' !in Path(c) && Path(c) != ""
  {
  }

  lemma ValidPathIsAtomic(c: Command)
    requires ValidName(c.config) && ValidSection(c.section) && (c.option == "" || ValidName(c.option))
    ensures AtomicPath(c)
  {
    NamesAreAtoms(c.config);
    SectionsAreAtoms(c.section);
    if c.option != "" {
      NamesAreAtoms(c.option);
    }
  }

  lemma AssignmentTokens(verb: string, pathAndSign: string, value: string)
    requires Plain(verb) && verb != "" && Plain(pathAndSign) && pathAndSign != ""
    ensures Tokens(Spaced("uci", Spaced(verb, pathAndSign + ShellQuote(value)))) == Some([Word("uci"), Word(verb), Word(pathAndSign + value)])
  {
    var head := [Word("uci"), Word(verb)];
    LexTwo("uci", verb, pathAndSign + ShellQuote(value), []);
    assert [] + head == head;
    LexPlainWord(pathAndSign, ShellQuote(value), head);
    LexQuoted(value, pathAndSign, head);
    assert head + [Word(pathAndSign + value)] == [Word("uci"), Word(verb), Word(pathAndSign + value)];
  }

  lemma AddTokens(config: string, kind: string)
    requires Plain(config) && config != "" && Plain(kind) && kind != ""
    ensures Tokens(Spaced("uci", Spaced("add", Spaced(config, kind)))) == Some([Word("uci"), Word("add"), Word(config), Word(kind)])
  {
    var head := [Word("uci"), Word("add")];
    LexTwo("uci", "add", Spaced(config, kind), []);
    assert [] + head == head;
    LexSpaced(config, kind, head);
    LexLast(kind, head + [Word(config)]);
    assert (head + [Word(config)]) + [Word(kind)] == [Word("uci"), Word("add"), Word(config), Word(kind)];
  }

  lemma DeleteTokens(path: string)
    requires Plain(path) && path != ""
    ensures Tokens(Spaced("uci", Spaced("-q", Spaced("delete", Spaced(path, Spaced("||", "true"))))))
            == Some([Word("uci"), Word("-q"), Word("delete"), Word(path), Operator("||"), Word("true")])
  {
    LexFour("uci", "-q", "delete", path, Spaced("||", "true"));
    var words := [Word("uci"), Word("-q"), Word("delete"), Word(path)];
    LexOrTrue(words);
    assert words + [Operator("||"), Word("true")] == [Word("uci"), Word("-q"), Word("delete"), Word(path), Operator("||"), Word("true")];
  }

  lemma LoopTokens(target: string)
    requires Plain(target) && target != ""
    ensures Tokens(Spaced("while", Spaced("uci", Spaced("-q", Spaced("delete", Spaced(target + ";", Spaced("do", Spaced(":;", "done"))))))))
            == Some([Word("while"), Word("uci"), Word("-q"), Word("delete"), Word(target)] + LoopTail())
  {
    var tail := Spaced("do", Spaced(":;", "done"));
    LexFour("while", "uci", "-q", "delete", Spaced(target + ";", tail));
    var words := [Word("while"), Word("uci"), Word("-q"), Word("delete")];
    LexClosed(target, tail, words);
    LexLoopTail(words + [Word(target), Operator(";")]);
    assert words + [Word(target), Operator(";")] + [Word("do"), Word(":"), Operator(";"), Word("done")]
           == [Word("while"), Word("uci"), Word("-q"), Word("delete"), Word(target)] + LoopTail();
  }

  lemma LexLoopTail(tokens: seq<Token>)
    ensures Lex(Spaced("do", Spaced(":;", "done")), Bare, None, tokens) == Some(tokens + [Word("do"), Word(":"), Operator(";"), Word("done")])
  {
    LexSpaced("do", Spaced(":;", "done"), tokens);
    var t := tokens + [Word("do")];
    assert ":" + ";" == ":;";
    LexClosed(":", "done", t);
    LexLast("done", t + [Word(":"), Operator(";")]);
    assert (t + [Word(":"), Operator(";")]) + [Word("done")] == tokens + [Word("do"), Word(":"), Operator(";"), Word("done")];
  }

  function Inner(c: Command): string {
    c.section + (if c.option == "" then "" else "." + c.option)
  }

  lemma InnerSplits(c: Command)
    requires AtomicPath(c)
    ensures SplitSection(Inner(c)) == (c.section, c.option)
  {
    if c.option == "" {
      assert Inner(c) == c.section;
      CutNothing(c.section, '.');
    } else {
      assert Inner(c) == c.section + ['.'] + c.option;
      CutFirst(c.section, '.', c.option);
    }
  }

  lemma PathSplits(c: Command)
    requires AtomicPath(c)
    ensures Cut(Path(c), '.') == Some((c.config, Inner(c)))
  {
    assert Path(c) == c.config + ['.'] + Inner(c);
    CutFirst(c.config, '.', Inner(c));
  }

  lemma AssignmentDecodes(c: Command)
    requires AtomicPath(c)
    ensures DecodeAssignment(c.action, Path(c) + "=" + c.value) == Some(c)
  {
    PathIsPlain(c);
    CutFirst(Path(c), '=', c.value);
    PathSplits(c);
    InnerSplits(c);
  }

  lemma DeleteDecodes(c: Command)
    requires AtomicPath(c)
    ensures DecodeDelete(Path(c)) == Some(Command(Delete, c.config, c.section, c.option, ""))
  {
    PathSplits(c);
    InnerSplits(c);
  }

  lemma DeleteAllDecodes(c: Command)
    requires ValidName(c.config) && ValidName(c.section)
    ensures DecodeDeleteAll(FirstOf(c)) == Some(Command(DeleteAll, c.config, c.section, "", ""))
    ensures Plain(FirstOf(c)) && FirstOf(c) != ""
  {
    NamesAreAtoms(c.config);
    NamesAreAtoms(c.section);
    var inner := "@" + c.section + "[0]";
    assert inner[1..|inner| - 3] == c.section;
    CutFirst(c.config, '.', inner);
    assert FirstOf(c) == c.config + ['.'] + inner;
  }

  lemma VerbsDecode(a: Action)
    requires a.Set? || a.AddList? || a.DelList? || a.Rename?
    ensures ActionOf(Verb(a)) == Some(a) && Plain(Verb(a)) && Verb(a) != ""
  {
  }

  lemma PrintedAssignment(c: Command)
    requires Assigns(c) && TranslateCommand(c) != ""
    ensures TranslateCommand(c) == Spaced("uci", Spaced(Verb(c.action), Assignment(c)))
    ensures ValidName(c.config) && ValidSection(c.section) && (c.option == "" || ValidName(c.option))
  {
  }

  lemma AssignmentsDecode(c: Command)
    requires Assigns(c) && TranslateCommand(c) != ""
    ensures Tokens(TranslateCommand(c)).Some? && Decode(Tokens(TranslateCommand(c)).value) == Some(c)
  {
    PrintedAssignment(c);
    ValidPathIsAtomic(c);
    PathIsPlain(c);
    VerbsDecode(c.action);
    AssignmentTokens(Verb(c.action), Path(c) + "=", c.value);
    assert (Path(c) + "=") + c.value == Path(c) + "=" + c.value;
    AssignmentDecodes(c);
  }

  /**
   * Every line the printer emits, apart from the host script, is read by a shell
   * as exactly the command it was printed from; no value can leave its quotes.
   */
  lemma PrintedCommandsDecode(c: Command)
    requires !c.action.EnsureHost? && TranslateCommand(c) != ""
    ensures Tokens(TranslateCommand(c)).Some? && Decode(Tokens(TranslateCommand(c)).value) == Some(Said(c))
  {
    match c.action
    case Add =>
      NamesAreAtoms(c.config);
      NamesAreAtoms(c.value);
      AddTokens(c.config, c.value);
    case Delete =>
      ValidPathIsAtomic(c);
      PathIsPlain(c);
      DeleteTokens(Path(c));
      DeleteDecodes(c);
    case DeleteAll =>
      DeleteAllDecodes(c);
      LoopTokens(FirstOf(c));
    case _ => AssignmentsDecode(c);
  }

  /** The printer refuses exactly the commands that the changeset service's print check refuses. */
  lemma PrinterAgreesWithService(e: Env, c: Command)
    requires !c.action.EnsureHost?
    ensures TranslateCommand(c) != "" <==> Prints(e, c)
  {
  }

  /** Every command of a changeset that the database accepts is printed, and read back as itself. */
  lemma AcceptedCommandsAreRead(e: Env, cs: ChangeSet, i: nat, j: nat)
    requires Acceptable(e, cs) && i < |cs.operations| && j < |cs.operations[i].commands|
    ensures var c := cs.operations[i].commands[j];
            && TranslateCommand(c) != "" && Tokens(TranslateCommand(c)).Some?
            && Decode(Tokens(TranslateCommand(c)).value) == Some(Said(c))
  {
    var c := cs.operations[i].commands[j];
    assert ParserAcceptsCommand(c);
    PrinterAgreesWithService(e, c);
    PrintedCommandsDecode(c);
  }
}
