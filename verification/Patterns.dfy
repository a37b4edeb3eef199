/**
 * The regular expressions that the validators are written with, as data, and
 * that the character rules of the model accept exactly what they match.
 */
module Patterns {
  import opened Common
  import opened ChangeSets
  import Sentinel

  // ---- Regular expressions --------------------------------------------------

  datatype Regex =
    | Chars(ranges: seq<(char, char)>)
    | Then(first: Regex, second: Regex)
    | Or(left: Regex, right: Regex)
    | Opt(of: Regex)
    | Times(of: Regex, least: nat, most: Option<nat>)

  predicate InRanges(ranges: seq<(char, char)>, c: char) {
    exists k | 0 <= k < |ranges| :: ranges[k].0 <= c <= ranges[k].1
  }

  function Depth(r: Regex): nat {
    match r
    case Chars(_) => 0
    case Then(a, b) => Depth(a) + Depth(b) + 1
    case Or(a, b) => Depth(a) + Depth(b) + 1
    case Opt(a) => Depth(a) + 1
    case Times(a, _, _) => Depth(a) + 1
  }

  function Fewer(n: nat): nat { if n == 0 then 0 else n - 1 }

  function OneTimeLess(r: Regex): Regex
    requires r.Times? && r.most != Some(0)
  {
    Times(r.of, Fewer(r.least), if r.most.Some? then Some(Fewer(r.most.value)) else None)
  }

  /** The text between two places matches; every repetition takes at least one character. */
  ghost predicate MatchesIn(r: Regex, s: string, lo: int, hi: int)
    requires 0 <= lo <= hi <= |s|
    decreases Depth(r), hi - lo
  {
    match r
    case Chars(ranges) => hi == lo + 1 && InRanges(ranges, s[lo])
    case Then(a, b) => exists i | lo <= i <= hi :: MatchesIn(a, s, lo, i) && MatchesIn(b, s, i, hi)
    case Or(a, b) => MatchesIn(a, s, lo, hi) || MatchesIn(b, s, lo, hi)
    case Opt(a) => lo == hi || MatchesIn(a, s, lo, hi)
    case Times(a, least, most) =>
      || (least == 0 && lo == hi)
      || (most != Some(0) && exists i | lo < i <= hi :: MatchesIn(a, s, lo, i) && MatchesIn(OneTimeLess(r), s, i, hi))
  }

  /** The whole text matches, as between `^` and `$`. */
  ghost predicate Matches(r: Regex, s: string) { MatchesIn(r, s, 0, |s|) }

  /** As many characters as allowed, all of the class. */
  ghost predicate AllInClass(ranges: seq<(char, char)>, least: nat, most: Option<nat>, s: string, lo: int, hi: int)
    requires 0 <= lo <= hi <= |s|
  {
    least <= hi - lo && (most.Some? ==> hi - lo <= most.value) && forall i | lo <= i < hi :: InRanges(ranges, s[i])
  }

  /** A repeated class matches by length and by each character. */
  lemma {:induction false} RepeatedClass(ranges: seq<(char, char)>, least: nat, most: Option<nat>, s: string, lo: int, hi: int)
    requires 0 <= lo <= hi <= |s|
    ensures MatchesIn(Times(Chars(ranges), least, most), s, lo, hi) <==> AllInClass(ranges, least, most, s, lo, hi)
    decreases hi - lo
  {
    var r := Times(Chars(ranges), least, most);
    if lo < hi && most != Some(0) {
      RepeatedClass(ranges, Fewer(least), OneTimeLess(r).most, s, lo + 1, hi);
      assert MatchesIn(Chars(ranges), s, lo, lo + 1) <==> InRanges(ranges, s[lo]);
    }
  }

  function Just(c: char): Regex { Chars([(c, c)]) }

  lemma IsJust(c: char, s: string, lo: int, hi: int)
    requires 0 <= lo <= hi <= |s|
    ensures MatchesIn(Just(c), s, lo, hi) <==> hi == lo + 1 && s[lo] == c
  {
    assert [(c, c)][0] == (c, c);
  }

  ghost predicate CutAt(a: Regex, b: Regex, s: string, lo: int, hi: int, i: int)
    requires 0 <= lo <= hi <= |s|
  {
    lo <= i <= hi && MatchesIn(a, s, lo, i) && MatchesIn(b, s, i, hi)
  }

  lemma NoCutNoMatch(a: Regex, b: Regex, s: string, lo: int, hi: int)
    requires 0 <= lo <= hi <= |s| && forall i | lo <= i <= hi :: MatchesIn(a, s, lo, i) ==> !MatchesIn(b, s, i, hi)
    ensures !MatchesIn(Then(a, b), s, lo, hi)
  {
  }

  lemma ThenMeans(a: Regex, b: Regex, s: string, lo: int, hi: int)
    requires 0 <= lo <= hi <= |s|
    ensures MatchesIn(Then(a, b), s, lo, hi) <==> exists i :: CutAt(a, b, s, lo, hi, i)
  {
    if i :| CutAt(a, b, s, lo, hi, i) {
      assert MatchesIn(Then(a, b), s, lo, hi);
    } else {
      forall i | lo <= i <= hi ensures MatchesIn(a, s, lo, i) ==> !MatchesIn(b, s, i, hi) {
        assert !CutAt(a, b, s, lo, hi, i);
      }
      NoCutNoMatch(a, b, s, lo, hi);
    }
  }

  lemma ClassThen(ranges: seq<(char, char)>, b: Regex, s: string, lo: int, hi: int)
    requires 0 <= lo <= hi <= |s|
    ensures MatchesIn(Then(Chars(ranges), b), s, lo, hi) <==> lo < hi && InRanges(ranges, s[lo]) && MatchesIn(b, s, lo + 1, hi)
  {
    forall i | lo <= i <= hi ensures MatchesIn(Chars(ranges), s, lo, i) <==> i == lo + 1 && InRanges(ranges, s[lo]) {
    }
  }

  lemma JustThen(c: char, b: Regex, s: string, lo: int, hi: int)
    requires 0 <= lo <= hi <= |s|
    ensures MatchesIn(Then(Just(c), b), s, lo, hi) <==> lo < hi && s[lo] == c && MatchesIn(b, s, lo + 1, hi)
  {
    ClassThen([(c, c)], b, s, lo, hi);
    if lo < hi {
      IsJust(c, s, lo, lo + 1);
    }
  }

  lemma ThenJust(a: Regex, c: char, s: string, lo: int, hi: int)
    requires 0 <= lo <= hi <= |s|
    ensures MatchesIn(Then(a, Just(c)), s, lo, hi) <==> lo < hi && s[hi - 1] == c && MatchesIn(a, s, lo, hi - 1)
  {
    forall i | lo <= i <= hi ensures MatchesIn(Just(c), s, i, hi) <==> i == hi - 1 && s[i] == c {
      IsJust(c, s, i, hi);
    }
  }

  lemma BetweenBrackets(a: Regex, s: string, lo: int, hi: int)
    requires 0 <= lo <= hi <= |s|
    ensures MatchesIn(Then(Just('['), Then(a, Just(']'))), s, lo, hi) <==>
            hi - lo >= 2 && s[lo] == '[' && s[hi - 1] == ']' && MatchesIn(a, s, lo + 1, hi - 1)
  {
    JustThen('[', Then(a, Just(']')), s, lo, hi);
    if lo < hi {
      ThenJust(a, ']', s, lo + 1, hi);
    }
  }

  lemma ThenMaybe(a: Regex, b: Regex, s: string, lo: int, hi: int)
    requires 0 <= lo <= hi <= |s|
    ensures MatchesIn(Then(a, Opt(b)), s, lo, hi) <==> MatchesIn(a, s, lo, hi) || exists i :: CutAt(a, b, s, lo, hi, i)
  {
    ThenMeans(a, Opt(b), s, lo, hi);
    if i :| CutAt(a, Opt(b), s, lo, hi, i) {
      assert i == hi || CutAt(a, b, s, lo, hi, i);
    }
    if MatchesIn(a, s, lo, hi) {
      assert CutAt(a, Opt(b), s, lo, hi, hi);
    }
    if i :| CutAt(a, b, s, lo, hi, i) {
      assert CutAt(a, Opt(b), s, lo, hi, i);
    }
  }

  lemma MaybeThen(a: Regex, b: Regex, s: string, lo: int, hi: int)
    requires 0 <= lo <= hi <= |s|
    ensures MatchesIn(Then(Opt(a), b), s, lo, hi) <==> MatchesIn(b, s, lo, hi) || MatchesIn(Then(a, b), s, lo, hi)
  {
    assert MatchesIn(Opt(a), s, lo, lo);
    forall i | lo <= i <= hi ensures MatchesIn(Opt(a), s, lo, i) <==> i == lo || MatchesIn(a, s, lo, i) {
    }
  }

  // ---- The patterns ------------------------------------------------------------

  const NAME_CHARS: seq<(char, char)> := [('A', 'Z'), ('a', 'z'), ('0', '9'), ('_', '_'), ('-', '-')]
  const DIGIT_CHARS: seq<(char, char)> := [('0', '9')]
  const HEALTH_CHARS: seq<(char, char)> := [('A', 'Z'), ('a', 'z'), ('0', '9'), ('.', '.'), ('-', '-')]
  const ID_CHARS: seq<(char, char)> := [('A', 'Z'), ('a', 'z'), ('0', '9'), ('.', '.'), ('_', '_'), ('-', '-')]
  const DEVICE_CHARS: seq<(char, char)> := [('A', 'Z'), ('a', 'z'), ('0', '9'), (':', ':'), ('.', '.'), ('_', '_'), ('-', '-')]
  const HEX_CHARS: seq<(char, char)> := [('A', 'F'), ('a', 'f'), ('0', '9')]
  const LOWER_CHARS: seq<(char, char)> := [('a', 'z')]
  const SKILL_CHARS: seq<(char, char)> := [('a', 'z'), ('0', '9'), ('_', '_'), ('-', '-')]

  /** [A-Za-z0-9_-]+ */
  const NAME := Times(Chars(NAME_CHARS), 1, None)

  /** -?[0-9]+ */
  const NUMBER := Then(Opt(Just('-')), Times(Chars(DIGIT_CHARS), 1, None))

  /** \[-?[0-9]+\] */
  const INDEX := Then(Just('['), Then(NUMBER, Just(']')))

  /** [A-Za-z0-9_-]+|@[A-Za-z0-9_-]+(?:\[-?[0-9]+\])? */
  const SECTION := Or(NAME, Then(Just('@'), Then(NAME, Opt(INDEX))))

  /** [A-Za-z0-9.-]{1,253} */
  const HEALTH := Times(Chars(HEALTH_CHARS), 1, Some(253))

  /** [a-z][a-z0-9_-]{2,63} */
  const SKILL_NAME := Then(Chars(LOWER_CHARS), Times(Chars(SKILL_CHARS), 2, Some(63)))

  lemma Classes(c: char)
    ensures InRanges(NAME_CHARS, c) <==> IsNameChar(c)
    ensures InRanges(DIGIT_CHARS, c) <==> IsDigit(c)
    ensures InRanges(HEALTH_CHARS, c) <==> IsLetter(c) || IsDigit(c) || c == '.' || c == '-'
    ensures InRanges(LOWER_CHARS, c) <==> 'a' <= c <= 'z'
    ensures InRanges(SKILL_CHARS, c) <==> 'a' <= c <= 'z' || IsDigit(c) || c == '_' || c == '-'
  {
    var n, h, k := NAME_CHARS, HEALTH_CHARS, SKILL_CHARS;
    assert n[0] == ('A', 'Z') && n[1] == ('a', 'z') && n[2] == ('0', '9') && n[3] == ('_', '_') && n[4] == ('-', '-');
    assert h[0] == ('A', 'Z') && h[1] == ('a', 'z') && h[2] == ('0', '9') && h[3] == ('.', '.') && h[4] == ('-', '-');
    assert k[0] == ('a', 'z') && k[1] == ('0', '9') && k[2] == ('_', '_') && k[3] == ('-', '-');
    assert DIGIT_CHARS[0] == ('0', '9') && LOWER_CHARS[0] == ('a', 'z');
  }

  lemma NameIn(s: string, lo: int, hi: int)
    requires 0 <= lo <= hi <= |s|
    ensures MatchesIn(NAME, s, lo, hi) <==> ValidName(s[lo..hi])
  {
    RepeatedClass(NAME_CHARS, 1, None, s, lo, hi);
    forall i | lo <= i < hi ensures InRanges(NAME_CHARS, s[i]) <==> IsNameChar(s[lo..hi][i - lo]) {
      Classes(s[i]);
    }
    if ValidName(s[lo..hi]) {
      forall i | lo <= i < hi ensures IsNameChar(s[i]) {
        assert s[i] == s[lo..hi][i - lo];
      }
    }
  }

  predicate DigitsBetween(s: string, lo: int, hi: int)
    requires 0 <= lo <= hi <= |s|
  {
    lo < hi && forall i | lo <= i < hi :: IsDigit(s[i])
  }

  lemma DigitsIn(s: string, lo: int, hi: int)
    requires 0 <= lo <= hi <= |s|
    ensures MatchesIn(NUMBER.second, s, lo, hi) <==> DigitsBetween(s, lo, hi)
  {
    RepeatedClass(DIGIT_CHARS, 1, None, s, lo, hi);
    forall i | lo <= i < hi ensures InRanges(DIGIT_CHARS, s[i]) <==> IsDigit(s[i]) {
      Classes(s[i]);
    }
  }

  lemma SlicedDigits(s: string, lo: int, hi: int)
    requires 0 <= lo <= hi <= |s|
    ensures DigitsBetween(s, lo, hi) <==> s[lo..hi] != "" && AllDigits(s[lo..hi])
  {
    var text := s[lo..hi];
    forall i | lo <= i < hi ensures s[i] == text[i - lo] {
    }
  }

  lemma ValidIndexIn(s: string, lo: int, hi: int)
    requires 0 <= lo <= hi <= |s|
    ensures ValidIndex(s[lo..hi]) <==> lo < hi && DigitsBetween(s, if s[lo] == '-' then lo + 1 else lo, hi)
  {
    var text := s[lo..hi];
    SlicedDigits(s, lo, hi);
    if lo < hi {
      SlicedDigits(s, lo + 1, hi);
      assert text[1..] == s[lo + 1..hi];
      assert text == "-" <==> text[0] == '-' && text[1..] == "";
    }
  }

  lemma NumberIn(s: string, lo: int, hi: int)
    requires 0 <= lo <= hi <= |s|
    ensures MatchesIn(NUMBER, s, lo, hi) <==> ValidIndex(s[lo..hi])
  {
    var digits := NUMBER.second;
    ValidIndexIn(s, lo, hi);
    MaybeThen(Just('-'), digits, s, lo, hi);
    JustThen('-', digits, s, lo, hi);
    DigitsIn(s, lo, hi);
    if lo < hi {
      DigitsIn(s, lo + 1, hi);
    }
  }

  /** After the `@`: a name up to a bracket at j, and a number between the brackets. */
  predicate BracketAt(s: string, j: int) {
    1 < j < |s| - 1 && s[j] == '[' && ValidName(s[1..j]) && ValidIndex(s[j + 1..|s| - 1])
  }

  lemma TypedIn(s: string)
    requires s != "" && s[0] == '@'
    ensures MatchesIn(Then(NAME, Opt(INDEX)), s, 1, |s|) <==> ValidName(s[1..]) || (s[|s| - 1] == ']' && exists j :: BracketAt(s, j))
  {
    var n := |s|;
    NameIn(s, 1, n);
    assert s[1..n] == s[1..];
    ThenMaybe(NAME, INDEX, s, 1, n);
    forall j ensures CutAt(NAME, INDEX, s, 1, n, j) <==> BracketAt(s, j) && s[n - 1] == ']' {
      if 1 <= j <= n {
        BracketIn(s, j);
      }
    }
  }

  lemma BracketIn(s: string, j: int)
    requires s != "" && 1 <= j <= |s|
    ensures MatchesIn(NAME, s, 1, j) && MatchesIn(INDEX, s, j, |s|) <==> BracketAt(s, j) && s[|s| - 1] == ']'
  {
    NameIn(s, 1, j);
    BetweenBrackets(NUMBER, s, j, |s|);
    if j < |s| - 1 {
      NumberIn(s, j + 1, |s| - 1);
    }
  }

  // ---- The rules agree ------------------------------------------------------------

  lemma BracketsAgree(s: string)
    ensures (exists j :: BracketAt(s, j)) <==>
            exists j | 1 < j < |s| - 1 :: s[j] == '[' && ValidName(s[1..j]) && ValidIndex(s[j + 1..|s| - 1])
  {
    if j :| 1 < j < |s| - 1 && s[j] == '[' && ValidName(s[1..j]) && ValidIndex(s[j + 1..|s| - 1]) {
      assert BracketAt(s, j);
    }
  }

  /** The rule for sections accepts exactly what the pattern matches. */
  lemma SectionsAgree(s: string)
    ensures ValidSection(s) <==> Matches(SECTION, s)
  {
    var n := |s|;
    NameIn(s, 0, n);
    assert s[0..n] == s;
    JustThen('@', Then(NAME, Opt(INDEX)), s, 0, n);
    if s != "" && s[0] == '@' {
      TypedIn(s);
      BracketsAgree(s);
    }
  }

  lemma NamesAgree(s: string)
    ensures ValidName(s) <==> Matches(NAME, s)
  {
    NameIn(s, 0, |s|);
    assert s[0..|s|] == s;
  }

  lemma HealthChecksAgree(e: Env, s: string)
    ensures ValidHealthCheck(e, s) <==> e.parsesAsIp(s) || Matches(HEALTH, s)
  {
    RepeatedClass(HEALTH_CHARS, 1, Some(253), s, 0, |s|);
    forall i | 0 <= i < |s| ensures InRanges(HEALTH_CHARS, s[i]) <==> IsLetter(s[i]) || IsDigit(s[i]) || s[i] == '.' || s[i] == '-' {
      Classes(s[i]);
    }
  }

  lemma SkillNamesAgree(s: string)
    ensures Sentinel.NamePattern(s) <==> Matches(SKILL_NAME, s)
  {
    var n := |s|;
    ClassThen(LOWER_CHARS, SKILL_NAME.second, s, 0, n);
    if s != "" {
      RepeatedClass(SKILL_CHARS, 2, Some(63), s, 1, n);
      Classes(s[0]);
      forall i | 1 <= i < n ensures InRanges(SKILL_CHARS, s[i]) <==> 'a' <= s[i] <= 'z' || IsDigit(s[i]) || s[i] == '_' || s[i] == '-' {
        Classes(s[i]);
      }
    }
  }

  // ---- Identities, which the source checks in loops ---------------------------------

  lemma IdClasses(c: char)
    ensures InRanges(ID_CHARS, c) <==> IsIdChar(c)
    ensures InRanges(DEVICE_CHARS, c) <==> IsIdChar(c) || c == ':'
    ensures InRanges(HEX_CHARS, c) <==> IsDigit(c) || 'A' <= c <= 'F' || 'a' <= c <= 'f'
  {
    var n, d, h := ID_CHARS, DEVICE_CHARS, HEX_CHARS;
    assert n[0] == ('A', 'Z') && n[1] == ('a', 'z') && n[2] == ('0', '9') && n[3] == ('.', '.') && n[4] == ('_', '_') && n[5] == ('-', '-');
    assert d[0] == n[0] && d[1] == n[1] && d[2] == n[2] && d[3] == (':', ':') && d[4] == n[3] && d[5] == n[4] && d[6] == n[5];
    assert h[0] == ('A', 'F') && h[1] == ('a', 'f') && h[2] == ('0', '9');
  }

  /** [A-Za-z0-9._-]{1,128}, [A-Za-z0-9:._-]{1,50} and [A-Fa-f0-9]{64}. */
  lemma IdentitiesAgree(s: string)
    ensures ValidId(s) <==> Matches(Times(Chars(ID_CHARS), 1, Some(128)), s)
    ensures ValidDeviceId(s) <==> Matches(Times(Chars(DEVICE_CHARS), 1, Some(50)), s)
    ensures ValidHash(s) <==> Matches(Times(Chars(HEX_CHARS), 64, Some(64)), s)
  {
    RepeatedClass(ID_CHARS, 1, Some(128), s, 0, |s|);
    RepeatedClass(DEVICE_CHARS, 1, Some(50), s, 0, |s|);
    RepeatedClass(HEX_CHARS, 64, Some(64), s, 0, |s|);
    forall i | 0 <= i < |s|
      ensures InRanges(ID_CHARS, s[i]) <==> IsIdChar(s[i])
      ensures InRanges(DEVICE_CHARS, s[i]) <==> IsIdChar(s[i]) || s[i] == ':'
      ensures InRanges(HEX_CHARS, s[i]) <==> IsDigit(s[i]) || 'A' <= s[i] <= 'F' || 'a' <= s[i] <= 'f'
    {
      IdClasses(s[i]);
    }
  }
}
