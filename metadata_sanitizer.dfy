/**
 * sanitize_metadata of the transcribe module: an allow-list of keys, then an
 * ordered list of seventeen regular-expression substitutions on each value,
 * then strip, truncation to 256 characters and dropping of empty values.
 *
 * Every pattern is local (character classes, one-character lookbehind and
 * lookahead, a lazy search for a closing tag), so each substitution is
 * modelled by MatchEnd, which says where a match starting at a given index
 * ends, and by the scanning function SubFrom, which follows re.sub: it scans
 * left to right, replaces non-overlapping matches and lets every lookaround
 * read the ORIGINAL string.
 */
module MetadataSanitizer {
  import opened Wrappers
  import opened PyText

  /** The patterns of the list, in the order they are applied. */
  datatype Pattern =
    | ScriptBlock        // <script\b[^>]*>.*?</script>   IGNORECASE | DOTALL -> ''
    | StyleBlock         // <style\b[^>]*>.*?</style>     IGNORECASE | DOTALL -> ''
    | HtmlComment        // <!--.*?-->                    DOTALL -> ''
    | HtmlTag            // <[^>]+>                       -> ' '
    | ControlRun         // [\x00-\x1F\x7F\s]+            -> ' '
    | TimeColon          // (?<=\d):(?=\d{2}\b)           -> 'TIMECOLON'
    | CategorySlash      // (?<=[A-Za-z])/(?=[A-Za-z])    -> 'SLASH'
    | TrailingAmp        // &(?=\s|$)                     -> 'AMPERSAND'
    | Disallowed         // [^\w\s\-.,!?()'"&/:@]+        -> ' '
    | RestoreColon       // TIMECOLON                     -> ':'
    | RestoreSlash       // SLASH                         -> '/'
    | RestoreAmp         // AMPERSAND                     -> '&'
    | SpaceBeforeColon   // (?<=\d)\s+(?=:)               -> ''
    | MeridiemSpace      // (?<=[AP])\s+(?=M\b)           -> ''
    | AmpSpacing         // \s*&\s*                       -> ' & '
    | SlashSpacing       // \s*/\s*                       -> '/'
    | SpaceRun           // \s+                           -> ' '

  const Patterns: seq<Pattern> := [
    ScriptBlock, StyleBlock, HtmlComment, HtmlTag, ControlRun,
    TimeColon, CategorySlash, TrailingAmp,
    Disallowed,
    RestoreColon, RestoreSlash, RestoreAmp,
    SpaceBeforeColon, MeridiemSpace, AmpSpacing, SlashSpacing,
    SpaceRun
  ]

  const AllowedKeys: set<string> := {"speaker", "title", "track", "day"}
  const MaxLength := 256

  function Replacement(p: Pattern): string {
    match p
    case ScriptBlock => ""
    case StyleBlock => ""
    case HtmlComment => ""
    case HtmlTag => " "
    case ControlRun => " "
    case TimeColon => "TIMECOLON"
    case CategorySlash => "SLASH"
    case TrailingAmp => "AMPERSAND"
    case Disallowed => " "
    case RestoreColon => ":"
    case RestoreSlash => "/"
    case RestoreAmp => "&"
    case SpaceBeforeColon => ""
    case MeridiemSpace => ""
    case AmpSpacing => " & "
    case SlashSpacing => "/"
    case SpaceRun => " "
  }

  // ---------------------------------------------------------------------
  // Character classes of the patterns
  // ---------------------------------------------------------------------

  /** [\x00-\x1F\x7F\s] */
  predicate IsControlOrSpace(c: char) {
    IsControl(c) || IsSpace(c)
  }

  /** The class [\w\s\-.,!?()'"&/:@] whose complement the Disallowed pattern removes. */
  predicate IsAllowed(c: char) {
    IsWordChar(c) || IsSpace(c) || c in "-.,!?()'\"&/:@"
  }

  /** Case-insensitive match of one character against a lower-case ASCII letter, as re.IGNORECASE does it: the dotted capital I and the dotless i match 'i', the long s matches 's'. */
  predicate CharMatchesIgnoreCase(c: char, lower: char) {
    LowerChar(c) == lower
    || (lower == 'i' && (c == '\U{130}' || c == '\U{131}'))
    || (lower == 's' && c == '\U{17F}')
  }

  /** The literal `word` (lower-case) occurs at index i of s, ignoring case. */
  predicate MatchesIgnoreCaseAt(s: string, i: nat, word: string)
  {
    i + |word| <= |s| && forall k :: 0 <= k < |word| ==> CharMatchesIgnoreCase(s[i + k], word[k])
  }

  predicate MatchesAt(s: string, i: nat, word: string)
  {
    i + |word| <= |s| && s[i..i + |word|] == word
  }

  // ---------------------------------------------------------------------
  // Searching
  // ---------------------------------------------------------------------

  /** The character classes whose runs the patterns consume. */
  datatype RunClass = Spaces | ControlsOrSpaces | NotAllowed

  predicate InClass(cls: RunClass, c: char) {
    match cls
    case Spaces => IsSpace(c)
    case ControlsOrSpaces => IsControlOrSpace(c)
    case NotAllowed => !IsAllowed(c)
  }

  /** The end of the longest run of characters of class cls that starts at i. */
  function RunEnd(s: string, i: nat, cls: RunClass): (j: nat)
    requires i <= |s|
    ensures i <= j <= |s|
    ensures forall k :: i <= k < j ==> InClass(cls, s[k])
    ensures j == |s| || !InClass(cls, s[j])
    decreases |s| - i
  {
    if i < |s| && InClass(cls, s[i]) then RunEnd(s, i + 1, cls) else i
  }

  /** The first index at or after i where c occurs. */
  function FindChar(s: string, c: char, i: nat): (r: Option<nat>)
    requires i <= |s|
    ensures r.Some? ==> i <= r.value < |s| && s[r.value] == c
    ensures r.Some? ==> forall k :: i <= k < r.value ==> s[k] != c
    ensures r.None? ==> forall k :: i <= k < |s| ==> s[k] != c
    decreases |s| - i
  {
    if i == |s| then None
    else if s[i] == c then Some(i)
    else FindChar(s, c, i + 1)
  }

  /** The first index at or after i where `word` occurs (ignoring case if asked). */
  function Find(s: string, word: string, i: nat, ignoreCase: bool): (r: Option<nat>)
    requires i <= |s|
    ensures r.Some? ==> i <= r.value && r.value + |word| <= |s|
    ensures r.Some? ==> if ignoreCase then MatchesIgnoreCaseAt(s, r.value, word) else MatchesAt(s, r.value, word)
    decreases |s| - i
  {
    if i + |word| > |s| then None
    else if (if ignoreCase then MatchesIgnoreCaseAt(s, i, word) else MatchesAt(s, i, word)) then Some(i)
    else Find(s, word, i + 1, ignoreCase)
  }

  // ---------------------------------------------------------------------
  // Where a match of each pattern starting at i ends
  // ---------------------------------------------------------------------

  /** <tag\b[^>]*>.*?</tag> with IGNORECASE and DOTALL. */
  function BlockEnd(s: string, i: nat, tag: string): (r: Option<nat>)
    requires i < |s|
    ensures r.Some? ==> i < r.value <= |s|
  {
    var k := i + 1 + |tag|;
    if s[i] == '<' && MatchesIgnoreCaseAt(s, i + 1, tag) && (k == |s| || !IsWordChar(s[k])) then
      match FindChar(s, '>', k)
      case None => None
      case Some(gt) =>
        match Find(s, "</" + tag + ">", gt + 1, true)
        case None => None
        case Some(close) => Some(close + |tag| + 3)
    else None
  }

  /** The lookahead (?=\d{2}\b) after a colon at index i. */
  predicate TwoDigitsFollow(s: string, i: nat)
  {
    i + 2 < |s| && IsDigit(s[i + 1]) && IsDigit(s[i + 2]) && (i + 3 == |s| || !IsWordChar(s[i + 3]))
  }

  function MatchEnd(p: Pattern, s: string, i: nat): (r: Option<nat>)
    requires i < |s|
    ensures r.Some? ==> i < r.value <= |s|
  {
    match p
    case ScriptBlock => BlockEnd(s, i, "script")
    case StyleBlock => BlockEnd(s, i, "style")
    case HtmlComment =>
      if MatchesAt(s, i, "<!--") then
        match Find(s, "-->", i + 4, false)
        case None => None
        case Some(close) => Some(close + 3)
      else None
    case HtmlTag =>
      if s[i] == '<' then
        match FindChar(s, '>', i + 1)
        case None => None
        case Some(gt) => if gt > i + 1 then Some(gt + 1) else None
      else None
    case ControlRun =>
      if IsControlOrSpace(s[i]) then Some(RunEnd(s, i, ControlsOrSpaces)) else None
    case TimeColon =>
      if s[i] == ':' && i > 0 && IsDigit(s[i - 1]) && TwoDigitsFollow(s, i) then Some(i + 1) else None
    case CategorySlash =>
      if s[i] == '/' && i > 0 && IsAsciiLetter(s[i - 1]) && i + 1 < |s| && IsAsciiLetter(s[i + 1]) then Some(i + 1) else None
    case TrailingAmp =>
      if s[i] == '&' && (i + 1 == |s| || IsSpace(s[i + 1])) then Some(i + 1) else None
    case Disallowed =>
      if !IsAllowed(s[i]) then Some(RunEnd(s, i, NotAllowed)) else None
    case RestoreColon => if MatchesAt(s, i, "TIMECOLON") then Some(i + 9) else None
    case RestoreSlash => if MatchesAt(s, i, "SLASH") then Some(i + 5) else None
    case RestoreAmp => if MatchesAt(s, i, "AMPERSAND") then Some(i + 9) else None
    case SpaceBeforeColon =>
      if i > 0 && IsDigit(s[i - 1]) && IsSpace(s[i]) then
        var j := RunEnd(s, i, Spaces);
        if j < |s| && s[j] == ':' then Some(j) else None
      else None
    case MeridiemSpace =>
      if i > 0 && (s[i - 1] == 'A' || s[i - 1] == 'P') && IsSpace(s[i]) then
        var j := RunEnd(s, i, Spaces);
        if j < |s| && s[j] == 'M' && (j + 1 == |s| || !IsWordChar(s[j + 1])) then Some(j) else None
      else None
    case AmpSpacing =>
      var j := RunEnd(s, i, Spaces);
      if j < |s| && s[j] == '&' then Some(RunEnd(s, j + 1, Spaces)) else None
    case SlashSpacing =>
      var j := RunEnd(s, i, Spaces);
      if j < |s| && s[j] == '/' then Some(RunEnd(s, j + 1, Spaces)) else None
    case SpaceRun =>
      if IsSpace(s[i]) then Some(RunEnd(s, i, Spaces)) else None
  }

  // ---------------------------------------------------------------------
  // re.sub
  // ---------------------------------------------------------------------

  /** pattern.sub(replacement, s) from index i on. */
  function SubFrom(p: Pattern, s: string, i: nat): string
    requires i <= |s|
    decreases |s| - i
  {
    if i == |s| then ""
    else match MatchEnd(p, s, i)
      case Some(j) => Replacement(p) + SubFrom(p, s, j)
      case None => [s[i]] + SubFrom(p, s, i + 1)
  }

  function Sub(p: Pattern, s: string): string {
    SubFrom(p, s, 0)
  }

  /** The patterns ps applied in order, each to the previous one's output. */
  function ApplyAll(ps: seq<Pattern>, s: string): string
    decreases |ps|
  {
    if ps == [] then s else Sub(ps[|ps| - 1], ApplyAll(ps[..|ps| - 1], s))
  }

  // ---------------------------------------------------------------------
  // Which characters can come out of a substitution
  // ---------------------------------------------------------------------

  predicate All(s: string, P: char -> bool) {
    forall k :: 0 <= k < |s| ==> P(s[k])
  }

  /** Where no match starts at i, re.sub copies s[i] and goes on at i + 1. */
  lemma CopyStep(p: Pattern, s: string, i: nat)
    requires i < |s| && MatchEnd(p, s, i).None?
    ensures SubFrom(p, s, i) == [s[i]] + SubFrom(p, s, i + 1)
  {
  }

  /** Where a match starts at i and ends at e, re.sub writes the replacement and goes on at e. */
  lemma MatchStep(p: Pattern, s: string, i: nat, e: nat)
    requires i < |s| && MatchEnd(p, s, i) == Some(e)
    ensures SubFrom(p, s, i) == Replacement(p) + SubFrom(p, s, e)
  {
  }

  lemma AppendAssoc(a: string, b: string, c: string)
    ensures a + (b + c) == (a + b) + c
  {
  }

  /** Every character re.sub produces is either copied from a position where no match starts, or part of the replacement. */
  lemma {:induction false} SubFromKeeps(p: Pattern, s: string, i: nat, P: char -> bool)
    requires i <= |s|
    requires All(Replacement(p), P)
    requires forall j :: i <= j < |s| && MatchEnd(p, s, j).None? ==> P(s[j])
    ensures All(SubFrom(p, s, i), P)
    decreases |s| - i
  {
    if i < |s| {
      match MatchEnd(p, s, i)
      case Some(j) =>
        SubFromKeeps(p, s, j, P);
        AllConcat(Replacement(p), SubFrom(p, s, j), P);
      case None =>
        SubFromKeeps(p, s, i + 1, P);
        AllConcat([s[i]], SubFrom(p, s, i + 1), P);
    }
  }

  lemma AllConcat(a: string, b: string, P: char -> bool)
    requires All(a, P) && All(b, P)
    ensures All(a + b, P)
  {
    forall k | 0 <= k < |a + b| ensures P((a + b)[k]) {
      if k < |a| {
        assert (a + b)[k] == a[k];
      } else {
        assert (a + b)[k] == b[k - |a|];
      }
    }
  }

  /** Where no match starts at any position from i on, re.sub copies the rest of the text unchanged. */
  lemma {:induction false} NoMatchCopies(p: Pattern, s: string, i: nat)
    requires i <= |s|
    requires forall j :: i <= j < |s| ==> MatchEnd(p, s, j).None?
    ensures SubFrom(p, s, i) == s[i..]
    decreases |s| - i
  {
    NoMatchBetween(p, s, i, |s|);
    assert s[i..|s|] + SubFrom(p, s, |s|) == s[i..];
  }

  /** The output of the first n patterns of the list. */
  function Stage(n: nat, s: string): string
    requires n <= |Patterns|
  {
    ApplyAll(Patterns[..n], s)
  }

  lemma StageStep(n: nat, s: string)
    requires n < |Patterns|
    ensures Stage(n + 1, s) == Sub(Patterns[n], Stage(n, s))
  {
    assert Patterns[..n + 1][..n] == Patterns[..n];
  }

  /** A property of characters that every replacement from stage lo on respects survives those stages. */
  lemma {:induction false} StagesKeep(s: string, lo: nat, hi: nat, P: char -> bool)
    requires lo <= hi <= |Patterns|
    requires forall n :: lo <= n < hi ==> All(Replacement(Patterns[n]), P)
    requires All(Stage(lo, s), P)
    ensures All(Stage(hi, s), P)
    decreases hi - lo
  {
    if lo < hi {
      StageStep(lo, s);
      SubFromKeeps(Patterns[lo], Stage(lo, s), 0, P);
      StagesKeep(s, lo + 1, hi, P);
    }
  }

  /** No '<', no '>' and no control character. */
  predicate IsSafe(c: char) {
    c != '<' && c != '>' && !IsControl(c)
  }

  predicate NotControl(c: char) {
    !IsControl(c)
  }

  predicate AllowedNotControl(c: char) {
    IsAllowed(c) && !IsControl(c)
  }

  /** After the pattern list no value holds '<', '>' or a control character: the control run pass removes the control characters, the Disallowed pass the angle brackets that the tag passes left, and no later replacement brings either back. */
  lemma ControlPassClears(s: string)
    ensures All(Stage(5, s), NotControl)
  {
    var s4 := Stage(4, s);
    StageStep(4, s);
    SubFromKeeps(ControlRun, s4, 0, NotControl);
  }
  lemma ColonSlashAmpKeepClear(s: string)
    requires All(Stage(5, s), NotControl)
    ensures All(Stage(8, s), NotControl)
  {
    StagesKeep(s, 5, 8, NotControl);
  }
  lemma DisallowedPassMakesSafe(s: string)
    requires All(Stage(8, s), NotControl)
    ensures All(Stage(9, s), IsSafe)
  {
    var s8 := Stage(8, s);
    StageStep(8, s);
    assert All(Replacement(Disallowed), AllowedNotControl);
    forall j | 0 <= j < |s8| && MatchEnd(Disallowed, s8, j).None?
      ensures AllowedNotControl(s8[j])
    {
      assert IsAllowed(s8[j]) && NotControl(s8[j]);
    }
    SubFromKeeps(Disallowed, s8, 0, AllowedNotControl);
    var s9 := Sub(Disallowed, s8);
    forall k | 0 <= k < |s9| ensures IsSafe(s9[k]) {
      AllowedIsNotBracket(s9[k]);
    }
  }

  lemma AllowedIsNotBracket(c: char)
    requires AllowedNotControl(c)
    ensures IsSafe(c)
  {
  }
  lemma LaterPassesKeepSafe(s: string)
    requires All(Stage(9, s), IsSafe)
    ensures All(Stage(17, s), IsSafe)
  {
    StagesKeep(s, 9, 17, IsSafe);
  }
  lemma StageAllIsPatterns(s: string)
    ensures Stage(17, s) == ApplyAll(Patterns, s)
  {
    assert Patterns[..17] == Patterns;
  }

  lemma PatternsMakeSafe(s: string)
    ensures All(ApplyAll(Patterns, s), IsSafe)
  {
    ControlPassClears(s);
    ColonSlashAmpKeepClear(s);
    DisallowedPassMakesSafe(s);
    LaterPassesKeepSafe(s);
    StageAllIsPatterns(s);
  }

  // ---------------------------------------------------------------------
  // Single passes on concrete values
  // ---------------------------------------------------------------------

  /** A slash between letters is protected as the word SLASH ... */
  lemma CategorySlashExample()
    ensures Sub(CategorySlash, "AI/ML") == "AISLASHML"
  {
    var s := "AI/ML";
    assert MatchEnd(CategorySlash, s, 0).None? && MatchEnd(CategorySlash, s, 1).None?;
    assert MatchEnd(CategorySlash, s, 2) == Some(3);
    forall j | 3 <= j < |s| ensures MatchEnd(CategorySlash, s, j).None? {
      assert s[j] != '/';
    }
    NoMatchCopies(CategorySlash, s, 3);
    assert s[3..] == "ML";
  }

  /** ... and restoration is blind: the literal word SLASH in the input becomes '/' as well. */
  lemma RestoreSlashExample()
    ensures Sub(RestoreSlash, "SLASHDOT") == "/DOT"
  {
    var s := "SLASHDOT";
    assert MatchEnd(RestoreSlash, s, 0) == Some(5) by { assert s[..5] == "SLASH"; }
    assert SubFrom(RestoreSlash, s, 5) == "DOT" by {
      assert !MatchesAt(s, 5, "SLASH") && !MatchesAt(s, 6, "SLASH") && !MatchesAt(s, 7, "SLASH");
    }
  }

  /** A time colon is protected as TIMECOLON. */
  lemma TimeColonExample()
    ensures Sub(TimeColon, "9:00 AM") == "9TIMECOLON00 AM"
  {
    var s := "9:00 AM";
    assert MatchEnd(TimeColon, s, 0).None?;
    assert MatchEnd(TimeColon, s, 1) == Some(2) by { assert TwoDigitsFollow(s, 1); }
    forall j | 2 <= j < |s| ensures MatchEnd(TimeColon, s, j).None? {
      assert s[j] != ':';
    }
    NoMatchCopies(TimeColon, s, 2);
    assert s[2..] == "00 AM";
    assert SubFrom(TimeColon, s, 1) == "TIMECOLON" + "00 AM";
    assert SubFrom(TimeColon, s, 0) == "9" + SubFrom(TimeColon, s, 1);
  }

  /** The space before AM survives: its lookbehind needs 'A' or 'P' before the space. */
  lemma MeridiemSpaceExample()
    ensures Sub(MeridiemSpace, "9:00 AM") == "9:00 AM"
  {
    var s := "9:00 AM";
    forall j | 0 <= j < |s| ensures MatchEnd(MeridiemSpace, s, j).None? {
      assert j == 4 || !IsSpace(s[j]);
      assert j == 4 ==> s[j - 1] == '0';
    }
    NoMatchCopies(MeridiemSpace, s, 0);
    assert s[0..] == s;
  }

  /** '@' is in the allowed class, so the Disallowed pass keeps it. */
  lemma AtSignKept()
    ensures Sub(Disallowed, "@2024") == "@2024"
  {
    var s := "@2024";
    forall j | 0 <= j < |s| ensures MatchEnd(Disallowed, s, j).None? {
      assert IsAllowed(s[j]);
    }
    NoMatchCopies(Disallowed, s, 0);
    assert s[0..] == s;
  }

  // ---------------------------------------------------------------------
  // Passes that leave a text unchanged
  // ---------------------------------------------------------------------

  /** Characters every match of p contains; none for the three class-based patterns. */
  function Keys(p: Pattern): string {
    match p
    case ScriptBlock => "<"
    case StyleBlock => "<"
    case HtmlComment => "<"
    case HtmlTag => "<"
    case ControlRun => ""
    case TimeColon => ":"
    case CategorySlash => "/"
    case TrailingAmp => "&"
    case Disallowed => ""
    case RestoreColon => "TIMECOLON"
    case RestoreSlash => "SLASH"
    case RestoreAmp => "AMPERSAND"
    case SpaceBeforeColon => ":"
    case MeridiemSpace => "M"
    case AmpSpacing => "&"
    case SlashSpacing => "/"
    case SpaceRun => ""
  }

  lemma NotMatchesWithout(s: string, j: nat, word: string, c: char)
    requires c in word && c !in s
    ensures !MatchesAt(s, j, word)
  {
    var k :| 0 <= k < |word| && word[k] == c;
    if j + |word| <= |s| {
      assert s[j..j + |word|][k] == s[j + k];
      assert s[j + k] in s;
    }
  }

  /** A text lacking one of p's key characters holds no match of p. */
  lemma NoKeyNoMatch(p: Pattern, s: string, j: nat, c: char)
    requires j < |s| && c in Keys(p) && c !in s
    ensures MatchEnd(p, s, j).None?
  {
    assert s[j] in s;
    match p
    case RestoreColon => NotMatchesWithout(s, j, "TIMECOLON", c);
    case RestoreSlash => NotMatchesWithout(s, j, "SLASH", c);
    case RestoreAmp => NotMatchesWithout(s, j, "AMPERSAND", c);
    case SpaceBeforeColon =>
      var e := RunEnd(s, j, Spaces);
      if e < |s| {
        assert s[e] in s;
      }
    case MeridiemSpace =>
      var e := RunEnd(s, j, Spaces);
      if e < |s| {
        assert s[e] in s;
      }
    case AmpSpacing =>
      var e := RunEnd(s, j, Spaces);
      if e < |s| {
        assert s[e] in s;
      }
    case SlashSpacing =>
      var e := RunEnd(s, j, Spaces);
      if e < |s| {
        assert s[e] in s;
      }
    case _ =>
  }

  /** Where every match re-writes exactly the text it matched, re.sub changes nothing. */
  lemma {:induction false} SelfReplacing(p: Pattern, s: string, i: nat)
    requires i <= |s|
    requires forall j :: i <= j < |s| && MatchEnd(p, s, j).Some? ==> s[j..MatchEnd(p, s, j).value] == Replacement(p)
    ensures SubFrom(p, s, i) == s[i..]
    decreases |s| - i
  {
    if i < |s| {
      var m := MatchEnd(p, s, i);
      if m.Some? {
        var e := m.value;
        MatchStep(p, s, i, e);
        SelfReplacing(p, s, e);
        assert s[i..] == s[i..e] + s[e..];
      } else {
        CopyStep(p, s, i);
        SelfReplacing(p, s, i + 1);
        assert s[i..] == [s[i]] + s[i + 1..];
      }
    }
  }

  /** Single spaces between non-spaces are matched by the whitespace-run patterns and put back as they were. */
  /** Every whitespace or control character is a single plain space. */
  predicate SingleSpaced(s: string) {
    forall j :: 0 <= j < |s| && IsControlOrSpace(s[j]) ==> s[j] == ' ' && (j + 1 == |s| || !IsControlOrSpace(s[j + 1]))
  }

  lemma SingleSpacesKept(p: Pattern, s: string)
    requires p == ControlRun || p == SpaceRun
    requires SingleSpaced(s)
    ensures Sub(p, s) == s
  {
    forall j | 0 <= j < |s| && MatchEnd(p, s, j).Some?
      ensures s[j..MatchEnd(p, s, j).value] == Replacement(p)
    {
      var cls := if p == ControlRun then ControlsOrSpaces else Spaces;
      assert IsControlOrSpace(s[j]);
      if j + 1 < |s| {
        assert !InClass(cls, s[j + 1]);
      }
      assert RunEnd(s, j + 1, cls) == j + 1;
    }
    SelfReplacing(p, s, 0);
  }

  /** Up to k no match starts, so re.sub copies s[i..k] and goes on from k. */
  lemma {:induction false} NoMatchBetween(p: Pattern, s: string, i: nat, k: nat)
    requires i <= k <= |s|
    requires forall j :: i <= j < k ==> MatchEnd(p, s, j).None?
    ensures SubFrom(p, s, i) == s[i..k] + SubFrom(p, s, k)
    decreases k - i
  {
    if i < k {
      CopyStep(p, s, i);
      NoMatchBetween(p, s, i + 1, k);
      assert s[i..k] == [s[i]] + s[i + 1..k];
      AppendAssoc([s[i]], s[i + 1..k], SubFrom(p, s, k));
    } else {
      assert s[i..k] == [];
    }
  }

  /** The character a match of p must start with, for the patterns that have one. */
  function StartChar(p: Pattern): Option<char> {
    match p
    case ScriptBlock => Some('<')
    case StyleBlock => Some('<')
    case HtmlComment => Some('<')
    case HtmlTag => Some('<')
    case TimeColon => Some(':')
    case CategorySlash => Some('/')
    case TrailingAmp => Some('&')
    case RestoreColon => Some('T')
    case RestoreSlash => Some('S')
    case RestoreAmp => Some('A')
    case _ => None
  }

  /** Where the start character is missing, no match starts. */
  lemma StartCharAbsent(p: Pattern, s: string, lo: nat, hi: nat)
    requires StartChar(p).Some? && lo <= hi <= |s|
    requires forall j :: lo <= j < hi ==> s[j] != StartChar(p).value
    ensures forall j :: lo <= j < hi ==> MatchEnd(p, s, j).None?
  {
    forall j | lo <= j < hi ensures MatchEnd(p, s, j).None? {
      var word := match p case RestoreColon => "TIMECOLON" case RestoreSlash => "SLASH" case _ => "AMPERSAND";
      if j + |word| <= |s| {
        assert s[j..j + |word|][0] == s[j];
      }
      if j + 4 <= |s| {
        assert s[j..j + 4][0] == s[j];
      }
    }
  }

  /** From i, re.sub copies up to the next match at k, writes the replacement and goes on where the match ends. */
  lemma NextMatch(p: Pattern, s: string, i: nat, k: nat, e: nat)
    requires i <= k < |s|
    requires forall j :: i <= j < k ==> MatchEnd(p, s, j).None?
    requires MatchEnd(p, s, k) == Some(e)
    ensures SubFrom(p, s, i) == s[i..k] + Replacement(p) + SubFrom(p, s, e)
  {
    NoMatchBetween(p, s, i, k);
  }

  /** From i on no match starts: re.sub copies the rest. */
  lemma LastMatch(p: Pattern, s: string, i: nat)
    requires i <= |s|
    requires forall j :: i <= j < |s| ==> MatchEnd(p, s, j).None?
    ensures SubFrom(p, s, i) == s[i..]
  {
    NoMatchCopies(p, s, i);
  }

  /** A pass with one match, at k and ending at e, and its start character nowhere else. */
  lemma OneMatch(p: Pattern, s: string, k: nat, e: nat, t: string)
    requires StartChar(p).Some? && k < |s| && MatchEnd(p, s, k) == Some(e)
    requires forall j :: 0 <= j < k ==> s[j] != StartChar(p).value
    requires forall j :: e <= j < |s| ==> s[j] != StartChar(p).value
    requires t == s[..k] + Replacement(p) + s[e..]
    ensures Sub(p, s) == t
  {
    StartCharAbsent(p, s, 0, k);
    NextMatch(p, s, 0, k, e);
    StartCharAbsent(p, s, e, |s|);
    LastMatch(p, s, e);
    assert s[0..k] == s[..k];
  }

  /** Passes lo to hi - 1 each leave t unchanged, so the stages from lo to hi hold t. */
  lemma {:induction false} StagesKeepText(x: string, t: string, lo: nat, hi: nat)
    requires lo <= hi <= |Patterns| && Stage(lo, x) == t
    requires forall n :: lo <= n < hi ==> Sub(Patterns[n], t) == t
    ensures Stage(hi, x) == t
    decreases hi - lo
  {
    if lo < hi {
      StageStep(lo, x);
      StagesKeepText(x, t, lo + 1, hi);
    }
  }

  /** A pass leaves a text without one of its key characters unchanged. */
  lemma KeyAbsentSub(p: Pattern, t: string, c: char)
    requires c in Keys(p) && c !in t
    ensures Sub(p, t) == t
  {
    forall j | 0 <= j < |t| ensures MatchEnd(p, t, j).None? {
      NoKeyNoMatch(p, t, j, c);
    }
    NoMatchCopies(p, t, 0);
    assert t[0..] == t;
  }

  /** The Disallowed pass leaves a text of allowed characters unchanged. */
  lemma AllowedSub(t: string)
    requires All(t, IsAllowed)
    ensures Sub(Disallowed, t) == t
  {
    NoMatchCopies(Disallowed, t, 0);
    assert t[0..] == t;
  }

  /** The four tag passes leave a text without '<' unchanged. */
  lemma TagPassesKeep(t: string)
    requires '<' !in t
    ensures forall n :: 0 <= n < 4 ==> Sub(Patterns[n], t) == t
  {
    KeyAbsentSub(ScriptBlock, t, '<');
    KeyAbsentSub(StyleBlock, t, '<');
    KeyAbsentSub(HtmlComment, t, '<');
    KeyAbsentSub(HtmlTag, t, '<');
  }

  /** A value that comes out of the pattern list unchanged, and is stripped and short, is kept as it is. */
  lemma KeptValue(t: string)
    requires ApplyAll(Patterns, t) == t
    requires t == [] || (!IsSpace(t[0]) && !IsSpace(t[|t| - 1]))
    requires |t| <= MaxLength
    ensures SanitizeValue(Str(t)) == t
  {
    StripUnchanged(t);
  }

  // ---------------------------------------------------------------------
  // Whole values of the special-characters test case
  // ---------------------------------------------------------------------

  /*
   * The literals are parameters pinned by a precondition: a literal in a
   * call would have the verifier unfold the whole scan at once.
   */

  lemma MondayTimeColon(s: string, t: string)
    requires s == "Monday @ 9:00 AM" && t == "Monday @ 9TIMECOLON00 AM"
    ensures Sub(TimeColon, s) == t
  {
    assert TwoDigitsFollow(s, 10);
    OneMatch(TimeColon, s, 10, 11, t);
  }

  lemma MondayRestoreColon(s: string, t: string)
    requires s == "Monday @ 9:00 AM" && t == "Monday @ 9TIMECOLON00 AM"
    ensures Sub(RestoreColon, t) == s
  {
    assert t[10..19] == "TIMECOLON";
    OneMatch(RestoreColon, t, 10, 19, s);
  }

  /** The space after the digit is not removed: no colon follows it. */
  lemma MondaySpaceNotBeforeColon(s: string)
    requires s == "Monday @ 9:00 AM"
    ensures Sub(SpaceBeforeColon, s) == s
  {
    forall j | 0 <= j < |s| ensures MatchEnd(SpaceBeforeColon, s, j).None? {
      if j == 13 {
        assert RunEnd(s, 14, Spaces) == 14;
      }
    }
    NoMatchCopies(SpaceBeforeColon, s, 0);
    assert s[0..] == s;
  }

  /** The space before "AM" is not removed: no 'A' or 'P' precedes it. */
  lemma MondaySpaceBeforeMeridiem(s: string)
    requires s == "Monday @ 9:00 AM"
    ensures Sub(MeridiemSpace, s) == s
  {
    forall j | 0 <= j < |s| ensures MatchEnd(MeridiemSpace, s, j).None? {
    }
    NoMatchCopies(MeridiemSpace, s, 0);
    assert s[0..] == s;
  }

  lemma MondaySingleSpaces(s: string)
    requires s == "Monday @ 9:00 AM"
    ensures Sub(ControlRun, s) == s && Sub(SpaceRun, s) == s
  {
    SingleSpacesKept(ControlRun, s);
    SingleSpacesKept(SpaceRun, s);
  }

  /** The passes that leave the day value as it is: all but the time colon's protection and restoration. */
  lemma MondayEarlyPasses(s: string)
    requires s == "Monday @ 9:00 AM"
    ensures forall n :: 0 <= n < 5 ==> Sub(Patterns[n], s) == s
  {
    TagPassesKeep(s);
    MondaySingleSpaces(s);
  }

  lemma MondayProtectedPasses(t: string)
    requires t == "Monday @ 9TIMECOLON00 AM"
    ensures forall n :: 6 <= n < 9 ==> Sub(Patterns[n], t) == t
  {
    MondayProtectedChars(t);
    KeyAbsentSub(CategorySlash, t, '/');
    KeyAbsentSub(TrailingAmp, t, '&');
    MondayProtectedAllowed(t);
  }

  lemma MondayProtectedChars(t: string)
    requires t == "Monday @ 9TIMECOLON00 AM"
    ensures '/' !in t && '&' !in t
  {
  }

  lemma MondayProtectedAllowed(t: string)
    requires t == "Monday @ 9TIMECOLON00 AM"
    ensures Sub(Disallowed, t) == t
  {
    AllowedSub(t);
  }

  lemma MondayLatePasses(s: string)
    requires s == "Monday @ 9:00 AM"
    ensures forall n :: 10 <= n < 17 ==> Sub(Patterns[n], s) == s
  {
    MondayNoRestoreWords(s);
    MondaySpaceNotBeforeColon(s);
    MondaySpaceBeforeMeridiem(s);
    MondayNoAmpersandOrSlash(s);
    MondaySingleSpaces(s);
  }

  lemma MondayNoRestoreWords(s: string)
    requires s == "Monday @ 9:00 AM"
    ensures Sub(RestoreSlash, s) == s && Sub(RestoreAmp, s) == s
  {
    KeyAbsentSub(RestoreSlash, s, 'L');
    KeyAbsentSub(RestoreAmp, s, 'N');
  }

  lemma MondayNoAmpersandOrSlash(s: string)
    requires s == "Monday @ 9:00 AM"
    ensures Sub(AmpSpacing, s) == s && Sub(SlashSpacing, s) == s
  {
    KeyAbsentSub(AmpSpacing, s, '&');
    KeyAbsentSub(SlashSpacing, s, '/');
  }

  /** The day value up to the Disallowed pass: unchanged until the time colon is protected. */
  lemma MondayProtect(s: string, t: string)
    requires s == "Monday @ 9:00 AM" && t == "Monday @ 9TIMECOLON00 AM"
    ensures Stage(9, s) == t
  {
    MondayEarlyPasses(s);
    StagesKeepText(s, s, 0, 5);
    MondayTimeColon(s, t);
    StageStep(5, s);
    MondayProtectedPasses(t);
    StagesKeepText(s, t, 6, 9);
  }

  lemma MondayRestore(s: string, t: string)
    requires s == "Monday @ 9:00 AM" && t == "Monday @ 9TIMECOLON00 AM"
    requires Stage(9, s) == t
    ensures Stage(17, s) == s
  {
    MondayRestoreColon(s, t);
    StageStep(9, s);
    MondayLatePasses(s);
    StagesKeepText(s, s, 10, 17);
  }

  /** 'Monday @ 9:00 AM' comes through unchanged: the time colon is protected and restored, '@' is allowed. */
  lemma MondayAtNineKept(s: string)
    requires s == "Monday @ 9:00 AM"
    ensures SanitizeValue(Str(s)) == s
  {
    var t := "Monday @ 9TIMECOLON00 AM";
    MondayProtect(s, t);
    MondayRestore(s, t);
    StageAllIsPatterns(s);
    KeptValue(s);
  }

  /** The passes before the Disallowed one leave t unchanged when t holds no '<', ':', '/' or '&' and only single spaces. */
  lemma EarlyPassesKeep(t: string)
    requires '<' !in t && ':' !in t && '/' !in t && '&' !in t && SingleSpaced(t)
    ensures forall n :: 0 <= n < 8 ==> Sub(Patterns[n], t) == t
  {
    TagPassesKeep(t);
    SingleSpacesKept(ControlRun, t);
    KeyAbsentSub(TimeColon, t, ':');
    KeyAbsentSub(CategorySlash, t, '/');
    KeyAbsentSub(TrailingAmp, t, '&');
  }

  /** The three restore passes leave t unchanged when t lacks a character of each restored word: a of TIMECOLON, b of SLASH, c of AMPERSAND. */
  lemma RestorePassesKeep(t: string, a: char, b: char, c: char)
    requires a in Keys(RestoreColon) && a !in t
    requires b in Keys(RestoreSlash) && b !in t
    requires c in Keys(RestoreAmp) && c !in t
    ensures forall n :: 9 <= n < 12 ==> Sub(Patterns[n], t) == t
  {
    KeyAbsentSub(RestoreColon, t, a);
    KeyAbsentSub(RestoreSlash, t, b);
    KeyAbsentSub(RestoreAmp, t, c);
  }

  /** The four spacing passes before the last leave t unchanged when t holds no ':', 'M', '&' or '/'. */
  lemma SpacingPassesKeep(t: string)
    requires ':' !in t && '/' !in t && '&' !in t && 'M' !in t
    ensures forall n :: 12 <= n < 16 ==> Sub(Patterns[n], t) == t
  {
    KeyAbsentSub(SpaceBeforeColon, t, ':');
    KeyAbsentSub(MeridiemSpace, t, 'M');
    KeyAbsentSub(AmpSpacing, t, '&');
    KeyAbsentSub(SlashSpacing, t, '/');
  }

  lemma EmailNoKeys(s: string)
    requires s == "John.Doe@company.com"
    ensures '<' !in s && ':' !in s && '/' !in s && '&' !in s && 'M' !in s
  {
  }

  lemma EmailNoWords(s: string)
    requires s == "John.Doe@company.com"
    ensures 'T' !in s && 'S' !in s && 'A' !in s
  {
  }

  lemma EmailSpacing(s: string)
    requires s == "John.Doe@company.com"
    ensures SingleSpaced(s) && All(s, IsAllowed)
  {
    EmailSingleSpaced(s);
  }

  lemma EmailSingleSpaced(s: string)
    requires s == "John.Doe@company.com"
    ensures SingleSpaced(s)
  {
  }

  lemma EmailPassesKeep(s: string)
    requires '<' !in s && ':' !in s && '/' !in s && '&' !in s && 'M' !in s && SingleSpaced(s) && All(s, IsAllowed)
    requires 'T' !in s && 'S' !in s && 'A' !in s
    ensures forall n :: 0 <= n < 16 ==> Sub(Patterns[n], s) == s
  {
    EarlyPassesKeep(s);
    AllowedSub(s);
    RestorePassesKeep(s, 'T', 'S', 'A');
    SpacingPassesKeep(s);
  }

  /** 'John.Doe@company.com' comes through unchanged: it holds no character a pass looks for, and '.' and '@' are allowed. */
  lemma EmailKept(s: string)
    requires s == "John.Doe@company.com"
    ensures SanitizeValue(Str(s)) == s
  {
    EmailNoKeys(s);
    EmailNoWords(s);
    EmailSpacing(s);
    EmailPassesKeep(s);
    SingleSpacesKept(SpaceRun, s);
    StagesKeepText(s, s, 0, 17);
    StageAllIsPatterns(s);
    KeptValue(s);
  }

  /** Where only allowed characters stand, the Disallowed pass finds no match. */
  lemma AllowedNoMatch(s: string, lo: nat, hi: nat)
    requires lo <= hi <= |s|
    requires forall j :: lo <= j < hi ==> IsAllowed(s[j])
    ensures forall j :: lo <= j < hi ==> MatchEnd(Disallowed, s, j).None?
  {
  }

  /** Where no whitespace stands, the whitespace-run pass finds no match. */
  lemma NonSpaceNoMatch(s: string, lo: nat, hi: nat)
    requires lo <= hi <= |s|
    requires forall j :: lo <= j < hi ==> !IsSpace(s[j])
    ensures forall j :: lo <= j < hi ==> MatchEnd(SpaceRun, s, j).None?
  {
  }

  /** A run of class cls from i to j that nothing of the class follows. */
  lemma {:induction false} RunEndIs(s: string, i: nat, j: nat, cls: RunClass)
    requires i <= j <= |s|
    requires forall k :: i <= k < j ==> InClass(cls, s[k])
    requires j == |s| || !InClass(cls, s[j])
    ensures RunEnd(s, i, cls) == j
    decreases j - i
  {
    if i < j {
      RunEndIs(s, i + 1, j, cls);
    }
  }

  /** A character outside the allowed class followed by an allowed one is a match of its own. */
  lemma DisallowedAt(s: string, k: nat)
    requires k < |s| && !IsAllowed(s[k]) && (k + 1 == |s| || IsAllowed(s[k + 1]))
    ensures MatchEnd(Disallowed, s, k) == Some(k + 1)
  {
    RunEndIs(s, k + 1, k + 1, NotAllowed);
  }

  /** A run of whitespace from k to e is one match of the whitespace-run pass. */
  lemma SpaceRunAt(s: string, k: nat, e: nat)
    requires k < e <= |s|
    requires forall j :: k <= j < e ==> IsSpace(s[j])
    requires e == |s| || !IsSpace(s[e])
    ensures MatchEnd(SpaceRun, s, k) == Some(e)
  {
    RunEndIs(s, k, e, Spaces);
  }

  /** A pass with exactly three matches. */
  lemma ThreeMatches(p: Pattern, s: string, k1: nat, e1: nat, k2: nat, e2: nat, k3: nat, e3: nat)
    requires k1 < |s| && MatchEnd(p, s, k1) == Some(e1)
    requires e1 <= k2 < |s| && MatchEnd(p, s, k2) == Some(e2)
    requires e2 <= k3 < |s| && MatchEnd(p, s, k3) == Some(e3)
    requires forall j :: 0 <= j < k1 ==> MatchEnd(p, s, j).None?
    requires forall j :: e1 <= j < k2 ==> MatchEnd(p, s, j).None?
    requires forall j :: e2 <= j < k3 ==> MatchEnd(p, s, j).None?
    requires forall j :: e3 <= j < |s| ==> MatchEnd(p, s, j).None?
    ensures Sub(p, s) == (s[..k1] + Replacement(p)) + ((s[e1..k2] + Replacement(p)) + ((s[e2..k3] + Replacement(p)) + s[e3..]))
  {
    NextMatch(p, s, 0, k1, e1);
    NextMatch(p, s, e1, k2, e2);
    NextMatch(p, s, e2, k3, e3);
    LastMatch(p, s, e3);
    assert s[0..k1] == s[..k1];
  }

  /** Strip drops exactly one leading space from a text that does not end in whitespace. */
  lemma StripOneLeading(e: string)
    requires 2 <= |e| && IsSpace(e[0]) && !IsSpace(e[1]) && !IsSpace(e[|e| - 1])
    ensures Strip(e) == e[1..]
  {
    assert e[1..][1..] == e[2..];
    assert LStrip(e[1..]) == e[1..];
    assert LStrip(e) == e[1..];
  }

  lemma SpecialNoKeys(s: string)
    requires s == "$Special$ Talk #2024"
    ensures '<' !in s && ':' !in s && '/' !in s && '&' !in s
  {
  }

  lemma SpecialSingleSpaced(s: string)
    requires s == "$Special$ Talk #2024"
    ensures SingleSpaced(s)
  {
  }

  /** '$' stands at 0 and 8, '#' at 15, and every other character is allowed. */
  lemma SpecialDisallowedChars(s: string)
    requires s == "$Special$ Talk #2024"
    ensures |s| == 20 && !IsAllowed(s[0]) && !IsAllowed(s[8]) && !IsAllowed(s[15])
    ensures forall j :: 1 <= j < 8 || 9 <= j < 15 || 16 <= j < 20 ==> IsAllowed(s[j])
  {
  }

  /** The Disallowed pass turns '$' before and after "Special" and '#' into spaces. */
  lemma SpecialDisallowed(s: string, d: string)
    requires s == "$Special$ Talk #2024" && d == " Special  Talk  2024"
    ensures Sub(Disallowed, s) == d
  {
    SpecialDisallowedChars(s);
    DisallowedAt(s, 0);
    DisallowedAt(s, 8);
    DisallowedAt(s, 15);
    AllowedNoMatch(s, 1, 8);
    AllowedNoMatch(s, 9, 15);
    AllowedNoMatch(s, 16, 20);
    ThreeMatches(Disallowed, s, 0, 1, 8, 9, 15, 16);
    SpecialDisallowedSplice(s, d);
  }

  lemma SpecialDisallowedSplice(s: string, d: string)
    requires s == "$Special$ Talk #2024" && d == " Special  Talk  2024"
    ensures (s[..0] + " ") + ((s[1..8] + " ") + ((s[9..15] + " ") + s[16..])) == d
  {
    SpecialPieces(s, d);
    assert s[1..8] == "Special";
    assert s[9..15] == " Talk ";
    assert s[16..] == "2024";
  }

  lemma SpecialPieces(s: string, d: string)
    requires s == "$Special$ Talk #2024" && d == " Special  Talk  2024"
    ensures s == "$" + "Special" + "$" + " Talk " + "#" + "2024"
    ensures d == " " + "Special" + " " + " Talk " + " " + "2024"
  {
  }

  lemma SpacedNoKeys(d: string)
    requires d == " Special  Talk  2024"
    ensures ':' !in d && '/' !in d && '&' !in d && 'M' !in d
  {
  }

  lemma SpacedNoWords(d: string)
    requires d == " Special  Talk  2024"
    ensures 'I' !in d && 'L' !in d && 'M' !in d
  {
  }

  /** Spaces stand at 0, 8, 9, 14 and 15. */
  lemma SpacedRuns(d: string)
    requires d == " Special  Talk  2024"
    ensures |d| == 20 && IsSpace(d[0]) && IsSpace(d[8]) && IsSpace(d[9]) && IsSpace(d[14]) && IsSpace(d[15])
    ensures forall j :: 1 <= j < 8 || 10 <= j < 14 || 16 <= j < 20 ==> !IsSpace(d[j])
  {
  }

  /** The whitespace-run pass makes one space of each double space. */
  lemma SpecialSpaceRun(d: string, e: string)
    requires d == " Special  Talk  2024" && e == " Special Talk 2024"
    ensures Sub(SpaceRun, d) == e
  {
    SpacedMatches(d);
    ThreeMatches(SpaceRun, d, 0, 1, 8, 10, 14, 16);
    SpecialSpaceRunSplice(d, e);
  }

  lemma SpacedMatches(d: string)
    requires d == " Special  Talk  2024"
    ensures |d| == 20
    ensures MatchEnd(SpaceRun, d, 0) == Some(1) && MatchEnd(SpaceRun, d, 8) == Some(10) && MatchEnd(SpaceRun, d, 14) == Some(16)
    ensures forall j :: 1 <= j < 8 || 10 <= j < 14 || 16 <= j < 20 ==> MatchEnd(SpaceRun, d, j).None?
  {
    SpacedRuns(d);
    SpaceRunAt(d, 0, 1);
    SpaceRunAt(d, 8, 10);
    SpaceRunAt(d, 14, 16);
    NonSpaceNoMatch(d, 1, 8);
    NonSpaceNoMatch(d, 10, 14);
    NonSpaceNoMatch(d, 16, 20);
  }

  lemma SpecialSpaceRunSplice(d: string, e: string)
    requires d == " Special  Talk  2024" && e == " Special Talk 2024"
    ensures (d[..0] + " ") + ((d[1..8] + " ") + ((d[10..14] + " ") + d[16..])) == e
  {
    SpacedPieces(d, e);
    assert d[1..8] == "Special";
    assert d[10..14] == "Talk";
    assert d[16..] == "2024";
  }

  lemma SpacedPieces(d: string, e: string)
    requires d == " Special  Talk  2024" && e == " Special Talk 2024"
    ensures d == " " + "Special" + "  " + "Talk" + "  " + "2024"
    ensures e == " " + "Special" + " " + "Talk" + " " + "2024"
  {
  }

  lemma SpecialUntouched(s: string)
    requires s == "$Special$ Talk #2024"
    ensures Stage(8, s) == s
  {
    SpecialNoKeys(s);
    SpecialSingleSpaced(s);
    EarlyPassesKeep(s);
    StagesKeepText(s, s, 0, 8);
  }

  lemma SpacedUntouched(d: string)
    requires d == " Special  Talk  2024"
    ensures forall n :: 9 <= n < 16 ==> Sub(Patterns[n], d) == d
  {
    SpacedNoKeys(d);
    SpacedNoWords(d);
    RestorePassesKeep(d, 'I', 'L', 'M');
    SpacingPassesKeep(d);
  }

  /** The Disallowed pass is the only one before the last that changes the title. */
  lemma SpecialStages(s: string, d: string)
    requires s == "$Special$ Talk #2024" && d == " Special  Talk  2024"
    ensures Stage(16, s) == d
  {
    SpecialUntouched(s);
    SpecialDisallowed(s, d);
    StageStep(8, s);
    SpacedUntouched(d);
    StagesKeepText(s, d, 9, 16);
  }

  /** '$Special$ Talk #2024' becomes 'Special Talk 2024': '$' and '#' become spaces, the runs of spaces collapse and strip removes the leading one. */
  lemma SpecialTalkCleaned(s: string)
    requires s == "$Special$ Talk #2024"
    ensures SanitizeValue(Str(s)) == "Special Talk 2024"
  {
    var d, e := " Special  Talk  2024", " Special Talk 2024";
    SpecialStages(s, d);
    SpecialSpaceRun(d, e);
    StageStep(16, s);
    StageAllIsPatterns(s);
    SpecialStripped(e);
  }

  lemma SpecialStripped(e: string)
    requires e == " Special Talk 2024"
    ensures Truncate(Strip(e)) == "Special Talk 2024"
  {
    StripOneLeading(e);
  }

  /** A pass with exactly one match. */
  lemma SingleMatch(p: Pattern, s: string, k: nat, e: nat)
    requires k < |s| && MatchEnd(p, s, k) == Some(e)
    requires forall j :: 0 <= j < k ==> MatchEnd(p, s, j).None?
    requires forall j :: e <= j < |s| ==> MatchEnd(p, s, j).None?
    ensures Sub(p, s) == (s[..k] + Replacement(p)) + s[e..]
  {
    NextMatch(p, s, 0, k, e);
    LastMatch(p, s, e);
    assert s[0..k] == s[..k];
  }

  /** A pass with exactly two matches. */
  lemma TwoMatches(p: Pattern, s: string, k1: nat, e1: nat, k2: nat, e2: nat)
    requires k1 < |s| && MatchEnd(p, s, k1) == Some(e1)
    requires e1 <= k2 < |s| && MatchEnd(p, s, k2) == Some(e2)
    requires forall j :: 0 <= j < k1 ==> MatchEnd(p, s, j).None?
    requires forall j :: e1 <= j < k2 ==> MatchEnd(p, s, j).None?
    requires forall j :: e2 <= j < |s| ==> MatchEnd(p, s, j).None?
    ensures Sub(p, s) == (s[..k1] + Replacement(p)) + ((s[e1..k2] + Replacement(p)) + s[e2..])
  {
    NextMatch(p, s, 0, k1, e1);
    NextMatch(p, s, e1, k2, e2);
    LastMatch(p, s, e2);
    assert s[0..k1] == s[..k1];
  }

  /** A restore pass finds no match where each position lacks the restored word's first character or is followed by something other than its second. */
  lemma RestoreNoMatch(p: Pattern, s: string, lo: nat, hi: nat)
    requires p == RestoreColon || p == RestoreSlash || p == RestoreAmp
    requires lo <= hi <= |s|
    requires forall j :: lo <= j < hi ==> s[j] != Keys(p)[0] || (j + 1 < |s| && s[j + 1] != Keys(p)[1])
    ensures forall j :: lo <= j < hi ==> MatchEnd(p, s, j).None?
  {
    forall j | lo <= j < hi ensures MatchEnd(p, s, j).None? {
      var w := Keys(p);
      if j + |w| <= |s| {
        assert s[j..j + |w|][0] == s[j] && s[j..j + |w|][1] == s[j + 1];
      }
    }
  }

  /** The spacing pass around c (ampersand or slash) finds no match where c is missing and the range does not end in whitespace before the end of s. */
  lemma SpacingNoMatch(p: Pattern, s: string, lo: nat, hi: nat, c: char)
    requires (p == AmpSpacing && c == '&') || (p == SlashSpacing && c == '/')
    requires lo <= hi <= |s|
    requires forall j :: lo <= j < hi ==> s[j] != c
    requires lo < hi < |s| ==> !IsSpace(s[hi - 1])
    ensures forall j :: lo <= j < hi ==> MatchEnd(p, s, j).None?
  {
    forall j | lo <= j < hi ensures MatchEnd(p, s, j).None? {
      var m := RunEnd(s, j, Spaces);
    }
  }

  /** Putting back the text a match covered restores s. */
  lemma SpliceBack(s: string, k: nat, e: nat, r: string)
    requires k <= e <= |s| && s[k..e] == r
    ensures (s[..k] + r) + s[e..] == s
  {
    assert s == s[..k] + s[k..e] + s[e..];
  }

  // The track value 'AI/ML & Cloud/DevOps' and the texts it passes through.

  lemma TrackFirstChars(s: string)
    requires s == "AI/ML & Cloud/DevOps"
    ensures '<' !in s && ':' !in s
  {
  }

  lemma TrackSingleSpaced(s: string)
    requires s == "AI/ML & Cloud/DevOps"
    ensures SingleSpaced(s)
  {
  }

  lemma TrackFirstPasses(s: string)
    requires s == "AI/ML & Cloud/DevOps"
    ensures forall n :: 0 <= n < 6 ==> Sub(Patterns[n], s) == s
  {
    TrackFirstChars(s);
    TrackSingleSpaced(s);
    TagPassesKeep(s);
    SingleSpacesKept(ControlRun, s);
    KeyAbsentSub(TimeColon, s, ':');
  }

  /** Slashes stand at 2 and 13, each between letters. */
  lemma TrackSlashes(s: string)
    requires s == "AI/ML & Cloud/DevOps"
    ensures |s| == 20 && s[2] == '/' && s[13] == '/'
    ensures IsAsciiLetter(s[1]) && IsAsciiLetter(s[3]) && IsAsciiLetter(s[12]) && IsAsciiLetter(s[14])
    ensures forall j :: 0 <= j < 2 || 3 <= j < 13 || 14 <= j < 20 ==> s[j] != '/'
  {
  }

  lemma TrackProtectSlash(s: string, a: string)
    requires s == "AI/ML & Cloud/DevOps" && a == "AI" + "SLASH" + "ML " + "&" + " Cloud" + "SLASH" + "DevOps"
    ensures Sub(CategorySlash, s) == a
  {
    TrackSlashes(s);
    StartCharAbsent(CategorySlash, s, 0, 2);
    StartCharAbsent(CategorySlash, s, 3, 13);
    StartCharAbsent(CategorySlash, s, 14, 20);
    TwoMatches(CategorySlash, s, 2, 3, 13, 14);
    TrackProtectSlashSplice(s, a);
  }

  lemma TrackProtectSlashSplice(s: string, a: string)
    requires s == "AI/ML & Cloud/DevOps" && a == "AI" + "SLASH" + "ML " + "&" + " Cloud" + "SLASH" + "DevOps"
    ensures (s[..2] + "SLASH") + ((s[3..13] + "SLASH") + s[14..]) == a
  {
    TrackPieces(s);
    assert s[..2] == "AI";
    assert s[3..13] == "ML " + "&" + " Cloud";
    assert s[14..] == "DevOps";
  }

  lemma TrackPieces(s: string)
    requires s == "AI/ML & Cloud/DevOps"
    ensures s == "AI" + "/" + "ML " + "&" + " Cloud" + "/" + "DevOps"
  {
  }

  /** The ampersand at 10 is followed by a space, and is the only one. */
  lemma TrackAmpersand(a: string)
    requires a == "AI" + "SLASH" + "ML " + "&" + " Cloud" + "SLASH" + "DevOps"
    ensures |a| == 28 && a[10] == '&' && IsSpace(a[11])
    ensures forall j :: 0 <= j < 10 || 11 <= j < 28 ==> a[j] != '&'
  {
  }

  lemma TrackProtectAmp(a: string, b: string)
    requires a == "AI" + "SLASH" + "ML " + "&" + " Cloud" + "SLASH" + "DevOps" && b == "AI" + "SLASH" + "ML " + "AMPERSAND" + " Cloud" + "SLASH" + "DevOps"
    ensures Sub(TrailingAmp, a) == b
  {
    TrackAmpersand(a);
    TrackProtectAmpSplice(a, b);
    OneMatch(TrailingAmp, a, 10, 11, b);
  }

  lemma TrackProtectAmpSplice(a: string, b: string)
    requires a == "AI" + "SLASH" + "ML " + "&" + " Cloud" + "SLASH" + "DevOps" && b == "AI" + "SLASH" + "ML " + "AMPERSAND" + " Cloud" + "SLASH" + "DevOps"
    ensures b == a[..10] + "AMPERSAND" + a[11..]
  {
    assert a[..10] == "AI" + "SLASH" + "ML ";
    assert a[11..] == " Cloud" + "SLASH" + "DevOps";
  }

  lemma TrackProtectedChars(b: string)
    requires b == "AI" + "SLASH" + "ML " + "AMPERSAND" + " Cloud" + "SLASH" + "DevOps"
    ensures All(b, IsAllowed) && 'T' !in b
  {
  }

  /** The word SLASH stands at 2 and 25; every other 'S' is followed by something other than 'L'. */
  lemma TrackSlashWords(b: string)
    requires b == "AI" + "SLASH" + "ML " + "AMPERSAND" + " Cloud" + "SLASH" + "DevOps"
    ensures |b| == 36 && b[2..7] == "SLASH" && b[25..30] == "SLASH"
    ensures forall j :: 0 <= j < 2 || 7 <= j < 25 ==> b[j] != 'S' || (j + 1 < |b| && b[j + 1] != 'L')
    ensures forall j :: 30 <= j < 36 ==> b[j] != 'S' || (j + 1 < |b| && b[j + 1] != 'L')
  {
  }

  lemma TrackRestoreSlash(b: string, c: string)
    requires b == "AI" + "SLASH" + "ML " + "AMPERSAND" + " Cloud" + "SLASH" + "DevOps" && c == "AI" + "/" + "ML " + "AMPERSAND" + " Cloud" + "/" + "DevOps"
    ensures Sub(RestoreSlash, b) == c
  {
    TrackSlashWords(b);
    RestoreNoMatch(RestoreSlash, b, 0, 2);
    RestoreNoMatch(RestoreSlash, b, 7, 25);
    assert b[35] != 'S' && Keys(RestoreSlash)[0] == 'S';
    RestoreNoMatch(RestoreSlash, b, 30, 36);
    TwoMatches(RestoreSlash, b, 2, 7, 25, 30);
    TrackRestoreSlashSplice(b, c);
  }

  lemma TrackRestoreSlashSplice(b: string, c: string)
    requires b == "AI" + "SLASH" + "ML " + "AMPERSAND" + " Cloud" + "SLASH" + "DevOps" && c == "AI" + "/" + "ML " + "AMPERSAND" + " Cloud" + "/" + "DevOps"
    ensures (b[..2] + "/") + ((b[7..25] + "/") + b[30..]) == c
  {
    assert b[..2] == "AI";
    assert b[7..25] == "ML " + "AMPERSAND" + " Cloud";
    assert b[30..] == "DevOps";
  }

  /** The word AMPERSAND stands at 6; the other 'A's are followed by something other than 'M'. */
  lemma TrackAmpWord(c: string)
    requires c == "AI" + "/" + "ML " + "AMPERSAND" + " Cloud" + "/" + "DevOps"
    ensures |c| == 28 && c[6..15] == "AMPERSAND"
    ensures forall j :: 0 <= j < 6 ==> c[j] != 'A' || (j + 1 < |c| && c[j + 1] != 'M')
    ensures forall j :: 15 <= j < 28 ==> c[j] != 'A' || (j + 1 < |c| && c[j + 1] != 'M')
  {
  }

  lemma TrackRestoreAmp(c: string, s: string)
    requires c == "AI" + "/" + "ML " + "AMPERSAND" + " Cloud" + "/" + "DevOps" && s == "AI/ML & Cloud/DevOps"
    ensures Sub(RestoreAmp, c) == s
  {
    TrackAmpWord(c);
    RestoreNoMatch(RestoreAmp, c, 0, 6);
    assert c[27] != 'A' && Keys(RestoreAmp)[0] == 'A';
    RestoreNoMatch(RestoreAmp, c, 15, 28);
    SingleMatch(RestoreAmp, c, 6, 15);
    TrackRestoreAmpSplice(c, s);
  }

  lemma TrackRestoreAmpSplice(c: string, s: string)
    requires c == "AI" + "/" + "ML " + "AMPERSAND" + " Cloud" + "/" + "DevOps" && s == "AI/ML & Cloud/DevOps"
    ensures (c[..6] + "&") + c[15..] == s
  {
    TrackPieces(s);
    assert c[..6] == "AI" + "/" + "ML ";
    assert c[15..] == " Cloud" + "/" + "DevOps";
  }

  /** The passes from the Disallowed one to the last restore: the protected words go back to '/' and '&'. */
  lemma TrackMiddle(s: string, b: string, c: string)
    requires s == "AI/ML & Cloud/DevOps" && b == "AI" + "SLASH" + "ML " + "AMPERSAND" + " Cloud" + "SLASH" + "DevOps" && c == "AI" + "/" + "ML " + "AMPERSAND" + " Cloud" + "/" + "DevOps"
    requires Stage(8, s) == b
    ensures Stage(12, s) == s
  {
    TrackNoColonWord(s, b);
    TrackRestoreSlash(b, c);
    StageStep(10, s);
    TrackRestoreAmp(c, s);
    StageStep(11, s);
  }

  /** The Disallowed pass and the colon restore leave the protected track as it is. */
  lemma TrackNoColonWord(s: string, b: string)
    requires s == "AI/ML & Cloud/DevOps" && b == "AI" + "SLASH" + "ML " + "AMPERSAND" + " Cloud" + "SLASH" + "DevOps"
    requires Stage(8, s) == b
    ensures Stage(10, s) == b
  {
    TrackProtectedChars(b);
    AllowedSub(b);
    KeyAbsentSub(RestoreColon, b, 'T');
    StagesKeepText(s, b, 8, 10);
  }

  lemma TrackProtect(s: string, a: string, b: string)
    requires s == "AI/ML & Cloud/DevOps" && a == "AI" + "SLASH" + "ML " + "&" + " Cloud" + "SLASH" + "DevOps" && b == "AI" + "SLASH" + "ML " + "AMPERSAND" + " Cloud" + "SLASH" + "DevOps"
    ensures Stage(8, s) == b
  {
    TrackFirstPasses(s);
    StagesKeepText(s, s, 0, 6);
    TrackProtectSlash(s, a);
    StageStep(6, s);
    TrackProtectAmp(a, b);
    StageStep(7, s);
  }

  /** Around the ampersand and the slashes, the spacing passes match but write back what they matched. */
  lemma TrackSpacingFacts(s: string)
    requires s == "AI/ML & Cloud/DevOps"
    ensures |s| == 20 && ':' !in s && s[5..8] == " & " && s[2..3] == "/" && s[13..14] == "/"
    ensures IsSpace(s[5]) && s[6] == '&' && IsSpace(s[7]) && s[8] == 'C' && s[3] == 'M' && s[14] == 'D'
    ensures !IsSpace(s[1]) && !IsSpace(s[4]) && !IsSpace(s[12])
    ensures forall j :: 0 <= j < 5 || 8 <= j < 20 ==> s[j] != '&'
    ensures forall j :: 0 <= j < 2 || 3 <= j < 13 || 14 <= j < 20 ==> s[j] != '/'
  {
  }

  /** No whitespace follows an 'A' or 'P', so the AM/PM pass finds nothing. */
  lemma TrackMeridiem(s: string)
    requires s == "AI/ML & Cloud/DevOps"
    ensures Sub(MeridiemSpace, s) == s
  {
    forall j | 0 <= j < |s| ensures MatchEnd(MeridiemSpace, s, j).None? {
    }
    NoMatchCopies(MeridiemSpace, s, 0);
    assert s[0..] == s;
  }

  lemma TrackAmpSpacing(s: string)
    requires s == "AI/ML & Cloud/DevOps"
    ensures Sub(AmpSpacing, s) == s
  {
    TrackAmpMatch(s);
    SingleMatch(AmpSpacing, s, 5, 8);
    SpliceBack(s, 5, 8, " & ");
  }

  /** " & " at 5 is the one match of the ampersand spacing pass. */
  lemma TrackAmpMatch(s: string)
    requires s == "AI/ML & Cloud/DevOps"
    ensures |s| == 20 && s[5..8] == " & " && MatchEnd(AmpSpacing, s, 5) == Some(8)
    ensures forall j :: 0 <= j < 5 || 8 <= j < 20 ==> MatchEnd(AmpSpacing, s, j).None?
  {
    TrackSpacingFacts(s);
    RunEndIs(s, 5, 6, Spaces);
    RunEndIs(s, 7, 8, Spaces);
    SpacingNoMatch(AmpSpacing, s, 0, 5, '&');
    SpacingNoMatch(AmpSpacing, s, 8, 20, '&');
  }

  lemma TrackSlashSpacing(s: string)
    requires s == "AI/ML & Cloud/DevOps"
    ensures Sub(SlashSpacing, s) == s
  {
    TrackSlashMatches(s);
    TwoMatches(SlashSpacing, s, 2, 3, 13, 14);
    SpliceBack(s[3..], 10, 11, "/");
    assert s[3..][..10] == s[3..13] && s[3..][11..] == s[14..];
    SpliceBack(s, 2, 3, "/");
    assert s[2 + 1..] == s[3..];
  }

  /** The slashes at 2 and 13 are the two matches of the slash spacing pass. */
  lemma TrackSlashMatches(s: string)
    requires s == "AI/ML & Cloud/DevOps"
    ensures |s| == 20 && s[2..3] == "/" && s[13..14] == "/"
    ensures MatchEnd(SlashSpacing, s, 2) == Some(3) && MatchEnd(SlashSpacing, s, 13) == Some(14)
    ensures forall j :: 0 <= j < 2 || 3 <= j < 13 || 14 <= j < 20 ==> MatchEnd(SlashSpacing, s, j).None?
  {
    TrackSpacingFacts(s);
    RunEndIs(s, 2, 2, Spaces);
    RunEndIs(s, 3, 3, Spaces);
    RunEndIs(s, 13, 13, Spaces);
    RunEndIs(s, 14, 14, Spaces);
    SpacingNoMatch(SlashSpacing, s, 0, 2, '/');
    SpacingNoMatch(SlashSpacing, s, 3, 13, '/');
    SpacingNoMatch(SlashSpacing, s, 14, 20, '/');
  }

  lemma TrackLastPasses(s: string)
    requires s == "AI/ML & Cloud/DevOps"
    ensures forall n :: 12 <= n < 17 ==> Sub(Patterns[n], s) == s
  {
    TrackSpacingFacts(s);
    KeyAbsentSub(SpaceBeforeColon, s, ':');
    TrackMeridiem(s);
    TrackAmpSpacing(s);
    TrackSlashSpacing(s);
    TrackSingleSpaced(s);
    SingleSpacesKept(SpaceRun, s);
  }

  /** 'AI/ML & Cloud/DevOps' comes through unchanged: its slashes and its ampersand are protected, restored and re-spaced as they were. */
  lemma TrackKept(s: string)
    requires s == "AI/ML & Cloud/DevOps"
    ensures SanitizeValue(Str(s)) == s
  {
    var a, b, c := "AI" + "SLASH" + "ML " + "&" + " Cloud" + "SLASH" + "DevOps", "AI" + "SLASH" + "ML " + "AMPERSAND" + " Cloud" + "SLASH" + "DevOps", "AI" + "/" + "ML " + "AMPERSAND" + " Cloud" + "/" + "DevOps";
    TrackProtect(s, a, b);
    TrackMiddle(s, b, c);
    TrackLastPasses(s);
    StagesKeepText(s, s, 12, 17);
    StageAllIsPatterns(s);
    KeptValue(s);
  }

  // ---------------------------------------------------------------------
  // Values, one field, the whole dictionary
  // ---------------------------------------------------------------------

  /** A metadata value: a str, or any other object, given by what str() makes of it. */
  datatype Value = Str(s: string) | NonStr(str: string)

  function ToText(v: Value): string {
    match v
    case Str(s) => s
    case NonStr(t) => t
  }

  /** Cut a value longer than MaxLength to its first MaxLength - 3 characters and an ellipsis. */
  function Truncate(t: string): (r: string)
    ensures |r| <= MaxLength
    ensures |t| <= MaxLength ==> r == t
    ensures |t| > MaxLength ==> |r| == MaxLength && r[..MaxLength - 3] == t[..MaxLength - 3] && r[MaxLength - 3..] == "..."
  {
    if |t| > MaxLength then t[..MaxLength - 3] + "..." else t
  }

  lemma StripKeeps(s: string, P: char -> bool)
    requires All(s, P)
    ensures All(Strip(s), P)
  {
    var t := Strip(s);
    forall k | 0 <= k < |t| ensures P(t[k]) {
      assert t[k] == s[StripStart(s) + k];
    }
  }

  /** Truncation keeps a value safe and free of leading and trailing whitespace: the ellipsis is neither. */
  lemma TruncateKeeps(t: string)
    requires All(t, IsSafe)
    requires t == [] || (!IsSpace(t[0]) && !IsSpace(t[|t| - 1]))
    ensures All(Truncate(t), IsSafe)
    ensures Truncate(t) == [] || (!IsSpace(Truncate(t)[0]) && !IsSpace(Truncate(t)[|Truncate(t)| - 1]))
  {
    var r := Truncate(t);
    if |t| > MaxLength {
      forall k | 0 <= k < |r| ensures IsSafe(r[k]) {
        if k < MaxLength - 3 {
          assert r[k] == t[k];
        } else {
          assert r[k] == '.';
        }
      }
      assert r[0] == t[0];
      assert r[|r| - 1] == '.';
    }
  }

  /** The text after the whole pattern list: it holds no '<', '>' or control character. */
  function Clean(t: string): (r: string)
    ensures All(r, IsSafe)
  {
    PatternsMakeSafe(t);
    ApplyAll(Patterns, t)
  }

  /** What one allowed field's value becomes; the empty string means the field is dropped. The result is at most MaxLength long, holds no '<', '>' or control character, and neither starts nor ends with whitespace. */
  function SanitizeValue(v: Value): (r: string)
    ensures |r| <= MaxLength
    ensures All(r, IsSafe)
    ensures r == [] || (!IsSpace(r[0]) && !IsSpace(r[|r| - 1]))
  {
    var cleaned := Clean(ToText(v));
    StripKeeps(cleaned, IsSafe);
    TruncateKeeps(Strip(cleaned));
    Truncate(Strip(cleaned))
  }

  /** A value the output may hold, or the empty string that drops the field: bounded, safe and stripped. */
  predicate GoodValue(v: string) {
    |v| <= MaxLength && All(v, IsSafe) && (v == [] || (!IsSpace(v[0]) && !IsSpace(v[|v| - 1])))
  }

  lemma SanitizeValueGood(v: Value)
    ensures GoodValue(SanitizeValue(v))
  {
  }

  /** What the output dictionary promises of every entry: an allowed key, and a non-empty, bounded, safe, stripped value. */
  predicate WellFormed(m: map<string, string>) {
    && m.Keys <= AllowedKeys
    && (forall k :: k in m ==> m[k] != "" && GoodValue(m[k]))
  }

  lemma UpdateWellFormed(acc: map<string, string>, key: string, v: string)
    requires WellFormed(acc) && key in AllowedKeys
    requires v != "" && GoodValue(v)
    ensures WellFormed(acc[key := v])
  {
    var m := acc[key := v];
    forall k | k in m ensures m[k] != "" && GoodValue(m[k]) {
      if k != key {
        assert m[k] == acc[k];
      }
    }
  }

  /**
   * One turn of the loop over the items: an allowed key whose sanitised value
   * is not empty is (over)written. `clean` is the value sanitiser; the
   * dictionary built from the items depends on it only through its results.
   */
  function AddItem(acc: map<string, string>, item: (string, Value), clean: Value -> string): map<string, string> {
    if item.0 !in AllowedKeys then acc
    else
      var v := clean(item.1);
      if v != "" then acc[item.0 := v] else acc
  }

  lemma AddItemWellFormed(acc: map<string, string>, item: (string, Value), clean: Value -> string)
    requires WellFormed(acc) && GoodValue(clean(item.1))
    ensures WellFormed(AddItem(acc, item, clean))
  {
    if item.0 in AllowedKeys && clean(item.1) != "" {
      UpdateWellFormed(acc, item.0, clean(item.1));
    }
  }

  /** The dictionary built by the loop over the items (in iteration order): later items of the same key overwrite earlier ones. */
  function SanitizeItems(items: seq<(string, Value)>, clean: Value -> string): map<string, string>
    decreases |items|
  {
    if items == [] then map[]
    else AddItem(SanitizeItems(items[..|items| - 1], clean), items[|items| - 1], clean)
  }

  /** Every entry of the output has an allowed key and a non-empty, bounded, safe, stripped value. */
  lemma {:induction false} SanitizeItemsWellFormed(items: seq<(string, Value)>)
    ensures WellFormed(SanitizeItems(items, SanitizeValue))
    decreases |items|
  {
    if items != [] {
      SanitizeItemsWellFormed(items[..|items| - 1]);
      SanitizeValueGood(items[|items| - 1].1);
      AddItemWellFormed(SanitizeItems(items[..|items| - 1], SanitizeValue), items[|items| - 1], SanitizeValue);
    }
  }

  /** The items of a dictionary: no key occurs twice. */
  predicate DistinctKeys(items: seq<(string, Value)>) {
    forall a, b :: 0 <= a < b < |items| ==> items[a].0 != items[b].0
  }

  /** Every key of the output is the key of some item. */
  lemma {:induction false} SanitizeItemsKeysFrom(items: seq<(string, Value)>, clean: Value -> string)
    ensures forall k :: k in SanitizeItems(items, clean) ==> exists j :: 0 <= j < |items| && items[j].0 == k
    decreases |items|
  {
    if items != [] {
      var n := |items| - 1;
      var prefix := items[..n];
      SanitizeItemsKeysFrom(prefix, clean);
      var acc := SanitizeItems(prefix, clean);
      var r := SanitizeItems(items, clean);
      assert r == AddItem(acc, items[n], clean);
      forall k | k in r ensures exists j :: 0 <= j < |items| && items[j].0 == k {
        if k in acc {
          var j :| 0 <= j < |prefix| && prefix[j].0 == k;
          assert items[j].0 == k;
        } else {
          assert items[n].0 == k;
        }
      }
    }
  }

  /** For the items of a dictionary, item j's key is in the output exactly when it is allowed and its sanitised value is not empty, and then it maps to that value. */
  lemma {:induction false} SanitizeItemAt(items: seq<(string, Value)>, clean: Value -> string, j: nat)
    requires DistinctKeys(items) && j < |items|
    ensures items[j].0 in SanitizeItems(items, clean) <==> items[j].0 in AllowedKeys && clean(items[j].1) != ""
    ensures items[j].0 in SanitizeItems(items, clean) ==> SanitizeItems(items, clean)[items[j].0] == clean(items[j].1)
    decreases |items|
  {
    var n := |items| - 1;
    if j < n {
      var prefix := items[..n];
      assert DistinctKeys(prefix) by {
        forall a, b | 0 <= a < b < |prefix| ensures prefix[a].0 != prefix[b].0 {
          assert prefix[a] == items[a] && prefix[b] == items[b];
        }
      }
      SanitizeItemAt(prefix, clean, j);
      assert prefix[j] == items[j];
      assert SanitizeItems(items, clean) == AddItem(SanitizeItems(prefix, clean), items[n], clean);
    } else {
      var prefix := items[..n];
      var last := items[n];
      assert SanitizeItems(items, clean) == AddItem(SanitizeItems(prefix, clean), last, clean);
      SanitizeItemsKeysFrom(prefix, clean);
      forall i | 0 <= i < |prefix| ensures prefix[i].0 != last.0 {
        assert prefix[i] == items[i];
      }
      assert last.0 !in SanitizeItems(prefix, clean);
    }
  }

  /** The same for all items at once: the output is exactly the allowed, non-empty items. */
  lemma SanitizeItemsExactly(items: seq<(string, Value)>)
    requires DistinctKeys(items)
    ensures forall j :: 0 <= j < |items| ==>
      (items[j].0 in SanitizeSpec(Some(items)) <==> items[j].0 in AllowedKeys && SanitizeValue(items[j].1) != "")
    ensures forall j :: 0 <= j < |items| && items[j].0 in SanitizeSpec(Some(items)) ==>
      SanitizeSpec(Some(items))[items[j].0] == SanitizeValue(items[j].1)
    ensures forall k :: k in SanitizeSpec(Some(items)) ==> exists j :: 0 <= j < |items| && items[j].0 == k
  {
    if items != [] {
      forall j | 0 <= j < |items|
        ensures items[j].0 in SanitizeItems(items, SanitizeValue) <==> items[j].0 in AllowedKeys && SanitizeValue(items[j].1) != ""
        ensures items[j].0 in SanitizeItems(items, SanitizeValue) ==> SanitizeItems(items, SanitizeValue)[items[j].0] == SanitizeValue(items[j].1)
      {
        SanitizeItemAt(items, SanitizeValue, j);
      }
      SanitizeItemsKeysFrom(items, SanitizeValue);
    }
  }

  /** sanitize_metadata: None and the empty dictionary give the empty dictionary. */
  function SanitizeSpec(metadata: Option<seq<(string, Value)>>): map<string, string> {
    if metadata.None? || metadata.value == [] then map[] else SanitizeItems(metadata.value, SanitizeValue)
  }

  /** Four allowed fields, each with a non-empty cleaned value, come out as exactly those four entries. */
  lemma FourFields(speaker: Value, title: Value, track: Value, day: Value, clean: Value -> string)
    requires clean(speaker) != "" && clean(title) != "" && clean(track) != "" && clean(day) != ""
    ensures SanitizeItems([("speaker", speaker), ("title", title), ("track", track), ("day", day)], clean)
      == map["speaker" := clean(speaker), "title" := clean(title), "track" := clean(track), "day" := clean(day)]
  {
    var items := [("speaker", speaker), ("title", title), ("track", track), ("day", day)];
    assert "speaker" in AllowedKeys && "title" in AllowedKeys && "track" in AllowedKeys && "day" in AllowedKeys;
    var one := [("speaker", speaker)];
    assert one[..0] == [];
    assert SanitizeItems(one, clean) == map["speaker" := clean(speaker)];
    var two := one + [("title", title)];
    assert two[..1] == one;
    assert SanitizeItems(two, clean) == map["speaker" := clean(speaker), "title" := clean(title)];
    var three := two + [("track", track)];
    assert three[..2] == two;
    assert SanitizeItems(three, clean) == map["speaker" := clean(speaker), "title" := clean(title), "track" := clean(track)];
    assert items == three + [("day", day)];
    assert items[..3] == three;
  }

  /** The special-characters test case: the e-mail address, the track and the day are kept as they are, and the title loses '$' and '#'. */
  lemma SpecialCharactersCase(speaker: string, title: string, track: string, day: string)
    requires speaker == "John.Doe@company.com" && title == "$Special$ Talk #2024"
    requires track == "AI/ML & Cloud/DevOps" && day == "Monday @ 9:00 AM"
    ensures SanitizeSpec(Some([("speaker", Str(speaker)), ("title", Str(title)), ("track", Str(track)), ("day", Str(day))]))
      == map["speaker" := speaker, "title" := "Special Talk 2024", "track" := track, "day" := day]
  {
    EmailKept(speaker);
    SpecialTalkCleaned(title);
    TrackKept(track);
    MondayAtNineKept(day);
    FourFields(Str(speaker), Str(title), Str(track), Str(day), SanitizeValue);
  }

  /** One allowed field as the loop body handles it: the pattern list applied pass by pass, then strip and truncation. */
  method SanitizeField(value: Value) returns (v: string)
    ensures v == SanitizeValue(value)
  {
    var text := ToText(value);
    v := text;
    for n := 0 to |Patterns|
      invariant v == Stage(n, text)
    {
      StageStep(n, text);
      v := Sub(Patterns[n], v);
    }
    StageAllIsPatterns(text);
    v := Strip(v);
    if |v| > MaxLength {
      v := v[..MaxLength - 3] + "...";
    }
  }

  /** The loop body for one item: an allowed key is sanitised and kept unless its value came out empty. */
  method AddField(sanitized: map<string, string>, key: string, value: Value) returns (next: map<string, string>)
    ensures next == AddItem(sanitized, (key, value), SanitizeValue)
  {
    next := sanitized;
    if key in AllowedKeys {
      var v := SanitizeField(value);
      if v != "" {
        next := sanitized[key := v];
      }
    }
  }

  /** sanitize_metadata as the source runs it: a loop over the items, and for each allowed key a loop over the pattern list. */
  method SanitizeMetadata(metadata: Option<seq<(string, Value)>>) returns (sanitized: map<string, string>)
    ensures sanitized == SanitizeSpec(metadata)
    ensures metadata.None? || metadata.value == [] ==> sanitized == map[]
    ensures WellFormed(sanitized)
  {
    if metadata.None? || metadata.value == [] {
      return map[];
    }
    var items := metadata.value;
    sanitized := map[];
    var i := 0;
    while i < |items|
      invariant 0 <= i <= |items|
      invariant sanitized == SanitizeItems(items[..i], SanitizeValue)
    {
      var (key, value) := items[i];
      sanitized := AddField(sanitized, key, value);
      assert items[..i + 1][..i] == items[..i];
      i := i + 1;
    }
    assert items[..|items|] == items;
    SanitizeItemsWellFormed(items);
  }
}
